/**
 The control plane as a whole: channels, deployments and connection rows under one event loop.
 Deployments are made for complete rows on listed nodes, edits of a row may stop its deployment,
 and a node's disconnection demotes its rows and tears its deployments down.
 */
module ControlPlane {
  import opened Basics
  import opened Chains
  import opened Identity
  import opened IdentityHandlers
  import opened IdentityRaces
  import opened IdentityMirror
  import D = Deploy
  import T = DeployTheorems
  import P = PortPool
  import C = Connections
  import Routes
  import IdentityServer
  import DeployServer

  /** `ids` gives the row of a node by its uuid. */
  datatype Plane = Plane(net: State, ctl: D.Ctl, db: C.Db, ids: map<Uuid, I64>)

  datatype Move =
    | Net(handler: Handler, newId: I64)  // the id is for the row of a node seen for the first time
    | Deploys(id: I64, node: Uuid, ports: seq<D.BridgePort>, plan: D.Plan, container: string, started: bool)
    | Edit(event: C.Event)

  /** The node of a deployment, by which the registry is searched. */
  function NodeOf(key: D.Key): Uuid {
    Uuid(key.1)
  }

  function KeyOf(db: C.Db, id: I64, node: Uuid): D.Key
    requires id in db.conns
  {
    (db.conns[id].name, node.text)
  }

  predicate IsEdit(e: C.Event) {
    !e.AutoDeploy? && !e.NodeUp? && !e.NodeDown? && !e.Restart?
  }

  /** A deployment is tried for a row that the guard accepts, over the channel its node is listed
      for; a row id is new when it is used. */
  ghost predicate Allowed(p: Plane, m: Move) {
    match m
    case Net(h, newId) => Ready(p.net, h) && newId !in p.db.nodes
    case Deploys(id, u, ports, plan, _, _) =>
      && C.Accepts(p.db, id) && u in p.ids && p.db.conns[id].node == Some(p.ids[u])
      && u in p.net.registry && plan.via == p.net.registry[u] && |plan.ports| == |ports|
    case Edit(e) => IsEdit(e)
  }

  /** The deployment state of a new process: all pool ports free and nothing else. */
  function Blank(ctl: D.Ctl): D.Ctl {
    D.Ctl(map[], map[], [], P.Pool(ctl.pool.free + ctl.pool.held.Keys, map[]))
  }

  /** The uuid of a node row. */
  ghost function UuidOf(ids: map<Uuid, I64>, node: Option<I64>): Option<Uuid> {
    if node.Some? && exists u :: u in ids && ids[u] == node.value then
      var u :| u in ids && ids[u] == node.value;
      Some(u)
    else None
  }

  /** The deployed row that an edit stops first, if it does. */
  function StopsRow(db: C.Db, e: C.Event): Option<I64> {
    match e
    case Patch(id, slots) => if slots.node.Some? && id in db.conns && db.conns[id].status.Deployed? then Some(id) else None
    case Delete(id) => if id in db.conns && db.conns[id].status.Deployed? then Some(id) else None
    case _ => None
  }

  /** The update that a drain takes. */
  function Head(s: State): Event
    requires s.queue != []
  {
    s.queue[0]
  }

  ghost function CtlAfter(p: Plane, m: Move): D.Ctl
    requires Allowed(p, m)
  {
    match m
    case Net(h, _) =>
      if h.Reboot? then Blank(p.ctl)
      else if h.Sync? && Head(p.net).Disconnected? then D.Disconnected(p.ctl, Head(p.net).uuid.text)
      else p.ctl
    case Deploys(id, u, ports, plan, _, started) =>
      T.After(p.ctl, T.Deploying(KeyOf(p.db, id, u), ports, plan, started))
    case Edit(e) =>
      var id := StopsRow(p.db, e);
      if id.None? then p.ctl
      else
        var u := UuidOf(p.ids, p.db.conns[id.value].node);
        if u.None? then p.ctl else D.Stopped(p.ctl, KeyOf(p.db, id.value, u.value))
  }

  function IdsAfter(ids: map<Uuid, I64>, e: Event, newId: I64): map<Uuid, I64> {
    if e.Connected? && e.uuid !in ids then ids[e.uuid := newId] else ids
  }

  /** The connection rows after an update about a node. */
  function UpdateRows(db: C.Db, e: Event, ids: map<Uuid, I64>): C.Db {
    if e.uuid !in ids then db else C.After(db, if e.Connected? then C.NodeUp(ids[e.uuid]) else C.NodeDown(ids[e.uuid]))
  }

  /** The commit of this deployment will go through to the end. */
  ghost predicate Succeeds(ctl: D.Ctl, ports: seq<D.BridgePort>, plan: D.Plan, started: bool)
    requires |plan.ports| == |ports|
  {
    started && T.NoConflict(ctl.routes, ports) && T.AllRoutable(ctl.routes, ports, plan)
  }

  ghost function DbAfter(p: Plane, m: Move): C.Db
    requires Allowed(p, m)
  {
    match m
    case Net(h, newId) =>
      if h.Reboot? then C.After(p.db, C.Restart)
      else if h == Sync(true) then UpdateRows(p.db, Head(p.net), IdsAfter(p.ids, Head(p.net), newId))
      else p.db
    case Deploys(id, u, ports, plan, container, started) =>
      C.After(p.db, C.AutoDeploy(id, container, Succeeds(p.ctl, ports, plan, started)))
    case Edit(e) => C.After(p.db, e)
  }

  ghost function Moved(p: Plane, m: Move): Plane
    requires Allowed(p, m)
  {
    Plane(if m.Net? then Handle(p.net, m.handler) else p.net, CtlAfter(p, m), DbAfter(p, m),
          if m.Net? && m.handler == Sync(true) then IdsAfter(p.ids, Head(p.net), m.newId) else p.ids)
  }

  ghost function Moves(): (Plane, Move, Plane) -> bool {
    (p, m, q) => Allowed(p, m) && q == Moved(p, m)
  }

  ghost predicate IsRun(states: seq<Plane>, moves: seq<Move>) {
    && Path(Moves(), states, moves)
    && states[0].net == Empty() && states[0].ctl == Blank(states[0].ctl)
    && states[0].db == C.Db(map[], map[], {}, {}) && states[0].ids == map[]
  }

  // ---- No deployment outlives its node ----

  /** The node of every tracked deployment is listed, or its disconnection is queued. */
  ghost predicate NoOrphans(p: Plane) {
    forall key :: key in p.ctl.tracker ==> NodeOf(key) in p.net.registry || Disconnected(NodeOf(key)) in p.net.queue
  }

  /** Node rows and uuids correspond one to one. */
  ghost predicate Named(db: C.Db, ids: map<Uuid, I64>) {
    && (forall u, v :: u in ids && v in ids && ids[u] == ids[v] ==> u == v)
    && (forall u :: u in ids ==> ids[u] in db.nodes)
    && (forall n :: n in db.nodes ==> exists u :: u in ids && ids[u] == n)
  }

  ghost predicate Sound(p: Plane) {
    && Calm(p.net) && Reported(p.net) && NoOrphans(p) && T.Unreserved(p.ctl)
    && C.Inv(p.db) && Named(p.db, p.ids) && Agree(p)
  }

  /** The node rows that the deployments look at show what the event loop has stored about each uuid. */
  ghost predicate Agreed(rows: map<Uuid, Row>, nodes: map<I64, bool>, ids: map<Uuid, I64>) {
    && (forall u :: u in ids <==> u in rows)
    && (forall u :: u in ids && u in rows ==> ids[u] in nodes && nodes[ids[u]] == rows[u].online)
  }

  ghost predicate Agree(p: Plane) {
    Agreed(p.net.rows, p.db.nodes, p.ids)
  }

  /** The nodes after an update about one of them. */
  lemma UpdatedNodes(db: C.Db, e: Event, ids: map<Uuid, I64>)
    ensures e.uuid in ids && (e.Connected? || ids[e.uuid] in db.nodes) ==>
      UpdateRows(db, e, ids).nodes == db.nodes[ids[e.uuid] := e.Connected?]
    ensures e.uuid !in ids ==> UpdateRows(db, e, ids).nodes == db.nodes
  {
  }

  lemma UpdateKeepsAgreed(rows: map<Uuid, Row>, nodes: map<I64, bool>, ids: map<Uuid, I64>, e: Event, newId: I64)
    requires Agreed(rows, nodes, ids) && newId !in nodes && forall u, v :: u in ids && v in ids && ids[u] == ids[v] ==> u == v
    ensures var next := IdsAfter(ids, e, newId);
      Agreed(Record(rows, e), if e.uuid in next then nodes[next[e.uuid] := e.Connected?] else nodes, next)
  {
  }

  lemma UpdateKeepsAgree(p: Plane, newId: I64)
    requires Allowed(p, Net(Sync(true), newId)) && Named(p.db, p.ids) && Agree(p)
    ensures Agree(Moved(p, Net(Sync(true), newId)))
  {
    UpdatedNodes(p.db, Head(p.net), IdsAfter(p.ids, Head(p.net), newId));
    UpdateKeepsAgreed(p.net.rows, p.db.nodes, p.ids, Head(p.net), newId);
    assert Handle(p.net, Sync(true)).rows == Record(p.net.rows, Head(p.net));
  }

  /** Only a stored update and a restart write the rows. */
  lemma HandlerRows(s: State, h: Handler)
    requires Ready(s, h) && h != Sync(true)
    ensures Handle(s, h).rows == if h.Reboot? then Offline(s.rows) else s.rows
  {
  }

  lemma NetKeepsAgree(p: Plane, h: Handler, newId: I64)
    requires Allowed(p, Net(h, newId)) && Named(p.db, p.ids) && Agree(p)
    ensures Agree(Moved(p, Net(h, newId)))
  {
    if h == Sync(true) {
      UpdateKeepsAgree(p, newId);
    } else {
      HandlerRows(p.net, h);
    }
  }

  lemma OthersKeepAgree(p: Plane, m: Move)
    requires Allowed(p, m) && !m.Net? && Agree(p)
    ensures Agree(Moved(p, m))
  {
    if m.Edit? {
      EditKeepsNodes(p.db, m.event);
    }
  }

  /** A handler of a channel keeps the listed nodes listed or queues their disconnection. */
  lemma ChannelsKeepNoOrphans(s: State, h: Handler, u: Uuid)
    requires Ready(s, h) && Reported(s) && !h.Sync? && !h.Reboot?
    requires u in s.registry || Disconnected(u) in s.queue
    ensures u in Handle(s, h).registry || Disconnected(u) in Handle(s, h).queue
  {
    if h.Close? && s.channels[h.id].nodeUuid.Some? {
      CloseForm(s, h.id, s.channels[h.id].nodeUuid.value);
    }
  }

  lemma NetKeepsNoOrphans(p: Plane, h: Handler, newId: I64)
    requires Allowed(p, Net(h, newId)) && Reported(p.net) && NoOrphans(p)
    ensures NoOrphans(Moved(p, Net(h, newId)))
  {
    var q := Moved(p, Net(h, newId));
    if !h.Reboot? {
      forall key | key in q.ctl.tracker ensures NodeOf(key) in q.net.registry || Disconnected(NodeOf(key)) in q.net.queue {
        assert key in p.ctl.tracker;
        if h.Sync? {
          assert p.net.queue == [Head(p.net)] + q.net.queue;
        } else {
          ChannelsKeepNoOrphans(p.net, h, NodeOf(key));
        }
      }
    }
  }

  /** Under any key, a commit or a stop tracks nothing new but its own deployment. */
  lemma OthersKeepNoOrphans(p: Plane, m: Move)
    requires Allowed(p, m) && !m.Net? && NoOrphans(p)
    ensures NoOrphans(Moved(p, m))
  {
    var q := Moved(p, m);
    forall key | key in q.ctl.tracker ensures NodeOf(key) in q.net.registry || Disconnected(NodeOf(key)) in q.net.queue {
      if m.Deploys? && key == KeyOf(p.db, m.id, m.node) {
        assert NodeOf(key) == m.node;
      } else {
        assert key in p.ctl.tracker;
      }
    }
  }

  lemma CtlKeepsUnreserved(p: Plane, m: Move)
    requires Allowed(p, m) && T.Unreserved(p.ctl)
    ensures T.Unreserved(CtlAfter(p, m))
  {
    if m.Deploys? {
      T.StepKeepsUnreserved(p.ctl, T.Deploying(KeyOf(p.db, m.id, m.node), m.ports, m.plan, m.started));
    }
  }

  lemma UpdateKeepsNamed(db: C.Db, ids: map<Uuid, I64>, e: Event, newId: I64)
    requires C.Inv(db) && Named(db, ids) && newId !in db.nodes
    ensures var next := IdsAfter(ids, e, newId); C.Inv(UpdateRows(db, e, next)) && Named(UpdateRows(db, e, next), next)
  {
    var next := IdsAfter(ids, e, newId);
    var t := UpdateRows(db, e, next);
    if e.uuid in next {
      C.StepKeepsInv(db, if e.Connected? then C.NodeUp(next[e.uuid]) else C.NodeDown(next[e.uuid]));
    }
    forall n | n in t.nodes ensures exists u :: u in next && next[u] == n {
      if n in db.nodes {
        var u :| u in ids && ids[u] == n;
        assert u in next && next[u] == n;
      } else {
        assert e.uuid in next && next[e.uuid] == n;
      }
    }
  }

  lemma RowsKeepNamed(p: Plane, m: Move)
    requires Allowed(p, m) && C.Inv(p.db) && Named(p.db, p.ids)
    ensures var q := Moved(p, m); C.Inv(q.db) && Named(q.db, q.ids)
  {
    match m
    case Net(h, newId) =>
      if h.Reboot? {
        C.StepKeepsInv(p.db, C.Restart);
      } else if h == Sync(true) {
        UpdateKeepsNamed(p.db, p.ids, Head(p.net), newId);
      }
    case Deploys(id, u, ports, plan, container, started) =>
      C.StepKeepsInv(p.db, C.AutoDeploy(id, container, Succeeds(p.ctl, ports, plan, started)));
    case Edit(e) =>
      C.StepKeepsInv(p.db, e);
      EditKeepsNodes(p.db, e);
  }

  lemma EditKeepsNodes(db: C.Db, e: C.Event)
    requires IsEdit(e)
    ensures C.After(db, e).nodes == db.nodes
  {
  }

  lemma MoveKeepsSound(p: Plane, m: Move)
    requires Allowed(p, m) && Sound(p)
    ensures Sound(Moved(p, m))
  {
    if m.Net? {
      HandlerKeepsCalm(p.net, m.handler);
      HandlerKeepsReported(p.net, m.handler);
      NetKeepsNoOrphans(p, m.handler, m.newId);
      NetKeepsAgree(p, m.handler, m.newId);
    } else {
      OthersKeepNoOrphans(p, m);
      OthersKeepAgree(p, m);
    }
    CtlKeepsUnreserved(p, m);
    RowsKeepNamed(p, m);
  }

  /** Over every run of channels, lost updates, restarts, deployments under any names, and edits: the
      node of every tracked deployment is listed or its disconnection is still to be taken. */
  lemma RunIsSound(states: seq<Plane>, moves: seq<Move>, i: nat)
    requires IsRun(states, moves) && i < |states|
    ensures Sound(states[i])
  {
    forall p, m, q | m in moves && Sound(p) && Moves()(p, m, q) ensures Sound(q) {
      MoveKeepsSound(p, m);
    }
    PathKeeps(Moves(), p => Sound(p), states, moves, i);
  }

  // ---- The pool ----

  lemma MoveKeepsPartition(p: Plane, m: Move, bound: set<Port>)
    requires Allowed(p, m) && P.Partition(p.ctl.pool, bound)
    ensures P.Partition(CtlAfter(p, m).pool, bound)
  {
    match m
    case Net(h, _) =>
      if h.Sync? && Head(p.net).Disconnected? {
        LossKeepsPartition(p.ctl, Head(p.net).uuid.text, bound);
      }
    case Deploys(_, _, _, _, _, _) =>
    case Edit(e) =>
      if CtlAfter(p, m) != p.ctl {
        var id := StopsRow(p.db, e).value;
        StopKeepsPartition(p.ctl, KeyOf(p.db, id, UuidOf(p.ids, p.db.conns[id].node).value), bound);
      }
  }

  lemma LossKeepsPartition(c: D.Ctl, node: string, bound: set<Port>)
    requires P.Partition(c.pool, bound)
    ensures P.Partition(D.Disconnected(c, node).pool, bound)
  {
    var ports := D.PortsOf(c, node);
    P.ReturnKeepsPartition(c.pool, ports * c.pool.held.Keys, bound);
    assert c.pool.held - ports == c.pool.held - (ports * c.pool.held.Keys);
  }

  lemma StopKeepsPartition(c: D.Ctl, key: D.Key, bound: set<Port>)
    requires P.Partition(c.pool, bound)
    ensures P.Partition(D.Stopped(c, key).pool, bound)
  {
    if key in c.tracker {
      var ports := c.tracker[key];
      var gone := set p | p in ports && p in c.pool.held;
      P.ReturnKeepsPartition(c.pool, gone, bound);
      assert c.pool.held - (set p | p in ports) == c.pool.held - gone;
    }
  }

  /** Over every run, restarts included, the pool consists of the ports it started with, each either free
      or held. */
  lemma PoolKeepsItsPorts(states: seq<Plane>, moves: seq<Move>, i: nat)
    requires IsRun(states, moves) && i < |states|
    ensures P.Partition(states[i].ctl.pool, states[0].ctl.pool.free)
  {
    var bound := states[0].ctl.pool.free;
    forall p: Plane, m: Move, q: Plane | m in moves && P.Partition(p.ctl.pool, bound) && Moves()(p, m, q)
      ensures P.Partition(q.ctl.pool, bound)
    {
      assert Allowed(p, m) && q == Moved(p, m);
      MoveKeepsPartition(p, m, bound);
    }
    PathKeeps(Moves(), (p: Plane) => P.Partition(p.ctl.pool, bound), states, moves, i);
  }

  // ---- Routes lead to running channels ----

  /** The channel is in its loop and has resolved the uuid. */
  predicate Alive(s: State, c: ChannelId, u: Uuid) {
    c in s.channels && s.channels[c].phase.Idle? && s.channels[c].nodeUuid == Some(u)
  }

  /** A tracked deployment and a forward of the routed port, over a channel that runs for the node of
      the deployment unless the node's disconnection is queued. */
  ghost predicate Carried(p: Plane, port: Port, key: D.Key, f: D.Forward) {
    && key in p.ctl.tracker && port in p.ctl.tracker[key]
    && f in p.ctl.forwards && f.serverPort == port
    && (Alive(p.net, f.channel, NodeOf(key)) || Disconnected(NodeOf(key)) in p.net.queue)
  }

  ghost predicate IsCarried(p: Plane, port: Port) {
    exists key, f :: Carried(p, port, key, f)
  }

  ghost predicate AllCarried(p: Plane) {
    forall path :: path in p.ctl.routes ==> IsCarried(p, p.ctl.routes[path])
  }

  lemma ChannelsKeepAlive(s: State, h: Handler, c: ChannelId, u: Uuid)
    requires Ready(s, h) && Inv(s) && Reported(s) && !h.Sync? && !h.Reboot?
    requires Alive(s, c, u) || Disconnected(u) in s.queue
    ensures Alive(Handle(s, h), c, u) || Disconnected(u) in Handle(s, h).queue
  {
    if h.Close? && h.id == c && Alive(s, c, u) {
      CloseForm(s, c, u);
    }
  }

  /** A drain keeps what carries a port that no deployment of the disconnected node has. */
  lemma DrainKeepsCarried(p: Plane, stored: bool, newId: I64, port: Port, key: D.Key, f: D.Forward)
    requires Allowed(p, Net(Sync(stored), newId)) && Carried(p, port, key, f)
    requires Head(p.net).Disconnected? ==> port !in D.PortsOf(p.ctl, Head(p.net).uuid.text)
    ensures Carried(Moved(p, Net(Sync(stored), newId)), port, key, f)
  {
    var q := Moved(p, Net(Sync(stored), newId));
    assert p.net.queue == [Head(p.net)] + q.net.queue;
    if Head(p.net).Disconnected? {
      assert key.1 != Head(p.net).uuid.text;
      assert Head(p.net) != Disconnected(NodeOf(key));
    }
  }

  lemma NetKeepsCarried(p: Plane, h: Handler, newId: I64)
    requires Allowed(p, Net(h, newId)) && Sound(p) && AllCarried(p)
    ensures AllCarried(Moved(p, Net(h, newId)))
  {
    var q := Moved(p, Net(h, newId));
    forall path | path in q.ctl.routes ensures IsCarried(q, q.ctl.routes[path]) {
      assert IsCarried(p, p.ctl.routes[path]);
      var key, f :| Carried(p, p.ctl.routes[path], key, f);
      if h.Sync? {
        DrainKeepsCarried(p, h.stored, newId, p.ctl.routes[path], key, f);
      } else {
        ChannelsKeepAlive(p.net, h, f.channel, NodeOf(key));
      }
      assert Carried(q, q.ctl.routes[path], key, f);
    }
  }

  /** The deployment reuses a tracked key only for the ports it already had. */
  ghost predicate Tidy(p: Plane, m: Move) {
    m.Deploys? && m.id in p.db.conns ==> T.KeyClear(p.ctl, KeyOf(p.db, m.id, m.node), m.plan)
  }

  lemma ListedIsAlive(s: State, u: Uuid)
    requires Calm(s) && u in s.registry
    ensures Alive(s, s.registry[u], u)
  {
  }

  /** The routes of a commit run over the channel its node is listed for. */
  lemma NewRouteCarried(p: Plane, m: Move, n: nat, path: string)
    requires m.Deploys? && Allowed(p, m) && Calm(p.net) && n <= |m.ports| && path in D.RoutedBy(m.ports, m.plan, n)
    ensures var ctl := D.CommittedTo(p.ctl, KeyOf(p.db, m.id, m.node), m.ports, m.plan, n);
      IsCarried(p.(ctl := ctl), ctl.routes[path])
  {
    var key := KeyOf(p.db, m.id, m.node);
    var q := p.(ctl := D.CommittedTo(p.ctl, key, m.ports, m.plan, n));
    var i := T.RoutedBySource(m.ports, m.plan, n, path);
    var f := D.ForwardsOf(m.ports, m.plan, n)[i];
    ListedIsAlive(p.net, m.node);
    assert D.ServerPorts(m.plan)[i] == q.ctl.routes[path];
    assert f in q.ctl.forwards;
    assert Carried(q, q.ctl.routes[path], key, f);
  }

  /** A commit that keeps the ports of its key leaves what carries older routes. */
  lemma OldRouteCarried(p: Plane, key: D.Key, ports: seq<D.BridgePort>, plan: D.Plan, n: nat, port: Port)
    requires IsCarried(p, port) && T.KeyClear(p.ctl, key, plan) && n <= |ports| && |plan.ports| == |ports|
    ensures IsCarried(p.(ctl := D.CommittedTo(p.ctl, key, ports, plan, n)), port)
  {
    var k, f :| Carried(p, port, k, f);
    assert Carried(p.(ctl := D.CommittedTo(p.ctl, key, ports, plan, n)), port, k, f);
  }

  /** Rows play no part in this. */
  lemma SameCarried(p: Plane, q: Plane)
    requires AllCarried(p) && q.net == p.net && q.ctl == p.ctl
    ensures AllCarried(q)
  {
    forall path | path in q.ctl.routes ensures IsCarried(q, q.ctl.routes[path]) {
      assert IsCarried(p, p.ctl.routes[path]);
      var k, f :| Carried(p, p.ctl.routes[path], k, f);
      assert Carried(q, q.ctl.routes[path], k, f);
    }
  }

  lemma CommitKeepsCarried(p: Plane, m: Move, n: nat)
    requires m.Deploys? && Allowed(p, m) && Calm(p.net) && AllCarried(p) && Tidy(p, m) && n <= |m.ports|
    ensures AllCarried(p.(ctl := D.CommittedTo(p.ctl, KeyOf(p.db, m.id, m.node), m.ports, m.plan, n)))
  {
    var key := KeyOf(p.db, m.id, m.node);
    var ctl := D.CommittedTo(p.ctl, key, m.ports, m.plan, n);
    forall path | path in ctl.routes ensures IsCarried(p.(ctl := ctl), ctl.routes[path]) {
      if path in D.RoutedBy(m.ports, m.plan, n) {
        NewRouteCarried(p, m, n, path);
      } else {
        OldRouteCarried(p, key, m.ports, m.plan, n, p.ctl.routes[path]);
      }
    }
  }

  lemma DeployKeepsCarried(p: Plane, m: Move)
    requires m.Deploys? && Allowed(p, m) && Sound(p) && AllCarried(p) && Tidy(p, m)
    ensures AllCarried(Moved(p, m))
  {
    if m.started && T.NoConflict(p.ctl.routes, m.ports) {
      CommitKeepsCarried(p, m, T.Reach(p.ctl.routes, m.ports, m.plan, 0));
    }
    SameCarried(p.(ctl := CtlAfter(p, m)), Moved(p, m));
  }

  lemma StopKeepsCarried(p: Plane, q: Plane, key: D.Key)
    requires AllCarried(p) && q.net == p.net && q.ctl == D.Stopped(p.ctl, key)
    ensures AllCarried(q)
  {
    forall path | path in q.ctl.routes ensures IsCarried(q, q.ctl.routes[path]) {
      assert IsCarried(p, p.ctl.routes[path]);
      var k, f :| Carried(p, p.ctl.routes[path], k, f);
      if key in p.ctl.tracker {
        T.UnforwardKeeps(p.ctl.forwards, p.ctl.tracker[key], f);
      }
      assert Carried(q, q.ctl.routes[path], k, f);
    }
  }

  lemma EditKeepsCarried(p: Plane, e: C.Event)
    requires Allowed(p, Edit(e)) && AllCarried(p)
    ensures AllCarried(Moved(p, Edit(e)))
  {
    var q := Moved(p, Edit(e));
    if q.ctl == p.ctl {
      SameCarried(p, q);
    } else {
      var id := StopsRow(p.db, e).value;
      StopKeepsCarried(p, q, KeyOf(p.db, id, UuidOf(p.ids, p.db.conns[id].node).value));
    }
  }

  lemma {:induction false} RunIsCarried(states: seq<Plane>, moves: seq<Move>, i: nat)
    requires IsRun(states, moves) && i < |states|
    requires forall j :: 0 <= j < i ==> Tidy(states[j], moves[j])
    ensures AllCarried(states[i])
  {
    if i > 0 {
      RunIsCarried(states, moves, i - 1);
      RunIsSound(states, moves, i - 1);
      var p, m := states[i - 1], moves[i - 1];
      assert Moves()(p, m, states[i]);
      assert Allowed(p, m) && states[i] == Moved(p, m);
      match m
      case Net(h, newId) =>
        NetKeepsCarried(p, h, newId);
      case Deploys(_, _, _, _, _, _) =>
        DeployKeepsCarried(p, m);
      case Edit(e) =>
        EditKeepsCarried(p, e);
    }
  }

  /** Over every run in which no deployment takes a tracked name for other ports: once the event loop
      has caught up, each routed port belongs to a tracked deployment and has a forward whose
      channel is still in its loop and has resolved the node of that deployment, which is listed. */
  lemma RoutesLeadToRunningChannels(states: seq<Plane>, moves: seq<Move>, i: nat, path: string)
    requires IsRun(states, moves) && i < |states| && states[i].net.queue == []
    requires forall j :: 0 <= j < i ==> Tidy(states[j], moves[j])
    requires path in states[i].ctl.routes
    ensures var p := states[i];
      exists key, f :: Carried(p, p.ctl.routes[path], key, f)
        && Alive(p.net, f.channel, NodeOf(key)) && NodeOf(key) in p.net.registry
  {
    RunIsCarried(states, moves, i);
    RunIsSound(states, moves, i);
    var p := states[i];
    assert IsCarried(p, p.ctl.routes[path]);
    var key, f :| Carried(p, p.ctl.routes[path], key, f);
    assert Alive(p.net, f.channel, NodeOf(key)) && NodeOf(key) in p.net.registry;
  }

  // ---- When a deployment is lost ----

  /** The move stops the deployment `key`. */
  ghost predicate StopsKey(p: Plane, m: Move, key: D.Key) {
    && m.Edit? && StopsRow(p.db, m.event).Some?
    && var id := StopsRow(p.db, m.event).value;
       var u := UuidOf(p.ids, p.db.conns[id].node);
       u.Some? && KeyOf(p.db, id, u.value) == key
  }

  /** A tracked deployment is lost exactly to an edit that stops its name on its node, to a restart,
      or when a disconnection of its node is taken. */
  lemma DeploymentLostIff(p: Plane, m: Move, key: D.Key)
    requires Allowed(p, m) && key in p.ctl.tracker
    ensures key !in Moved(p, m).ctl.tracker <==>
      StopsKey(p, m, key) || (m.Net? && m.handler.Reboot?)
      || (m.Net? && m.handler.Sync? && Head(p.net) == Disconnected(NodeOf(key)))
  {
  }

  /** Every deployment on a node that some channel serves survives the move. */
  ghost predicate SparesServed(p: Plane, q: Plane) {
    forall key :: key in p.ctl.tracker && NodeOf(key) in q.net.index ==> key in q.ctl.tracker
  }

  /** Taking a disconnection spares the deployments of served nodes exactly when its node is not
      served or has no deployment. */
  lemma DrainSparesServedIff(p: Plane, stored: bool, newId: I64)
    requires Allowed(p, Net(Sync(stored), newId)) && Head(p.net).Disconnected?
    ensures SparesServed(p, Moved(p, Net(Sync(stored), newId))) <==>
      var u := Head(p.net).uuid; u in p.net.index ==> forall key :: key in p.ctl.tracker ==> NodeOf(key) != u
  {
    var q := Moved(p, Net(Sync(stored), newId));
    forall key | key in p.ctl.tracker ensures key in q.ctl.tracker <==> NodeOf(key) != Head(p.net).uuid {
      DeploymentLostIff(p, Net(Sync(stored), newId), key);
    }
    assert q.net.index == p.net.index;
  }

  /** The move is not one that takes a deployment `key` away. */
  ghost predicate Leaves(p: Plane, m: Move, key: D.Key) {
    && !StopsKey(p, m, key) && !(m.Net? && m.handler.Reboot?)
    && !(m.Net? && m.handler.Sync? && p.net.queue != [] && Head(p.net) == Disconnected(NodeOf(key)))
  }

  /** Over every run a deployment stays tracked as long as it is not stopped, the process is not
      restarted and no disconnection of its node is taken; nothing else, no exit, reconnect or
      deployment of anything, ends it. */
  lemma {:induction false} DeploymentsLast(states: seq<Plane>, moves: seq<Move>, i: nat, j: nat, key: D.Key)
    requires IsRun(states, moves) && i <= j < |states| && key in states[i].ctl.tracker
    requires forall k :: i <= k < j ==> Leaves(states[k], moves[k], key)
    ensures key in states[j].ctl.tracker
    decreases j
  {
    if i < j {
      DeploymentsLast(states, moves, i, j - 1, key);
      assert Moves()(states[j - 1], moves[j - 1], states[j]);
      assert Leaves(states[j - 1], moves[j - 1], key);
      DeploymentLostIff(states[j - 1], moves[j - 1], key);
    }
  }

  /** A stale exit is one cause: closing a channel queues the disconnection of a node that is served at
      that moment exactly when another channel serves its uuid. */
  lemma CloseQueuesServedIff(s: State, c: ChannelId, u: Uuid)
    requires Ready(s, Close(c)) && Reported(s) && s.channels[c].nodeUuid == Some(u)
    ensures var t := Handle(s, Close(c));
      Disconnected(u) in t.queue && (u in t.index <==> Lookup(s.index, u).Some? && Lookup(s.index, u) != Some(c))
  {
    CloseForm(s, c, u);
  }

  function Lifted(handlers: seq<Handler>, newId: I64): seq<Move> {
    seq(|handlers|, i requires 0 <= i < |handlers| => Net(handlers[i], newId))
  }

  /** Handlers of channels leave the deployments and the rows alone. */
  lemma ChannelsLift(p: Plane, handlers: seq<Handler>, t: State, newId: I64)
    requires Reaches(Atomic(), p.net, handlers, t) && newId !in p.db.nodes
    requires forall i :: 0 <= i < |handlers| ==> !handlers[i].Sync? && !handlers[i].Reboot?
    ensures Reaches(Moves(), p, Lifted(handlers, newId), p.(net := t))
  {
    var states :| Path(Atomic(), states, handlers) && states[0] == p.net && states[|handlers|] == t;
    var planes := seq(|states|, i requires 0 <= i < |states| => p.(net := states[i]));
    forall i | 0 <= i < |handlers| ensures Moves()(planes[i], Lifted(handlers, newId)[i], planes[i + 1]) {
      assert Atomic()(states[i], handlers[i], states[i + 1]);
      assert Ready(states[i], handlers[i]) && states[i + 1] == Handle(states[i], handlers[i]);
      assert planes[i + 1] == Moved(planes[i], Net(handlers[i], newId));
    }
    assert Path(Moves(), planes, Lifted(handlers, newId));
  }

  lemma UpdateKeepsNodes(db: C.Db, ids: map<Uuid, I64>, e: Event, newId: I64)
    requires Named(db, ids)
    ensures UpdateRows(db, e, IdsAfter(ids, e, newId)).nodes.Keys <= db.nodes.Keys + {newId}
  {
  }

  /** Two queued updates about `u`, a connection and a later disconnection, are taken. */
  lemma TwoUpdates(p: Plane, u: Uuid, d: Digest, a: I64, b: I64) returns (t: Plane)
    requires p.net.queue == [Connected(u, d)] + [Disconnected(u)] && Named(p.db, p.ids)
    requires a !in p.db.nodes && b !in p.db.nodes && a != b
    ensures Reaches(Moves(), p, [Net(Sync(true), a), Net(Sync(true), b)], t)
    ensures t.net.index == p.net.index && t.net.channels == p.net.channels && t.ctl == D.Disconnected(p.ctl, u.text)
  {
    var m := Moved(p, Net(Sync(true), a));
    EachDrain(p, a);
    assert m.net.queue == [Disconnected(u)];
    UpdateKeepsNodes(p.db, p.ids, Connected(u, d), a);
    EachDrain(m, b);
    t := Moved(m, Net(Sync(true), b));
    Two(Moves(), p, Net(Sync(true), a), m, Net(Sync(true), b), t);
  }

  /** A node that reconnects before its old channel closes: the old channel's disconnection is taken
      after the new connection, and every deployment of the node is torn down although the new
      channel runs and serves it. */
  lemma StaleExitTearsDown(p: Plane, stale: ChannelId, c: ChannelId, u: Uuid, unused: Uuid, a: I64, b: I64) returns (t: Plane)
    requires Sound(p) && Ready(p.net, Close(stale)) && p.net.channels[stale].nodeUuid == Some(u)
    requires p.net.queue == [] && c !in p.net.usedIds && unused !in p.net.bindings
    requires a !in p.db.nodes && b !in p.db.nodes && a != b
    ensures var d := p.net.channels[stale].digest;
      Reaches(Moves(), p, Lifted([Open(c, d), Report(c, Some(u), unused), Close(stale)], a)
        + [Net(Sync(true), a), Net(Sync(true), b)], t)
    ensures Lookup(t.net.index, u) == Some(c) && c in t.net.channels && t.net.channels[c].phase.Idle?
    ensures forall key :: key in t.ctl.tracker ==> NodeOf(key) != u
    ensures forall key, q :: key in p.ctl.tracker && NodeOf(key) == u && q in t.ctl.routes ==> t.ctl.routes[q] !in p.ctl.tracker[key]
  {
    var d := p.net.channels[stale].digest;
    var handlers := [Open(c, d), Report(c, Some(u), unused), Close(stale)];
    var m := StaleExitUnlists(p.net, stale, c, u, unused);
    ChannelsLift(p, handlers, m, a);
    assert m.queue == [Connected(u, d)] + [Disconnected(u)];
    t := TwoUpdates(p.(net := m), u, d, a, b);
    Then(Moves(), p, Lifted(handlers, a), p.(net := m), [Net(Sync(true), a), Net(Sync(true), b)], t);
    assert forall key :: NodeOf(key) == u <==> key.1 == u.text;
  }

  /** The other cause is a late drain.  A node's channel `x` closes, the node comes back on `c` and is
      deployed to, and only then is the disconnection taken: the new deployment is torn down, although
      nothing served the node when it was queued and `c` is listed and serves it now. */
  lemma LateDrainTearsDown(p: Plane, x: ChannelId, c: ChannelId, u: Uuid, unused: Uuid, deploy: Move, a: I64) returns (t: Plane)
    requires Sound(p) && p.net.queue == [] && Alive(p.net, x, u) && Lookup(p.net.index, u) == Some(x)
    requires c !in p.net.usedIds && unused !in p.net.bindings && a !in p.db.nodes
    requires deploy.Deploys? && deploy.started && deploy.node == u && deploy.plan.via == c && |deploy.plan.ports| == |deploy.ports|
    requires C.Accepts(p.db, deploy.id) && u in p.ids && p.db.conns[deploy.id].node == Some(p.ids[u])
    requires T.NoConflict(p.ctl.routes, deploy.ports)
    ensures var handlers := [Close(x), Open(c, p.net.channels[x].digest), Report(c, Some(u), unused)];
      Reaches(Moves(), p, Lifted(handlers, a) + [deploy, Net(Sync(true), a)], t)
    ensures u !in Handle(p.net, Close(x)).index
    ensures KeyOf(p.db, deploy.id, u) !in t.ctl.tracker
    ensures Lookup(t.net.index, u) == Some(c) && Lookup(t.net.registry, u) == Some(c) && Alive(t.net, c, u)
  {
    var handlers := [Close(x), Open(c, p.net.channels[x].digest), Report(c, Some(u), unused)];
    var m := LeavesAndReturns(p.net, x, c, u, unused);
    ChannelsLift(p, handlers, m, a);
    t := DeployedThenDrained(p.(net := m), deploy, u, a);
    Then(Moves(), p, Lifted(handlers, a), p.(net := m), [deploy, Net(Sync(true), a)], t);
  }

  lemma DeployedThenDrained(p: Plane, deploy: Move, u: Uuid, a: I64) returns (t: Plane)
    requires deploy.Deploys? && Allowed(p, deploy) && deploy.node == u && a !in p.db.nodes
    requires p.net.queue != [] && Head(p.net) == Disconnected(u)
    ensures Reaches(Moves(), p, [deploy, Net(Sync(true), a)], t)
    ensures KeyOf(p.db, deploy.id, u) !in t.ctl.tracker
    ensures t.net.index == p.net.index && t.net.registry == p.net.registry && t.net.channels == p.net.channels
  {
    var wired := Moved(p, deploy);
    EachDrain(wired, a);
    t := Moved(wired, Net(Sync(true), a));
    Two(Moves(), p, deploy, wired, Net(Sync(true), a), t);
  }

  /** What taking an update does to channels and deployments. */
  lemma EachDrain(p: Plane, a: I64)
    requires Allowed(p, Net(Sync(true), a))
    ensures var t := Moved(p, Net(Sync(true), a));
      && t.net.index == p.net.index && t.net.registry == p.net.registry && t.net.channels == p.net.channels
      && t.net.queue == p.net.queue[1..]
      && t.ctl == if Head(p.net).Disconnected? then D.Disconnected(p.ctl, Head(p.net).uuid.text) else p.ctl
  {
  }

  lemma LeavesAndReturns(s: State, x: ChannelId, c: ChannelId, u: Uuid, unused: Uuid) returns (t: State)
    requires Calm(s) && Reported(s) && s.queue == [] && Alive(s, x, u) && Lookup(s.index, u) == Some(x)
    requires c !in s.usedIds && unused !in s.bindings
    ensures Reaches(Atomic(), s, [Close(x), Open(c, s.channels[x].digest), Report(c, Some(u), unused)], t)
    ensures u !in Handle(s, Close(x)).index
    ensures t.queue == [Disconnected(u), Connected(u, s.channels[x].digest)]
    ensures Lookup(t.index, u) == Some(c) && Lookup(t.registry, u) == Some(c) && Alive(t, c, u)
  {
    var d := s.channels[x].digest;
    var s1 := Handle(s, Close(x));
    ServerLeaves(s, x, u);
    t := Returns(s1, c, d, u, unused);
    assert t.queue == [Disconnected(u), Connected(u, d)];
    OneStep(Atomic(), s, Close(x), s1);
    Then(Atomic(), s, [Close(x)], s1, [Open(c, d), Report(c, Some(u), unused)], t);
    assert [Close(x)] + [Open(c, d), Report(c, Some(u), unused)] == [Close(x), Open(c, d), Report(c, Some(u), unused)];
  }

  lemma ServerLeaves(s: State, x: ChannelId, u: Uuid)
    requires Inv(s) && Reported(s) && s.queue == [] && Alive(s, x, u) && Lookup(s.index, u) == Some(x)
    ensures var t := Handle(s, Close(x));
      && t.queue == [Disconnected(u)] && u !in t.index && t.usedIds == s.usedIds && t.bindings == s.bindings
      && u in s.bindings && s.bindings[u] == s.channels[x].digest
  {
    assert ChannelInv(s.channels[x], s.bindings);
    CloseForm(s, x, u);
  }

  lemma Returns(s: State, c: ChannelId, d: Digest, u: Uuid, unused: Uuid) returns (t: State)
    requires c !in s.usedIds && unused !in s.bindings && u in s.bindings && s.bindings[u] == d
    ensures Reaches(Atomic(), s, [Open(c, d), Report(c, Some(u), unused)], t)
    ensures t.queue == s.queue + [Connected(u, d)]
    ensures Lookup(t.index, u) == Some(c) && Lookup(t.registry, u) == Some(c) && Alive(t, c, u)
  {
    var m := Handle(s, Open(c, d));
    t := Handle(m, Report(c, Some(u), unused));
    Two(Atomic(), s, Open(c, d), m, Report(c, Some(u), unused), t);
  }

  // ---- Deployed rows and tracked deployments ----

  /** The row is deployed on the node with uuid `u`. */
  predicate RunsOn(db: C.Db, ids: map<Uuid, I64>, id: I64, u: Uuid) {
    id in db.conns && db.conns[id].status.Deployed? && u in ids && db.conns[id].node == Some(ids[u])
  }

  /** Every deployed row has its deployment tracked. */
  ghost predicate Backed(p: Plane) {
    forall id, u :: RunsOn(p.db, p.ids, id, u) ==> KeyOf(p.db, id, u) in p.ctl.tracker
  }

  /** The deployed rows of a sound plane are those that run on some node. */
  lemma DeployedRuns(p: Plane, id: I64)
    requires Sound(p) && id in p.db.conns && p.db.conns[id].status.Deployed?
    ensures exists u :: RunsOn(p.db, p.ids, id, u)
  {
    assert C.KeysHold(p.db, p.db.conns[id]) && C.RowInv(p.db.conns[id]);
    var u :| u in p.ids && p.ids[u] == p.db.conns[id].node.value;
    assert RunsOn(p.db, p.ids, id, u);
  }

  ghost predicate NoneDeployed(db: C.Db) {
    forall id :: id in db.conns ==> db.conns[id].status.Pending?
  }

  /** No other deployed row has the name and the node of row `id`. */
  predicate AloneUnderItsName(db: C.Db, id: I64)
    requires id in db.conns
  {
    forall j :: j in db.conns && j != id && db.conns[j].status.Deployed? ==>
      !(db.conns[j].name == db.conns[id].name && db.conns[j].node == db.conns[id].node)
  }

  /** What a move must not do: restart over deployed rows, lose the disconnection of a node with
      deployed rows, or stop a row that shares its name and node with another deployed one. */
  ghost predicate KeepsRowsBacked(p: Plane, m: Move)
    requires Allowed(p, m)
  {
    match m
    case Net(h, _) =>
      && (h.Reboot? ==> NoneDeployed(p.db))
      && (h == Sync(false) && Head(p.net).Disconnected? ==> forall id :: !RunsOn(p.db, p.ids, id, Head(p.net).uuid))
    case Deploys(_, _, _, _, _, _) => true
    case Edit(e) => StopsRow(p.db, e).Some? ==> AloneUnderItsName(p.db, StopsRow(p.db, e).value)
  }

  lemma RebootBackedIff(p: Plane, loaded: bool, newId: I64)
    requires Sound(p) && Allowed(p, Net(Reboot(loaded), newId))
    ensures Backed(Moved(p, Net(Reboot(loaded), newId))) <==> NoneDeployed(p.db)
  {
    var q := Moved(p, Net(Reboot(loaded), newId));
    if id :| id in p.db.conns && p.db.conns[id].status.Deployed? {
      DeployedRuns(p, id);
      var u :| RunsOn(p.db, p.ids, id, u);
      assert RunsOn(q.db, q.ids, id, u);
    }
  }

  lemma LostUpdateBackedIff(p: Plane, newId: I64)
    requires Backed(p) && Allowed(p, Net(Sync(false), newId))
    ensures Backed(Moved(p, Net(Sync(false), newId))) <==>
      (Head(p.net).Disconnected? ==> forall id :: !RunsOn(p.db, p.ids, id, Head(p.net).uuid))
  {
    var q := Moved(p, Net(Sync(false), newId));
    assert q.db == p.db && q.ids == p.ids;
    if Head(p.net).Disconnected? {
      var u := Head(p.net).uuid;
      if id :| RunsOn(p.db, p.ids, id, u) {
        assert KeyOf(q.db, id, u) !in q.ctl.tracker;
      }
      forall id, v | RunsOn(p.db, p.ids, id, v) && v != u ensures KeyOf(q.db, id, v) in q.ctl.tracker {
        assert KeyOf(p.db, id, v) in p.ctl.tracker;
      }
    }
  }

  lemma StoredUpdateKeepsBacked(p: Plane, newId: I64)
    requires Sound(p) && Backed(p) && Allowed(p, Net(Sync(true), newId))
    ensures Backed(Moved(p, Net(Sync(true), newId)))
  {
    var e, q := Head(p.net), Moved(p, Net(Sync(true), newId));
    forall id, u | RunsOn(q.db, q.ids, id, u) ensures KeyOf(q.db, id, u) in q.ctl.tracker {
      StoredUpdateRows(p.db, p.ids, e, newId, id, u);
      assert KeyOf(p.db, id, u) in p.ctl.tracker;
    }
  }

  /** What a stored update leaves deployed was deployed before, on a node that is not gone. */
  lemma StoredUpdateRows(db: C.Db, ids: map<Uuid, I64>, e: Event, newId: I64, id: I64, u: Uuid)
    requires C.Inv(db) && Named(db, ids) && newId !in db.nodes
    requires var next := IdsAfter(ids, e, newId); RunsOn(UpdateRows(db, e, next), next, id, u)
    ensures RunsOn(db, ids, id, u) && UpdateRows(db, e, IdsAfter(ids, e, newId)).conns[id] == db.conns[id]
    ensures e.Disconnected? ==> u != e.uuid
  {
    assert C.KeysHold(db, db.conns[id]);
  }

  lemma DeployKeepsBacked(p: Plane, m: Move)
    requires m.Deploys? && Sound(p) && Backed(p) && Allowed(p, m)
    ensures Backed(Moved(p, m))
  {
    var q := Moved(p, m);
    if Succeeds(p.ctl, m.ports, m.plan, m.started) {
      assert q.ctl.tracker == p.ctl.tracker[KeyOf(p.db, m.id, m.node) := D.ServerPorts(m.plan)];
    }
    forall id, u | RunsOn(q.db, q.ids, id, u) ensures KeyOf(q.db, id, u) in q.ctl.tracker {
      if RunsOn(p.db, p.ids, id, u) {
        assert KeyOf(p.db, id, u) in p.ctl.tracker;
      } else {
        assert id == m.id && u == m.node;
      }
    }
  }

  /** What an edit leaves deployed was deployed before, with the same name and node. */
  lemma EditRows(db: C.Db, ids: map<Uuid, I64>, e: C.Event, id: I64, u: Uuid)
    requires IsEdit(e)
    ensures RunsOn(C.After(db, e), ids, id, u) <==> RunsOn(db, ids, id, u) && StopsRow(db, e) != Some(id)
    ensures RunsOn(C.After(db, e), ids, id, u) ==> C.After(db, e).conns[id].name == db.conns[id].name
  {
  }

  lemma EditBackedIff(p: Plane, e: C.Event)
    requires Sound(p) && Backed(p) && Allowed(p, Edit(e))
    ensures Backed(Moved(p, Edit(e))) <==>
      (StopsRow(p.db, e).Some? ==> AloneUnderItsName(p.db, StopsRow(p.db, e).value))
  {
    var q := Moved(p, Edit(e));
    forall id: I64, u: Uuid ensures RunsOn(q.db, q.ids, id, u) <==> RunsOn(p.db, p.ids, id, u) && StopsRow(p.db, e) != Some(id) {
      EditRows(p.db, p.ids, e, id, u);
    }
    forall id, u | RunsOn(q.db, q.ids, id, u) ensures KeyOf(q.db, id, u) == KeyOf(p.db, id, u) {
      EditRows(p.db, p.ids, e, id, u);
    }
    if StopsRow(p.db, e).Some? {
      StopBackedIff(p, q, StopsRow(p.db, e).value);
    }
  }

  lemma StopBackedIff(p: Plane, q: Plane, s: I64)
    requires Sound(p) && Backed(p) && s in p.db.conns && p.db.conns[s].status.Deployed?
    requires var u := UuidOf(p.ids, p.db.conns[s].node);
      q.ctl == if u.Some? then D.Stopped(p.ctl, KeyOf(p.db, s, u.value)) else p.ctl
    requires forall id, u :: RunsOn(q.db, q.ids, id, u) <==> RunsOn(p.db, p.ids, id, u) && id != s
    requires forall id, u :: RunsOn(q.db, q.ids, id, u) ==> KeyOf(q.db, id, u) == KeyOf(p.db, id, u)
    ensures Backed(q) <==> AloneUnderItsName(p.db, s)
  {
    DeployedRuns(p, s);
    var w :| RunsOn(p.db, p.ids, s, w);
    assert UuidOf(p.ids, p.db.conns[s].node) == Some(w);
    var key := KeyOf(p.db, s, w);
    assert key in p.ctl.tracker && q.ctl.tracker == p.ctl.tracker - {key};
    if j :| j in p.db.conns && j != s && p.db.conns[j].status.Deployed?
            && p.db.conns[j].name == p.db.conns[s].name && p.db.conns[j].node == p.db.conns[s].node {
      assert RunsOn(p.db, p.ids, j, w);
      assert RunsOn(q.db, q.ids, j, w) && KeyOf(q.db, j, w) == key;
    } else {
      forall id, u | RunsOn(q.db, q.ids, id, u) ensures KeyOf(q.db, id, u) in q.ctl.tracker {
        assert KeyOf(p.db, id, u) in p.ctl.tracker && KeyOf(p.db, id, u) != key;
      }
    }
  }

  /** Every deployed row stays backed by a tracked deployment exactly through the moves that
      `KeepsRowsBacked` allows. */
  lemma MoveKeepsBackedIff(p: Plane, m: Move)
    requires Sound(p) && Backed(p) && Allowed(p, m)
    ensures Backed(Moved(p, m)) <==> KeepsRowsBacked(p, m)
  {
    match m
    case Net(h, newId) =>
      if h.Reboot? {
        RebootBackedIff(p, h.loaded, newId);
      } else if h == Sync(false) {
        LostUpdateBackedIff(p, newId);
      } else if h.Sync? {
        StoredUpdateKeepsBacked(p, newId);
      }
    case Deploys(_, _, _, _, _, _) =>
      DeployKeepsBacked(p, m);
    case Edit(e) =>
      EditBackedIff(p, e);
  }

  /** Over every run of such moves each deployed row has a tracked deployment of its name on a node
      that is listed or whose disconnection is still to be taken. */
  lemma {:induction false} DeployedRowsStayBacked(states: seq<Plane>, moves: seq<Move>, i: nat)
    requires IsRun(states, moves) && i < |states|
    requires forall j :: 0 <= j < i && Allowed(states[j], moves[j]) ==> KeepsRowsBacked(states[j], moves[j])
    ensures Backed(states[i])
    ensures forall id, u :: RunsOn(states[i].db, states[i].ids, id, u) ==>
      u in states[i].net.registry || Disconnected(u) in states[i].net.queue
  {
    if i > 0 {
      DeployedRowsStayBacked(states, moves, i - 1);
      RunIsSound(states, moves, i - 1);
      assert Moves()(states[i - 1], moves[i - 1], states[i]);
      MoveKeepsBackedIff(states[i - 1], moves[i - 1]);
    }
    RunIsSound(states, moves, i);
    var p := states[i];
    forall id, u | RunsOn(p.db, p.ids, id, u) ensures u in p.net.registry || Disconnected(u) in p.net.queue {
      assert KeyOf(p.db, id, u) in p.ctl.tracker && NodeOf(KeyOf(p.db, id, u)) == u;
    }
  }

  // ---- What deployments and edits do to rows and deployments ----

  /** A deployment marks its row deployed, with the container's name, exactly when the container started,
      no path was taken, and the paths of the bridge are distinct and not reserved; else the rows
      stay as they are. */
  lemma DeployMarksRowIff(p: Plane, m: Move)
    requires m.Deploys? && Allowed(p, m) && Sound(p)
    ensures var row := p.db.conns[m.id];
      Moved(p, m).db.conns == p.db.conns[m.id :=
        if m.started && T.NoConflict(p.ctl.routes, m.ports) && T.DistinctPaths(m.ports) && T.NoneReserved(m.ports)
        then row.(status := C.Deployed, container := Some(m.container)) else row]
  {
    if T.NoConflict(p.ctl.routes, m.ports) {
      T.CommitSucceedsIff(p.ctl.routes, m.ports, m.plan);
    }
  }

  /** A deployment whose container does not start, or one of whose paths is taken, changes nothing. */
  lemma RefusedDeployChangesNothing(p: Plane, m: Move)
    requires m.Deploys? && Allowed(p, m) && (!m.started || !T.NoConflict(p.ctl.routes, m.ports))
    ensures Moved(p, m) == p
  {
  }

  /** Deleting a deployed row, or patching its node, takes the deployment of its name on its node away,
      with every route to its ports. */
  lemma EditStopsDeployment(p: Plane, e: C.Event, u: Uuid)
    requires Sound(p) && (e.Delete? || (e.Patch? && e.slots.node.Some?)) && RunsOn(p.db, p.ids, e.id, u)
    ensures var key, t := KeyOf(p.db, e.id, u), Moved(p, Edit(e)).ctl;
      && key !in t.tracker
      && (key in p.ctl.tracker ==> forall q :: q in t.routes ==> t.routes[q] !in p.ctl.tracker[key])
  {
    assert UuidOf(p.ids, p.db.conns[e.id].node) == Some(u);
  }

  /** No other edit touches the deployments. */
  lemma OtherEditsStopNothing(p: Plane, e: C.Event)
    requires Allowed(p, Edit(e)) && !e.Delete? && !(e.Patch? && e.slots.node.Some?)
    ensures Moved(p, Edit(e)).ctl == p.ctl
  {
  }

  // ---- A commit cut short ----

  /** The deployment passes the conflict check, routes something and is then refused a path. */
  ghost predicate CutShort(ctl: D.Ctl, ports: seq<D.BridgePort>, plan: D.Plan)
    requires |plan.ports| == |ports|
  {
    && T.NoConflict(ctl.routes, ports) && !T.AllRoutable(ctl.routes, ports, plan)
    && D.RoutedBy(ports, plan, T.Reach(ctl.routes, ports, plan, 0)) != map[]
  }

  /** After that its own routes stand in the way of the next try. */
  lemma CutShortConflicts(ctl: D.Ctl, key: D.Key, ports: seq<D.BridgePort>, plan: D.Plan)
    requires |plan.ports| == |ports| && CutShort(ctl, ports, plan)
    ensures var t := T.After(ctl, T.Deploying(key, ports, plan, true));
      key in t.tracker && t.routes != ctl.routes && !T.NoConflict(t.routes, ports)
  {
    var n := T.Reach(ctl.routes, ports, plan, 0);
    var t := T.After(ctl, T.Deploying(key, ports, plan, true));
    assert D.RoutedBy(ports, plan, n).Keys != {};
    var path :| path in D.RoutedBy(ports, plan, n);
    T.RoutedByFresh(ctl.routes, ports, plan, n, path);
    var i := T.RoutedBySource(ports, plan, n, path);
    assert path in t.routes && ports[i].routePath == Some(path);
    Routes.ExactMatch(t.routes, path);
  }

  /** A deployment that is cut short: its row stays pending although its entry is tracked and its first
      routes are set, and every further try for the same bridge changes nothing. */
  lemma CutShortSticks(p: Plane, m: Move, again: Move)
    requires m.Deploys? && Allowed(p, m) && m.started && CutShort(p.ctl, m.ports, m.plan)
    requires again.Deploys? && again.ports == m.ports
    ensures var q := Moved(p, m);
      && q.db == p.db && C.Accepts(q.db, m.id)
      && KeyOf(p.db, m.id, m.node) in q.ctl.tracker && q.ctl.routes != p.ctl.routes
      && (Allowed(q, again) ==> Moved(q, again) == q)
  {
    CutShortConflicts(p.ctl, KeyOf(p.db, m.id, m.node), m.ports, m.plan);
  }

  /** Editing a row that is not deployed stops nothing, so such an entry goes only with its node, a
      restart, or another row of the same name. */
  lemma PendingEditStopsNothing(p: Plane, e: C.Event)
    requires Allowed(p, Edit(e)) && (e.Patch? || e.Delete?)
    requires e.id in p.db.conns ==> p.db.conns[e.id].status.Pending?
    ensures Moved(p, Edit(e)).ctl == p.ctl
  {
  }

  // ---- The event loop ----

  class EventLoop {
    const server: IdentityServer.Server
    const deployments: DeployServer.Deployments
    const database: C.Database
    var ids: map<Uuid, I64>

    ghost function View(): (p: Plane)
      reads this, server, deployments, deployments.table, deployments.pool, database
    {
      Plane(server.View(), deployments.View(), database.View(), ids)
    }

    constructor (server: IdentityServer.Server, deployments: DeployServer.Deployments, database: C.Database)
      ensures this.server == server && this.deployments == deployments && this.database == database && ids == map[]
    {
      this.server, this.deployments, this.database, this.ids := server, deployments, database, map[];
    }

    /** Takes one update: the node's row and the connection rows if the database opens, and the
        deployments of a node that is gone in any case. */
    method OnUpdate(stored: bool, newId: I64)
      requires server.queue != [] && deployments.Valid() && newId !in database.nodes
      modifies this, server, database, deployments, deployments.table, deployments.pool
      ensures deployments.Valid() && View() == Moved(old(View()), Net(Sync(stored), newId))
    {
      var update := server.queue[0];
      server.OnUpdate(stored);
      if stored {
        if update.Connected? {
          if update.uuid !in ids {
            ids := ids[update.uuid := newId];
          }
          database.NodeSeen(ids[update.uuid]);
        } else if update.uuid in ids {
          database.NodeLost(ids[update.uuid]);
        }
      }
      if update.Disconnected? {
        deployments.RemoveByNode(update.uuid.text);
      }
    }
  }
}
