/**
 Connection rows: what the panel, the deployments and the node events write into them.
 */
module Connections {
  import opened Basics

  datatype Status = Pending | Deployed

  datatype Conn = Conn(
    name: string, bridge: Option<I64>, image: Option<I64>, node: Option<I64>, status: Status, container: Option<string>)

  /** The tables a connection row refers to; `nodes` says which nodes are online. */
  datatype Db = Db(conns: map<I64, Conn>, nodes: map<I64, bool>, bridges: set<I64>, images: set<I64>)

  /** Tri-state slots: leave alone, clear, or set. */
  datatype Slots = Slots(bridge: Option<Option<I64>>, image: Option<Option<I64>>, node: Option<Option<I64>>)

  // ---- Statements ----

  function Refers(slot: Option<I64>, ids: set<I64>): bool {
    slot.Some? ==> slot.value in ids
  }

  /** The foreign keys of a row hold. */
  predicate KeysHold(db: Db, c: Conn) {
    Refers(c.bridge, db.bridges) && Refers(c.image, db.images) && Refers(c.node, db.nodes.Keys)
  }

  function Pick<T>(slot: Option<T>, current: T): T {
    if slot.Some? then slot.value else current
  }

  function Filled(c: Conn, s: Slots): Conn {
    c.(bridge := Pick(s.bridge, c.bridge), image := Pick(s.image, c.image), node := Pick(s.node, c.node))
  }

  function UpdateSlots(db: Db, id: I64, s: Slots): Db {
    if id in db.conns && KeysHold(db, Filled(db.conns[id], s))
    then db.(conns := db.conns[id := Filled(db.conns[id], s)]) else db
  }

  function UpdateNode(db: Db, id: I64, node: Option<I64>, status: Status, container: Option<string>): Db {
    if id in db.conns && Refers(node, db.nodes.Keys)
    then db.(conns := db.conns[id := db.conns[id].(node := node, status := status, container := container)]) else db
  }

  /** Every deployed row of a node falls back to pending and keeps its node. */
  function AllPending(db: Db, node: I64): Db {
    db.(conns := map id | id in db.conns ::
      if db.conns[id].node == Some(node) && db.conns[id].status.Deployed?
      then db.conns[id].(status := Pending, container := None) else db.conns[id])
  }

  // ---- Handlers, each as one step ----

  datatype Event =
    | Create(id: I64, name: string, slots: Slots)
    | Patch(id: I64, slots: Slots)
    | Delete(id: I64)
    | AutoDeploy(id: I64, container: string, succeeds: bool)
    | NodeUp(node: I64)
    | NodeDown(node: I64)
    | NewBridge(bridge: I64)
    | DropBridge(bridge: I64)
    | NewImage(image: I64)
    | DropImage(image: I64)
    | Restart

  function Stop(db: Db, id: I64): Db {
    if id in db.conns && db.conns[id].status.Deployed? then UpdateNode(db, id, None, Pending, None) else db
  }

  /** The row is complete, pending, and its node is online, read through a left join. */
  predicate Accepts(db: Db, id: I64) {
    && id in db.conns
    && db.conns[id].bridge.Some? && db.conns[id].image.Some? && db.conns[id].node.Some?
    && db.conns[id].status.Pending?
    && (match db.conns[id].node
        case Some(n) => n in db.nodes && db.nodes[n]
        case None => false)
  }

  function After(db: Db, e: Event): Db {
    match e
    case Create(id, name, slots) =>
      if id in db.conns then db
      else
        var added := db.(conns := db.conns[id := Conn(name, None, None, None, Pending, None)]);
        if slots == Slots(None, None, None) then added else UpdateSlots(added, id, slots)
    case Patch(id, slots) =>
      UpdateSlots(if slots.node.Some? then Stop(db, id) else db, id, slots)
    case Delete(id) =>
      var stopped := Stop(db, id);
      stopped.(conns := stopped.conns - {id})
    case AutoDeploy(id, container, succeeds) =>
      if Accepts(db, id) && succeeds
      then UpdateNode(db, id, db.conns[id].node, Deployed, Some(container)) else db
    case NodeUp(n) => db.(nodes := db.nodes[n := true])
    case NodeDown(n) => if n in db.nodes then AllPending(db.(nodes := db.nodes[n := false]), n) else db
    case NewBridge(b) => db.(bridges := db.bridges + {b})
    case DropBridge(b) =>
      db.(bridges := db.bridges - {b}, conns := map id | id in db.conns ::
        if db.conns[id].bridge == Some(b) then db.conns[id].(bridge := None) else db.conns[id])
    case NewImage(i) => db.(images := db.images + {i})
    case DropImage(i) =>
      db.(images := db.images - {i}, conns := map id | id in db.conns ::
        if db.conns[id].image == Some(i) then db.conns[id].(image := None) else db.conns[id])
    case Restart => db.(nodes := map n | n in db.nodes :: false)
  }

  // ---- What every row keeps ----

  /** The container name is set exactly when the row is deployed, and a deployed row has a node. */
  predicate RowInv(c: Conn) {
    (c.container.Some? <==> c.status.Deployed?) && (c.status.Deployed? ==> c.node.Some?)
  }

  ghost predicate Inv(db: Db) {
    forall id :: id in db.conns ==> RowInv(db.conns[id]) && KeysHold(db, db.conns[id])
  }

  lemma StopKeepsInv(db: Db, id: I64)
    requires Inv(db)
    ensures Inv(Stop(db, id)) && (id in db.conns ==> Stop(db, id).conns[id].status.Pending?)
  {
  }

  lemma SlotsKeepInv(db: Db, id: I64, s: Slots)
    requires Inv(db) && (s.node.Some? && id in db.conns ==> db.conns[id].status.Pending?)
    ensures Inv(UpdateSlots(db, id, s))
  {
  }

  lemma StepKeepsInv(db: Db, e: Event)
    requires Inv(db)
    ensures Inv(After(db, e))
  {
    match e
    case Create(id, name, slots) =>
      if id !in db.conns {
        var added := db.(conns := db.conns[id := Conn(name, None, None, None, Pending, None)]);
        assert Inv(added);
        SlotsKeepInv(added, id, slots);
      }
    case Patch(id, slots) =>
      StopKeepsInv(db, id);
      SlotsKeepInv(if slots.node.Some? then Stop(db, id) else db, id, slots);
    case Delete(id) =>
      StopKeepsInv(db, id);
    case _ =>
  }

  function Run(db: Db, events: seq<Event>): Db
    decreases |events|
  {
    if events == [] then db else Run(After(db, events[0]), events[1..])
  }

  /** In every reachable row, restarts included, the container name is set exactly when the row is
      deployed, a deployed row has a node, and every slot refers to an existing row. */
  lemma {:induction false} RowsStayConsistent(events: seq<Event>)
    ensures var db := Run(Db(map[], map[], {}, {}), events);
      Inv(db) && forall id :: id in db.conns ==>
        && (db.conns[id].container != None <==> db.conns[id].status == Deployed)
        && (db.conns[id].status == Deployed ==> db.conns[id].node != None)
        && (db.conns[id].bridge.Some? ==> db.conns[id].bridge.value in db.bridges)
        && (db.conns[id].image.Some? ==> db.conns[id].image.value in db.images)
        && (db.conns[id].node.Some? ==> db.conns[id].node.value in db.nodes)
  {
    RunKeepsInv(Db(map[], map[], {}, {}), events);
  }

  lemma {:induction false} RunKeepsInv(db: Db, events: seq<Event>)
    requires Inv(db)
    ensures Inv(Run(db, events))
    decreases |events|
  {
    if events != [] {
      StepKeepsInv(db, events[0]);
      RunKeepsInv(After(db, events[0]), events[1..]);
    }
  }

  /** The connectable query: an inner join of connections and nodes. */
  function Connectable(db: Db): set<I64> {
    set id, n | id in db.conns && n in db.nodes && db.conns[id].node == Some(n)
                && db.conns[id].bridge.Some? && db.conns[id].image.Some?
                && db.nodes[n] && db.conns[id].status.Pending? :: id
  }

  /** The query selects exactly the rows the auto-deploy guard accepts in the same state: those with
      all three slots filled, pending, and with a node that is online. */
  lemma QueryMatchesGuard(db: Db, id: I64)
    ensures id in Connectable(db) <==> Accepts(db, id)
    ensures id in Connectable(db) <==>
      && id in db.conns && db.conns[id].bridge != None && db.conns[id].image != None && db.conns[id].status == Pending
      && exists n :: n in db.nodes && db.nodes[n] && db.conns[id].node == Some(n)
  {
  }

  /** Once every deployable row has been deployed, nothing is left to connect: a successful
      auto-deploy removes its row from the query and no other. */
  lemma DeployingDrainsQuery(db: Db, id: I64, container: string)
    requires Inv(db) && id in Connectable(db)
    ensures Connectable(After(db, AutoDeploy(id, container, true))) == Connectable(db) - {id}
  {
    var t := After(db, AutoDeploy(id, container, true));
    forall j ensures j in Connectable(t) <==> j in Connectable(db) - {id} {
      QueryMatchesGuard(db, j);
      QueryMatchesGuard(t, j);
      QueryMatchesGuard(db, id);
    }
  }

  /** A lost node leaves none of its rows deployed and none connectable until it returns. */
  lemma LostNodeIsIdle(db: Db, n: I64, id: I64)
    requires n in db.nodes && id in db.conns && db.conns[id].node == Some(n)
    ensures var t := After(db, NodeDown(n));
      && id in t.conns && t.conns[id].node == Some(n) && t.conns[id].status.Pending? && id !in Connectable(t)
      && Connectable(After(t, NodeUp(n))) >= if db.conns[id].bridge.Some? && db.conns[id].image.Some? then {id} else {}
  {
  }

  // ---- What each event writes ----

  /** A created row is pending and empty but for slots that refer to existing rows. */
  lemma CreateWrites(db: Db, id: I64, name: string, slots: Slots)
    requires id !in db.conns
    ensures var t := After(db, Create(id, name, slots));
      var wanted := Conn(name, if slots.bridge.Some? then slots.bridge.value else None,
                         if slots.image.Some? then slots.image.value else None,
                         if slots.node.Some? then slots.node.value else None, Pending, None);
      t.conns == db.conns[id := if KeysHold(db, wanted) then wanted else Conn(name, None, None, None, Pending, None)]
  {
  }

  /** A patch of the node stops the row and then fills the given slots; if a reference is broken the
      row is stopped all the same. */
  lemma NodePatchWrites(db: Db, id: I64, slots: Slots)
    requires Inv(db) && id in db.conns && slots.node.Some?
    ensures var row, t := db.conns[id], After(db, Patch(id, slots));
      var stopped := if row.status.Deployed? then row.(node := None, status := Pending, container := None) else row;
      var wanted := stopped.(bridge := if slots.bridge.Some? then slots.bridge.value else row.bridge,
                             image := if slots.image.Some? then slots.image.value else row.image, node := slots.node.value);
      t.conns == db.conns[id := if KeysHold(db, wanted) then wanted else stopped]
  {
  }

  /** A deleted row is gone, and nothing else changes. */
  lemma DeleteRemoves(db: Db, id: I64)
    ensures After(db, Delete(id)) == db.(conns := db.conns - {id})
  {
    assert After(db, Delete(id)).conns == db.conns - {id};
  }

  /** A deployment writes the status and the container name of its own row only. */
  lemma DeployWrites(db: Db, id: I64, container: string)
    requires Inv(db) && id in Connectable(db)
    ensures After(db, AutoDeploy(id, container, true)) ==
      db.(conns := db.conns[id := db.conns[id].(status := Deployed, container := Some(container))])
    ensures After(db, AutoDeploy(id, container, false)) == db
  {
    QueryMatchesGuard(db, id);
    assert KeysHold(db, db.conns[id]);
  }

  /** A lost node changes its own deployed rows only, and a restart no row at all. */
  lemma LossSparesOthers(db: Db, n: I64, id: I64)
    requires id in db.conns
    ensures id in After(db, NodeDown(n)).conns
    ensures db.conns[id].node != Some(n) || db.conns[id].status.Pending? ==> After(db, NodeDown(n)).conns[id] == db.conns[id]
    ensures After(db, Restart).conns == db.conns
    ensures forall m :: m in db.nodes ==> m in After(db, Restart).nodes && !After(db, Restart).nodes[m]
    ensures forall m :: m in db.nodes && m != n ==> m in After(db, NodeDown(n)).nodes && After(db, NodeDown(n)).nodes[m] == db.nodes[m]
    ensures n in db.nodes ==> n in After(db, NodeDown(n)).nodes && !After(db, NodeDown(n)).nodes[n]
    ensures After(db, NodeUp(n)) == db.(nodes := db.nodes[n := true])
  {
  }

  // ---- Rows that stay deployed ----

  /** The event stops, deletes or demotes the row. */
  predicate Touches(db: Db, id: I64, e: Event) {
    match e
    case Patch(i, slots) => i == id && slots.node.Some?
    case Delete(i) => i == id
    case NodeDown(n) => id in db.conns && db.conns[id].node == Some(n)
    case _ => false
  }

  /** None of the events, each in its own state, touches the row. */
  ghost predicate LeftAlone(db: Db, id: I64, events: seq<Event>)
    decreases |events|
  {
    events != [] ==> !Touches(db, id, events[0]) && LeftAlone(After(db, events[0]), id, events[1..])
  }

  lemma DeployedStays(db: Db, id: I64, e: Event)
    requires id in db.conns && db.conns[id].status.Deployed? && !Touches(db, id, e)
    ensures var t := After(db, e);
      id in t.conns && t.conns[id].status.Deployed? && t.conns[id].container == db.conns[id].container
  {
  }

  /** A deployed row stays deployed, and is never picked for deployment, until its node is patched
      or lost or it is deleted: restarts, which lose the deployment itself, and nodes that come
      back do not change that. */
  lemma {:induction false} DeployedIsNeverRedeployed(db: Db, id: I64, events: seq<Event>)
    requires id in db.conns && db.conns[id].status.Deployed? && LeftAlone(db, id, events)
    ensures var t := Run(db, events);
      && id in t.conns && t.conns[id].status.Deployed? && t.conns[id].container == db.conns[id].container
      && !Accepts(t, id)
    decreases |events|
  {
    if events != [] {
      DeployedStays(db, id, events[0]);
      DeployedIsNeverRedeployed(After(db, events[0]), id, events[1..]);
    }
  }

  // ---- The table as an object ----

  class Database {
    var conns: map<I64, Conn>
    var nodes: map<I64, bool>
    var bridges: set<I64>
    var images: set<I64>

    ghost function View(): (db: Db)
      reads this
    {
      Db(conns, nodes, bridges, images)
    }

    constructor ()
      ensures View() == Db(map[], map[], {}, {})
    {
      conns, nodes, bridges, images := map[], map[], {}, {};
    }

    /** Reads the current slots, overrides the given ones and writes all three back. */
    method UpdateConnection(id: I64, bridge: Option<Option<I64>>, image: Option<Option<I64>>, node: Option<Option<I64>>)
      returns (ok: bool)
      modifies this`conns
      ensures View() == UpdateSlots(old(View()), id, Slots(bridge, image, node))
      ensures ok && id in old(conns) ==>
        var row := old(conns)[id];
        conns == old(conns)[id := Conn(row.name, if bridge.Some? then bridge.value else row.bridge,
          if image.Some? then image.value else row.image, if node.Some? then node.value else row.node,
          row.status, row.container)]
      ensures !ok || id !in old(conns) ==> conns == old(conns)
      ensures ok <==> (id in old(conns) ==>
        var row := old(conns)[id];
        var b, i, n := Pick(bridge, row.bridge), Pick(image, row.image), Pick(node, row.node);
        (b.Some? ==> b.value in bridges) && (i.Some? ==> i.value in images) && (n.Some? ==> n.value in nodes))
    {
      if id !in conns {
        return true;
      }
      var row := conns[id];
      var finalBridge := if bridge.Some? then bridge.value else row.bridge;
      var finalImage := if image.Some? then image.value else row.image;
      var finalNode := if node.Some? then node.value else row.node;
      if (finalBridge.Some? && finalBridge.value !in bridges) || (finalImage.Some? && finalImage.value !in images)
        || (finalNode.Some? && finalNode.value !in nodes) {
        return false;
      }
      conns := conns[id := row.(bridge := finalBridge, image := finalImage, node := finalNode)];
      ok := true;
    }

    method UpdateConnectionNode(id: I64, node: Option<I64>, status: Status, container: Option<string>)
      modifies this`conns
      ensures View() == UpdateNode(old(View()), id, node, status, container)
      ensures id in old(conns) && (node.None? || node.value in nodes) ==>
        conns == old(conns)[id := Conn(old(conns)[id].name, old(conns)[id].bridge, old(conns)[id].image, node, status, container)]
      ensures id !in old(conns) || (node.Some? && node.value !in nodes) ==> conns == old(conns)
    {
      if id in conns && (node.None? || node.value in nodes) {
        conns := conns[id := conns[id].(node := node, status := status, container := container)];
      }
    }

    /** A node event: the node is there and online. */
    method NodeSeen(node: I64)
      modifies this`nodes
      ensures View() == After(old(View()), NodeUp(node))
    {
      nodes := nodes[node := true];
    }

    /** A node event: offline, then each deployed row of the node back to pending. */
    method NodeLost(node: I64)
      modifies this
      ensures View() == After(old(View()), NodeDown(node))
    {
      if node !in nodes {
        return;
      }
      nodes := nodes[node := false];
      var ids := set id | id in conns && conns[id].node == Some(node) && conns[id].status.Deployed?;
      DemoteAll(ids, node);
      assert conns == AllPending(old(View()).(nodes := nodes), node).conns;
    }

    /** Writes the given rows back as pending, one statement each. */
    method DemoteAll(ids: set<I64>, node: I64)
      requires node in nodes && ids <= conns.Keys && forall id :: id in ids ==> conns[id].node == Some(node)
      modifies this`conns
      ensures conns == Demoted(old(conns), ids)
    {
      var rest := ids;
      ghost var done: set<I64> := {};
      assert Demoted(conns, {}) == conns;
      while rest != {}
        invariant done + rest == ids && conns == Demoted(old(conns), done)
        decreases rest
      {
        var id :| id in rest;
        rest := rest - {id};
        DemoteNext(old(conns), done, id);
        UpdateConnectionNode(id, Some(node), Pending, None);
        done := done + {id};
      }
      assert done == ids;
    }
  }

  /** The rows of `ids` have fallen back to pending. */
  function Demoted(conns: map<I64, Conn>, ids: set<I64>): map<I64, Conn> {
    map id | id in conns :: if id in ids then conns[id].(status := Pending, container := None) else conns[id]
  }

  lemma DemoteNext(conns: map<I64, Conn>, ids: set<I64>, id: I64)
    requires id in conns
    ensures id in Demoted(conns, ids) && Demoted(conns, ids)[id].node == conns[id].node
    ensures Demoted(conns, ids + {id}) ==
      Demoted(conns, ids)[id := Demoted(conns, ids)[id].(status := Pending, container := None)]
  {
  }
}
