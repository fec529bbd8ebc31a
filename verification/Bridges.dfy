/**
 Bridge ports and the pool ports reserved for them, as the panel's handlers change them.
 */
module Bridges {
  import opened Basics
  import opened Routes
  import opened Deploy
  import P = PortPool
  import T = DeployTheorems
  import opened Chains

  /** One row of the bridge-port table, keyed by bridge and container port. */
  datatype PortRow = PortRow(mode: string, routePath: Option<string>, protocols: Option<string>, poolPort: Port)

  type RowKey = (I64, I64)

  datatype Store = Store(bridges: set<I64>, rows: map<RowKey, PortRow>, pool: P.Pool)

  datatype Request = Request(
    bridge: I64, containerPort: I64, mode: string, routePath: Option<string>, protocols: Option<string>)

  datatype Reply = Added(poolPort: Port) | BadRequest | NoFreePort | DatabaseError

  /** The checks made before anything is reserved. */
  predicate Acceptable(r: Request) {
    && r.containerPort != 0
    && (r.mode == "route" ==> r.routePath.Some?)
    && (r.routePath.Some? ==> r.routePath.value != "" && r.routePath.value[0] == '/' && !IsAdminPath(r.routePath.value))
  }

  /** A path that does not start with a slash or is the panel's. */
  predicate BadPath(path: string) {
    !("/" <= path) || path == "/admin" || "/admin/" <= path
  }

  /** The table takes a row whose bridge exists and whose container port is new to it. */
  predicate Insertable(s: Store, r: Request) {
    r.bridge in s.bridges && (r.bridge, r.containerPort) !in s.rows
  }

  /** `p` is the smallest free port. */
  ghost predicate NextFree(pool: P.Pool, p: Port) {
    p in pool.free && forall q :: q in pool.free ==> p <= q
  }

  /** A new row takes the smallest free port; anything else leaves the store as it was. */
  ghost predicate IsAdd(s: Store, r: Request, t: Store) {
    if Acceptable(r) && Insertable(s, r) && s.pool.free != {} then
      exists p :: NextFree(s.pool, p) && t == WithRow(s, r, p)
    else t == s
  }

  function WithRow(s: Store, r: Request, p: Port): Store {
    s.(rows := s.rows[(r.bridge, r.containerPort) := PortRow(r.mode, r.routePath, r.protocols, p)],
       pool := P.Pool(s.pool.free - {p}, s.pool.held[p := ([], 0)]))
  }

  function RemovePort(s: Store, key: RowKey): Store {
    if key !in s.rows then s
    else s.(rows := s.rows - {key}, pool := P.ReleasePort(s.pool, s.rows[key].poolPort))
  }

  function BridgeKeys(s: Store, bridge: I64): set<RowKey> {
    set k | k in s.rows && k.0 == bridge
  }

  function BridgePoolPorts(s: Store, bridge: I64): set<Port> {
    set k | k in s.rows && k.0 == bridge :: s.rows[k].poolPort
  }

  /** Deleting a bridge cascades to its rows. */
  function RemoveBridge(s: Store, bridge: I64): Store {
    var ports := BridgePoolPorts(s, bridge);
    Store(s.bridges - {bridge}, s.rows - BridgeKeys(s, bridge),
          P.Pool(s.pool.free + (ports * s.pool.held.Keys), s.pool.held - ports))
  }

  /** A new process binds every port of the pool and assigns none; the rows stay. */
  function Restarted(s: Store): Store {
    s.(pool := P.Pool(s.pool.free + s.pool.held.Keys, map[]))
  }

  datatype Step =
    | NewBridge(id: I64)
    | AddPort(request: Request)
    | DeletePort(key: RowKey)
    | DeleteBridge(id: I64)
    | Release(port: Port)  // a stopped or lost deployment gives a port back
    | Restart

  ghost predicate Next(s: Store, step: Step, t: Store) {
    match step
    case NewBridge(id) => id !in s.bridges && t == s.(bridges := s.bridges + {id})
    case AddPort(r) => IsAdd(s, r, t)
    case DeletePort(key) => t == RemovePort(s, key)
    case DeleteBridge(id) => t == RemoveBridge(s, id)
    case Release(p) => t == s.(pool := P.ReleasePort(s.pool, p))
    case Restart => t == Restarted(s)
  }

  // ---- Rows and reserved ports correspond one to one ----

  ghost predicate Stores(s: Store, p: Port) {
    exists k :: k in s.rows && s.rows[k].poolPort == p
  }

  /** No two rows store the same pool port. */
  ghost predicate DistinctStored(s: Store) {
    forall k, l :: k in s.rows && l in s.rows && s.rows[k].poolPort == s.rows[l].poolPort ==> k == l
  }

  ghost predicate Bijection(s: Store) {
    && DistinctStored(s)
    && (forall p :: Stores(s, p) <==> p in s.pool.held)
    && s.pool.free !! s.pool.held.Keys
    && (forall k :: k in s.rows ==> k.0 in s.bridges)
  }

  lemma AddKeepsBijection(s: Store, r: Request, p: Port)
    requires Bijection(s) && Insertable(s, r) && p in s.pool.free
    ensures Bijection(WithRow(s, r, p))
  {
    var t := WithRow(s, r, p);
    var key := (r.bridge, r.containerPort);
    assert forall k :: k in s.rows ==> k in t.rows && t.rows[k] == s.rows[k];
    assert t.rows[key].poolPort == p;
    forall q | Stores(s, q) ensures q != p && Stores(t, q) {
      var k :| k in s.rows && s.rows[k].poolPort == q;
      assert k in t.rows;
    }
    forall k | k in s.rows ensures s.rows[k].poolPort != p {
      assert Stores(s, s.rows[k].poolPort);
    }
  }

  lemma RemoveKeepsBijection(s: Store, key: RowKey)
    requires Bijection(s) && key in s.rows
    ensures Bijection(RemovePort(s, key))
  {
    var t := RemovePort(s, key);
    var port := s.rows[key].poolPort;
    assert Stores(s, port);
    forall q ensures Stores(t, q) <==> q in t.pool.held {
      if Stores(s, q) && q != port {
        var k :| k in s.rows && s.rows[k].poolPort == q;
        assert k in t.rows;
      }
      if Stores(t, q) {
        var k :| k in t.rows && t.rows[k].poolPort == q;
        assert Stores(s, q) && k != key;
      }
    }
  }

  lemma RemoveBridgeKeepsBijection(s: Store, id: I64)
    requires Bijection(s)
    ensures Bijection(RemoveBridge(s, id))
  {
    var t := RemoveBridge(s, id);
    forall q ensures Stores(t, q) <==> q in t.pool.held {
      if q in t.pool.held {
        assert Stores(s, q);
        var k :| k in s.rows && s.rows[k].poolPort == q;
        assert k in t.rows;
      }
      if Stores(t, q) {
        var k :| k in t.rows && t.rows[k].poolPort == q;
        assert Stores(s, q);
        assert q !in BridgePoolPorts(s, id);
      }
    }
    assert t.pool.free !! t.pool.held.Keys;
  }

  /** Releasing one port of the pool, as a stopped or lost deployment does, keeps the bijection
      exactly when that port is stored in no row. */
  lemma ReleaseKeepsBijectionIff(s: Store, p: Port)
    requires Bijection(s)
    ensures Bijection(s.(pool := P.ReleasePort(s.pool, p))) <==> !Stores(s, p)
  {
    var t := s.(pool := P.ReleasePort(s.pool, p));
    assert forall q :: Stores(t, q) <==> Stores(s, q);
  }

  /** A restart keeps it exactly when there are no rows. */
  lemma RestartKeepsBijectionIff(s: Store)
    requires Bijection(s)
    ensures Bijection(Restarted(s)) <==> s.rows == map[]
  {
    var t := Restarted(s);
    assert forall q :: Stores(t, q) <==> Stores(s, q);
    if s.rows != map[] {
      assert s.rows.Keys != {};
      var k :| k in s.rows;
      assert Stores(t, s.rows[k].poolPort);
    }
  }

  /** The step does not free a port that a row stores. */
  ghost predicate Harmless(s: Store, step: Step) {
    match step
    case Release(p) => !Stores(s, p)
    case Restart => s.rows == map[]
    case _ => true
  }

  /** Adding and deleting ports and bridges, insertions that fail included, always keep the
      bijection; releases and restarts do exactly when they free no stored port. */
  lemma StepKeepsBijectionIff(s: Store, step: Step, t: Store)
    requires Bijection(s) && Next(s, step, t)
    ensures Bijection(t) <==> Harmless(s, step)
  {
    match step
    case NewBridge(id) =>
      assert forall q :: Stores(t, q) <==> Stores(s, q);
    case AddPort(r) =>
      if t != s {
        var p :| NextFree(s.pool, p) && t == WithRow(s, r, p);
        AddKeepsBijection(s, r, p);
      }
    case DeletePort(key) =>
      if key in s.rows {
        RemoveKeepsBijection(s, key);
      }
    case DeleteBridge(id) =>
      RemoveBridgeKeepsBijection(s, id);
    case Release(p) =>
      ReleaseKeepsBijectionIff(s, p);
    case Restart =>
      RestartKeepsBijectionIff(s);
  }

  ghost function Steps(): (Store, Step, Store) -> bool {
    (s, step, t) => Next(s, step, t)
  }

  /** From an empty table over a fresh pool, rows and reserved pool ports stay in bijection as long
      as no release or restart frees a stored port. */
  lemma {:induction false} RowsMatchPool(states: seq<Store>, steps: seq<Step>, i: nat)
    requires Path(Steps(), states, steps) && i < |states|
    requires states[0].rows == map[] && states[0].pool.held == map[]
    requires forall j :: 0 <= j < i ==> Harmless(states[j], steps[j])
    ensures Bijection(states[i])
  {
    if i > 0 {
      RowsMatchPool(states, steps, i - 1);
      assert Steps()(states[i - 1], steps[i - 1], states[i]);
      StepKeepsBijectionIff(states[i - 1], steps[i - 1], states[i]);
    } else {
      assert forall q :: !Stores(states[0], q);
    }
  }

  /** Through every run, releases and restarts included, the pool consists of the same ports, each free or
      held; and every stored row has passed the checks: a container port, a path in mode "route",
      and no path that is reserved or does not start with a slash. */
  lemma StoresStayWellFormed(states: seq<Store>, steps: seq<Step>, i: nat, bound: set<Port>)
    requires Path(Steps(), states, steps) && i < |states|
    requires states[0].rows == map[] && P.Partition(states[0].pool, bound)
    ensures P.Partition(states[i].pool, bound)
    ensures forall k :: k in states[i].rows ==>
      && k.1 != 0 && (states[i].rows[k].mode == "route" ==> states[i].rows[k].routePath != None)
      && (states[i].rows[k].routePath.Some? ==> !BadPath(states[i].rows[k].routePath.value))
  {
    forall s, step, t | step in steps && Checked(s, bound) && Steps()(s, step, t) ensures Checked(t, bound) {
      StepKeepsChecked(s, step, t, bound);
    }
    PathKeeps(Steps(), s => Checked(s, bound), states, steps, i);
  }

  ghost predicate Checked(s: Store, bound: set<Port>) {
    && P.Partition(s.pool, bound)
    && forall k :: k in s.rows ==>
         && k.1 != 0 && (s.rows[k].mode == "route" ==> s.rows[k].routePath != None)
         && (s.rows[k].routePath.Some? ==> !BadPath(s.rows[k].routePath.value))
  }

  lemma StepKeepsChecked(s: Store, step: Step, t: Store, bound: set<Port>)
    requires Checked(s, bound) && Next(s, step, t)
    ensures Checked(t, bound)
  {
    match step
    case NewBridge(_) =>
    case AddPort(r) =>
      if t != s {
        var p :| NextFree(s.pool, p) && t == WithRow(s, r, p);
        P.PartitionMoves(s.pool, t.pool, {p}, bound);
      }
    case DeletePort(key) =>
      if key in s.rows {
        P.ReleasePortKeepsPartition(s.pool, s.rows[key].poolPort, bound);
      }
    case DeleteBridge(id) =>
      var ports := BridgePoolPorts(s, id);
      P.ReturnKeepsPartition(s.pool, ports * s.pool.held.Keys, bound);
      assert s.pool.held - ports == s.pool.held - (ports * s.pool.held.Keys);
    case Release(p) =>
      P.ReleasePortKeepsPartition(s.pool, p, bound);
    case Restart =>
  }

  // ---- What deployments may rely on, and what stopping one breaks ----

  /** What a deployment reads: every row of the bridge, by increasing container port. */
  ghost predicate Reads(s: Store, bridge: I64, ports: seq<BridgePort>) {
    && (forall i, j :: 0 <= i < j < |ports| ==> ports[i].containerPort < ports[j].containerPort)
    && (forall i :: 0 <= i < |ports| ==> (bridge, ports[i].containerPort) in s.rows)
    && (forall i :: 0 <= i < |ports| ==>
          var row := s.rows[(bridge, ports[i].containerPort)];
          ports[i] == BridgePort(ports[i].containerPort, row.mode, row.routePath, row.protocols, Some(row.poolPort)))
    && (forall k :: k in s.rows && k.0 == bridge ==> exists i :: 0 <= i < |ports| && ports[i].containerPort == k.1)
  }

  /** The pool ports a deployment reads fit 16 bits; they are pairwise different when rows do not
      share pool ports, and then fewer than 2^16 unless port 0 is among them; and they are all
      reserved while rows and pool are in bijection. */
  lemma DeploymentPorts(s: Store, bridge: I64, ports: seq<BridgePort>)
    requires Reads(s, bridge, ports)
    ensures forall i :: 0 <= i < |ports| ==> AsU16(ports[i].poolPort.value) == ports[i].poolPort.value
    ensures DistinctStored(s) ==>
      forall i, j :: 0 <= i < j < |ports| ==> AsU16(ports[i].poolPort.value) != AsU16(ports[j].poolPort.value)
    ensures DistinctStored(s) && !Stores(s, 0) ==> |ports| < 0x10000
    ensures Bijection(s) ==> DistinctStored(s) && forall i :: 0 <= i < |ports| ==> AsU16(ports[i].poolPort.value) in s.pool.held
  {
    forall i | 0 <= i < |ports| ensures s.rows[(bridge, ports[i].containerPort)].poolPort == ports[i].poolPort.value {
    }
    forall i | 0 <= i < |ports| ensures Stores(s, AsU16(ports[i].poolPort.value)) {
      assert s.rows[(bridge, ports[i].containerPort)].poolPort == AsU16(ports[i].poolPort.value);
    }
    if DistinctStored(s) && !Stores(s, 0) {
      FewPorts(seq(|ports|, i requires 0 <= i < |ports| => s.rows[(bridge, ports[i].containerPort)].poolPort));
    }
  }

  /** The step gives a new row a port that another row still stores. */
  ghost predicate Reuses(s: Store, step: Step) {
    step.AddPort? && Acceptable(step.request) && Insertable(s, step.request)
    && exists p :: NextFree(s.pool, p) && Stores(s, p)
  }

  /** Through every kind of step, releases and restarts included, rows go on storing different ports
      exactly as long as no row is given a port that is free in the pool and stored all the same. */
  lemma StepKeepsDistinctIff(s: Store, step: Step, t: Store)
    requires DistinctStored(s) && Next(s, step, t)
    ensures DistinctStored(t) <==> !Reuses(s, step)
  {
    if step.AddPort? && t != s {
      var r := step.request;
      var p :| NextFree(s.pool, p) && t == WithRow(s, r, p);
      var key := (r.bridge, r.containerPort);
      assert key in t.rows && t.rows[key].poolPort == p;
      assert forall k :: k in s.rows ==> k in t.rows && t.rows[k] == s.rows[k];
    }
  }

  /** There are fewer than 2^16 different ports other than 0. */
  lemma FewPorts(ports: seq<Port>)
    requires 0 !in ports && forall i, j :: 0 <= i < j < |ports| ==> ports[i] != ports[j]
    ensures |ports| < 0x10000
  {
    P.SetOfSeq(ports);
    P.PortsBelow(P.ToSet(ports) + {0}, 0x10000);
  }

  /** A bridge whose rows do not share pool ports, deployed while none of those is forwarded: each
      of its ports is wired to its own local port, and nothing else listens where its visitors
      arrive. */
  lemma BridgeIsWired(s: Store, bridge: I64, ports: seq<BridgePort>, c: Ctl, name: Key,
                      start: int, end: int, plan: Plan, i: nat)
    requires Reads(s, bridge, ports) && DistinctStored(s) && (|ports| < 0x10000 || !Stores(s, 0))
    requires 0 <= start <= end <= 0xFFFF && i < |ports|
    requires Precheck(ports, start, end).None? && IsPlan(ports, start, plan)
    requires T.NoConflict(c.routes, ports) && T.AllRoutable(c.routes, ports, plan)
    requires forall f :: f in c.forwards ==> !Stores(s, f.serverPort)
    ensures var done := CommittedTo(c, name, ports, plan, |ports|);
      && |done.forwards| == |c.forwards| + |ports|
      && T.Wired(done.routes, ports[i], done.forwards[|c.forwards| + i], plan, i, start + i)
      && T.Sole(done.forwards, |c.forwards| + i)
  {
    DeploymentPorts(s, bridge, ports);
    T.EndToEnd(c, name, ports, start, end, plan, i);
    assert T.Unshared(c, ports, plan, i) by {
      assert Stores(s, plan.ports[i].1) by {
        assert s.rows[(bridge, ports[i].containerPort)].poolPort == plan.ports[i].1;
      }
    }
  }

  /** Once a deployment of the row `key` has been stopped, the next port added to a bridge can be
      given the very port the row still stores. */
  lemma StoppedPortIsGivenAway(s: Store, key: RowKey, r: Request, t: Store)
    requires Bijection(s) && key in s.rows && Acceptable(r) && Insertable(s, r)
    requires forall q :: q in s.pool.free ==> s.rows[key].poolPort <= q
    requires IsAdd(s.(pool := P.ReleasePort(s.pool, s.rows[key].poolPort)), r, t)
    ensures key in t.rows && (r.bridge, r.containerPort) in t.rows && key != (r.bridge, r.containerPort)
    ensures t.rows[(r.bridge, r.containerPort)].poolPort == t.rows[key].poolPort == s.rows[key].poolPort
  {
  }

  // ---- The handlers ----

  class BridgeApi {
    const pool: P.PortPool
    var bridges: set<I64>
    var rows: map<RowKey, PortRow>

    ghost predicate Valid()
      reads this, pool
    {
      pool.Valid()
    }

    ghost function View(): (s: Store)
      reads this, pool
    {
      Store(bridges, rows, pool.View())
    }

    constructor (pool: P.PortPool)
      requires pool.Valid()
      ensures Valid() && this.pool == pool && View() == Store({}, map[], pool.View())
    {
      this.pool, this.bridges, this.rows := pool, {}, map[];
    }

    /** The checks on a request. */
    static method IsBad(r: Request) returns (bad: bool)
      ensures bad <==> !Acceptable(r)
      ensures bad <==>
        || r.containerPort == 0 || (r.mode == "route" && r.routePath == None)
        || (r.routePath.Some? && BadPath(r.routePath.value))
    {
      if r.containerPort == 0 || (r.mode == "route" && r.routePath.None?) {
        return true;
      }
      if r.routePath.Some? {
        var path := r.routePath.value;
        if path == "" || path[0] != '/' {
          return true;
        }
        return IsAdminPath(path);
      }
      bad := false;
    }

    /** Adds a port to a bridge: check, reserve, insert, and undo the reservation if the table
        refuses the row. */
    method AddBridgePort(r: Request) returns (reply: Reply)
      requires Valid()
      modifies this, pool
      ensures Valid() && IsAdd(old(View()), r, View())
      ensures reply == BadRequest <==> !Acceptable(r)
      ensures reply == BadRequest <==>
        || r.containerPort == 0 || (r.mode == "route" && r.routePath == None)
        || (r.routePath.Some? && BadPath(r.routePath.value))
      ensures reply == NoFreePort <==> Acceptable(r) && old(pool.free) == {}
      ensures reply == DatabaseError <==> Acceptable(r) && old(pool.free) != {} && !Insertable(old(View()), r)
      ensures reply.Added? ==> NextFree(old(pool.View()), reply.poolPort)
      ensures reply.Added? ==>
        rows == old(rows)[(r.bridge, r.containerPort) := PortRow(r.mode, r.routePath, r.protocols, reply.poolPort)]
      ensures !reply.Added? ==> rows == old(rows) && pool.View() == old(pool.View())
    {
      var bad := IsBad(r);
      if bad {
        return BadRequest;
      }
      ghost var before := View();
      var reserved := pool.ReserveOne();
      if reserved.None? {
        return NoFreePort;
      }
      var port := reserved.value;
      P.ReserveThenRelease(before.pool, pool.listeners, port);
      var key := (r.bridge, r.containerPort);
      if r.bridge !in bridges || key in rows {
        pool.ReleaseByPort(port);
        return DatabaseError;
      }
      rows := rows[key := PortRow(r.mode, r.routePath, r.protocols, port)];
      assert NextFree(before.pool, port) && View() == WithRow(before, r, port);
      reply := Added(port);
    }

    method DeleteBridgePort(bridge: I64, containerPort: I64)
      requires Valid()
      modifies this, pool
      ensures Valid() && View() == RemovePort(old(View()), (bridge, containerPort))
      ensures rows == old(rows) - {(bridge, containerPort)}
      ensures (bridge, containerPort) in old(rows) ==> old(rows)[(bridge, containerPort)].poolPort !in pool.assignments
    {
      var key := (bridge, containerPort);
      if key in rows {
        pool.ReleaseByPort(rows[key].poolPort);
      }
      rows := rows - {key};
    }

    /** Gives every pool port of the bridge back, then deletes it with its rows. */
    method DeleteBridge(bridge: I64)
      requires Valid()
      modifies this, pool
      ensures Valid() && View() == RemoveBridge(old(View()), bridge)
      ensures bridges == old(bridges) - {bridge}
      ensures forall k :: k in rows <==> k in old(rows) && k.0 != bridge
      ensures forall k :: k in rows ==> rows[k] == old(rows)[k]
      ensures forall k :: k in old(rows) && k.0 == bridge ==> old(rows)[k].poolPort !in pool.assignments
    {
      ghost var before := View();
      var ports := set k | k in rows && k.0 == bridge :: rows[k].poolPort;
      ghost var done: set<Port> := {};
      assert P.Pool(before.pool.free + ({} * before.pool.held.Keys), before.pool.held - {}) == before.pool;
      while ports != {}
        invariant Valid() && bridges == before.bridges && rows == before.rows
        invariant done !! ports && done + ports == BridgePoolPorts(before, bridge)
        invariant pool.View() == P.Pool(before.pool.free + (done * before.pool.held.Keys), before.pool.held - done)
        decreases ports
      {
        var port :| port in ports;
        ports := ports - {port};
        pool.ReleaseByPort(port);
        ReleaseNext(before.pool, done, port);
        done := done + {port};
      }
      assert done == BridgePoolPorts(before, bridge);
      bridges := bridges - {bridge};
      rows := rows - (set k | k in rows && k.0 == bridge);
    }
  }

  lemma ReleaseNext(pool: P.Pool, done: set<Port>, port: Port)
    requires port !in done
    ensures P.ReleasePort(P.Pool(pool.free + (done * pool.held.Keys), pool.held - done), port)
      == P.Pool(pool.free + ((done + {port}) * pool.held.Keys), pool.held - (done + {port}))
  {
  }
}
