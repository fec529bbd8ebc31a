/**
 The deployment state as the handlers update it: route table, pool, tracker and forwards.
 */
module DeployServer {
  import opened Basics
  import opened Routes
  import opened Deploy
  import opened DeployTheorems
  import P = PortPool

  class Deployments {
    const table: RouteTable
    const pool: P.PortPool
    var tracker: map<Key, seq<Port>>
    var forwards: seq<Forward>

    ghost predicate Valid()
      reads this, pool
    {
      pool.Valid()
    }

    ghost function View(): (c: Ctl)
      reads this, table, pool
    {
      Ctl(table.routes, tracker, forwards, pool.View())
    }

    constructor (table: RouteTable, pool: P.PortPool)
      requires pool.Valid()
      ensures Valid() && this.table == table && this.pool == pool
      ensures View() == Ctl(table.routes, map[], [], pool.View())
    {
      this.table, this.pool, this.tracker, this.forwards := table, pool, map[], [];
    }

    /** The first path of the bridge that resolves already. */
    method Conflict(ports: seq<BridgePort>) returns (r: Option<string>)
      ensures r.None? <==> NoConflict(table.routes, ports)
      ensures r.Some? ==> exists i :: 0 <= i < |ports| && ports[i].routePath == r
    {
      for i := 0 to |ports|
        invariant NoConflict(table.routes, ports[..i])
      {
        if ports[i].routePath.Some? {
          var taken := table.Resolve(ports[i].routePath.value);
          if taken.Some? {
            return ports[i].routePath;
          }
        }
        assert ports[..i + 1] == ports[..i] + [ports[i]];
      }
      assert ports[..|ports|] == ports;
      r := None;
    }

    /** Records a started deployment and wires its ports one by one; a route that is refused ends
        the commit where it stands. */
    method Commit(key: Key, ports: seq<BridgePort>, plan: Plan) returns (r: Result<(), SetError>)
      requires Valid() && |plan.ports| == |ports|
      modifies this, table
      ensures Valid()
      ensures r.Ok? <==> AllRoutable(old(table.routes), ports, plan)
      ensures View() == CommittedTo(old(View()), key, ports, plan, Reach(old(table.routes), ports, plan, 0))
    {
      ghost var before := View();
      ghost var n := Reach(before.routes, ports, plan, 0);
      tracker := tracker[key := ServerPorts(plan)];
      for i := 0 to |ports|
        invariant Valid() && i <= n
        invariant View() == CommittedTo(before, key, ports, plan, i)
      {
        var wanted := Wanted(ports[i]);
        if wanted.Some? {
          r := table.Set(wanted.value, plan.ports[i].1);
          if r.Err? {
            assert !CanRoute(before.routes, ports, plan, i);
            return;
          }
        }
        assert CanRoute(before.routes, ports, plan, i);
        forwards := forwards + [ForwardFor(ports[i], plan.ports[i], plan.via)];
        CommitNext(before, key, ports, plan, i);
      }
      r := Ok(());
    }

    /** Takes the routes and the pool ports of one deployment away. */
    method Tear(ports: seq<Port>)
      requires Valid()
      modifies table, pool
      ensures Valid()
      ensures table.routes == WithoutPorts(old(table.routes), ports)
      ensures pool.View() == ReleaseAll(old(pool.View()), ports)
    {
      ghost var routes, before := table.routes, pool.View();
      for i := 0 to |ports|
        invariant Valid()
        invariant table.routes == WithoutPorts(routes, ports[..i])
        invariant pool.View() == ReleaseAll(before, ports[..i])
      {
        ghost var now := pool.View();
        table.RemoveByPort(ports[i]);
        pool.ReleaseByPort(ports[i]);
        assert ports[..i + 1] == ports[..i] + [ports[i]];
        TearNext(routes, before, ports[..i], ports[i]);
      }
      assert ports[..|ports|] == ports;
    }

    /** The forwards of other ports, in order; the loops of the rest are told to end. */
    static method Retain(all: seq<Forward>, ports: seq<Port>) returns (kept: seq<Forward>)
      ensures kept == Unforward(all, ports)
    {
      kept := [];
      for i := 0 to |all|
        invariant kept + Unforward(all[i..], ports) == Unforward(all, ports)
      {
        UnforwardNext(all, i, ports, kept);
        if all[i].serverPort !in ports {
          kept := kept + [all[i]];
        }
      }
    }

    /** Stopping a connection on the node it is deployed to. */
    method Stop(key: Key)
      requires Valid()
      modifies this, table, pool
      ensures Valid() && View() == Stopped(old(View()), key)
    {
      if key !in tracker {
        return;
      }
      var ports := tracker[key];
      Tear(ports);
      forwards := Retain(forwards, ports);
      tracker := tracker - {key};
    }

    /** A node has disconnected: all its deployments go, in whatever order the map gives them. */
    method RemoveByNode(node: string)
      requires Valid()
      modifies this, table, pool
      ensures Valid() && View() == Disconnected(old(View()), node)
    {
      ghost var before := View();
      var keys := set k | k in tracker && k.1 == node;
      ghost var gone: set<Key> := {};
      NothingGone(before);
      while keys != {}
        invariant Valid() && gone !! keys && gone + keys == KeysOf(before, node)
        invariant View() == Gone(before, gone)
        decreases keys
      {
        var key :| key in keys;
        keys := keys - {key};
        ghost var now := View();
        var ports := tracker[key];
        tracker := tracker - {key};
        Tear(ports);
        GoneNext(before, gone, key);
        gone := gone + {key};
      }
      AllGone(before, node);
    }
  }

  lemma UnforwardNext(all: seq<Forward>, i: nat, ports: seq<Port>, kept: seq<Forward>)
    requires i < |all|
    ensures kept + Unforward(all[i..], ports) ==
      (if all[i].serverPort in ports then kept else kept + [all[i]]) + Unforward(all[i + 1..], ports)
  {
    assert all[i..][1..] == all[i + 1..];
  }

  lemma CommitNext(c: Ctl, key: Key, ports: seq<BridgePort>, plan: Plan, i: nat)
    requires i < |ports| && |plan.ports| == |ports|
    ensures var t := CommittedTo(c, key, ports, plan, i);
      CommittedTo(c, key, ports, plan, i + 1) ==
        t.(routes := match Wanted(ports[i])
             case None => t.routes
             case Some(path) => t.routes[path := plan.ports[i].1],
           forwards := t.forwards + [ForwardFor(ports[i], plan.ports[i], plan.via)])
  {
  }

  lemma TearNext(routes: Table, pool: P.Pool, done: seq<Port>, port: Port)
    ensures WithoutPort(WithoutPorts(routes, done), port) == WithoutPorts(routes, done + [port])
    ensures pool.free !! pool.held.Keys ==>
      P.ReleasePort(ReleaseAll(pool, done), port) == ReleaseAll(pool, done + [port])
  {
  }

  // ---- Several deployments torn down ----

  function PortsUnder(c: Ctl, keys: set<Key>): set<Port> {
    set k, p | k in keys && k in c.tracker && p in c.tracker[k] :: p
  }

  /** The deployments under `keys` have been torn down, forwards excepted. */
  function Gone(c: Ctl, keys: set<Key>): Ctl {
    var ports := PortsUnder(c, keys);
    Ctl(map q | q in c.routes && c.routes[q] !in ports :: c.routes[q],
        c.tracker - keys, c.forwards,
        P.Pool(c.pool.free + (ports * c.pool.held.Keys), c.pool.held - ports))
  }

  lemma NothingGone(c: Ctl)
    ensures Gone(c, {}) == c
  {
  }

  lemma GoneNext(c: Ctl, keys: set<Key>, key: Key)
    requires key in c.tracker && key !in keys
    ensures var t := Gone(c, keys); var ports := c.tracker[key];
      Gone(c, keys + {key}) == Ctl(WithoutPorts(t.routes, ports), t.tracker - {key}, t.forwards, ReleaseAll(t.pool, ports))
  {
  }

  lemma AllGone(c: Ctl, node: string)
    ensures Gone(c, KeysOf(c, node)) == Disconnected(c, node)
  {
  }
}
