/**
 What deployments wire up, what they keep, and how they are undone.
 */
module DeployTheorems {
  import opened Basics
  import opened Routes
  import opened Deploy
  import Text
  import Wire
  import opened Chains

  // ---- When a commit succeeds ----

  ghost predicate AllRoutable(routes: Table, ports: seq<BridgePort>, plan: Plan)
    requires |plan.ports| == |ports|
  {
    forall k :: 0 <= k < |ports| ==> CanRoute(routes, ports, plan, k)
  }

  /** The conflict check: no wanted path resolves to a route already. */
  ghost predicate NoConflict(routes: Table, ports: seq<BridgePort>) {
    forall i :: 0 <= i < |ports| && ports[i].routePath.Some? ==> Resolved(routes, ports[i].routePath.value).None?
  }

  /** It looks at the paths of all ports, whatever their mode, and at every routed prefix of them. */
  lemma NoConflictIff(routes: Table, ports: seq<BridgePort>)
    ensures NoConflict(routes, ports) <==>
      forall i, q :: 0 <= i < |ports| && ports[i].routePath.Some? && q in routes ==> !(q <= ports[i].routePath.value)
  {
    forall i | 0 <= i < |ports| && ports[i].routePath.Some?
      ensures Resolved(routes, ports[i].routePath.value).Some? <==> exists q :: q in routes && q <= ports[i].routePath.value
    {
      ResolvesIff(routes, ports[i].routePath.value);
    }
  }

  ghost predicate DistinctPaths(ports: seq<BridgePort>) {
    forall i, j :: 0 <= i < j < |ports| && Wanted(ports[i]).Some? ==> Wanted(ports[i]) != Wanted(ports[j])
  }

  ghost predicate NoneReserved(ports: seq<BridgePort>) {
    forall i :: 0 <= i < |ports| && Wanted(ports[i]).Some? ==> !IsAdminPath(Wanted(ports[i]).value)
  }

  lemma {:induction false} RoutedByKeys(ports: seq<BridgePort>, plan: Plan, k: nat, path: string)
    requires k <= |ports| && |plan.ports| == |ports|
    ensures path in RoutedBy(ports, plan, k) <==> exists i :: 0 <= i < k && Wanted(ports[i]) == Some(path)
  {
    if k > 0 {
      RoutedByKeys(ports, plan, k - 1, path);
    }
  }

  lemma {:induction false} RoutedByValue(ports: seq<BridgePort>, plan: Plan, k: nat, i: nat)
    requires i < k <= |ports| && |plan.ports| == |ports| && DistinctPaths(ports) && Wanted(ports[i]).Some?
    ensures Wanted(ports[i]).value in RoutedBy(ports, plan, k)
    ensures RoutedBy(ports, plan, k)[Wanted(ports[i]).value] == plan.ports[i].1
  {
    if i < k - 1 {
      RoutedByValue(ports, plan, k - 1, i);
    }
  }

  /** Every route of a commit comes from one of its bridge ports. */
  lemma {:induction false} RoutedBySource(ports: seq<BridgePort>, plan: Plan, k: nat, path: string) returns (i: nat)
    requires k <= |ports| && |plan.ports| == |ports| && path in RoutedBy(ports, plan, k)
    ensures i < k && Wanted(ports[i]) == Some(path) && RoutedBy(ports, plan, k)[path] == plan.ports[i].1
  {
    if Wanted(ports[k - 1]) == Some(path) {
      i := k - 1;
    } else {
      i := RoutedBySource(ports, plan, k - 1, path);
    }
  }

  /** After the conflict check a commit goes through to the end exactly when the paths of the
      bridge are distinct and none of them is reserved. */
  lemma CommitSucceedsIff(routes: Table, ports: seq<BridgePort>, plan: Plan)
    requires |plan.ports| == |ports| && NoConflict(routes, ports)
    ensures AllRoutable(routes, ports, plan) <==> DistinctPaths(ports) && NoneReserved(ports)
  {
    forall k | 0 <= k < |ports| && Wanted(ports[k]).Some?
      ensures CanRoute(routes, ports, plan, k) <==>
        !IsAdminPath(Wanted(ports[k]).value) && forall i :: 0 <= i < k ==> Wanted(ports[i]) != Wanted(ports[k])
    {
      var path := Wanted(ports[k]).value;
      ResolvesIff(routes, path);
      assert path in routes ==> path <= path;
      RoutedByKeys(ports, plan, k, path);
    }
    if DistinctPaths(ports) && NoneReserved(ports) {
      forall k | 0 <= k < |ports| ensures CanRoute(routes, ports, plan, k) {
      }
    }
    if AllRoutable(routes, ports, plan) {
      forall i, j | 0 <= i < j < |ports| && Wanted(ports[i]).Some? ensures Wanted(ports[i]) != Wanted(ports[j]) {
        assert CanRoute(routes, ports, plan, j);
      }
      forall i | 0 <= i < |ports| && Wanted(ports[i]).Some? ensures !IsAdminPath(Wanted(ports[i]).value) {
        assert CanRoute(routes, ports, plan, i);
      }
    }
  }

  /** Some bridge port in mode "route" asks for `q` and has pool port `port`. */
  ghost predicate Asked(ports: seq<BridgePort>, plan: Plan, q: string, port: Port)
    requires |plan.ports| == |ports|
  {
    exists i :: 0 <= i < |ports| && ports[i].mode == "route" && ports[i].routePath == Some(q) && plan.ports[i].1 == port
  }

  /** Which bridge ports get a route: after a completed commit every one in mode "route" with a path
      resolves that path to its pool port, and every new route comes from such a port; so ports in
      other modes and without a path get none. */
  lemma RouteModePortsAreRouted(c: Ctl, key: Key, ports: seq<BridgePort>, plan: Plan)
    requires |plan.ports| == |ports| && NoConflict(c.routes, ports) && AllRoutable(c.routes, ports, plan)
    ensures var routes := CommittedTo(c, key, ports, plan, |ports|).routes;
      && (forall i :: 0 <= i < |ports| && ports[i].mode == "route" && ports[i].routePath.Some? ==>
            Resolved(routes, ports[i].routePath.value) == Some(plan.ports[i].1))
      && (forall q :: q in routes && q !in c.routes ==> Asked(ports, plan, q, routes[q]))
      && (forall q :: q in c.routes ==> q in routes && routes[q] == c.routes[q])
  {
    var routes := CommittedTo(c, key, ports, plan, |ports|).routes;
    forall i | 0 <= i < |ports| && ports[i].mode == "route" && ports[i].routePath.Some?
      ensures Resolved(routes, ports[i].routePath.value) == Some(plan.ports[i].1)
    {
      CommittedRoute(c, key, ports, plan, i);
    }
    forall q | q in RoutedBy(ports, plan, |ports|) ensures q !in c.routes && Asked(ports, plan, q, routes[q]) {
      RoutedByFresh(c.routes, ports, plan, |ports|, q);
      var i := RoutedBySource(ports, plan, |ports|, q);
      assert ports[i].mode == "route" && ports[i].routePath == Some(q);
    }
  }

  /** Which loops a forward starts: both protocols can be named, in a list joined by commas and with
      white space around the names; without a list, or if neither is named, there is a TCP loop. */
  lemma LoopsStarted(p: BridgePort, ports: (Port, Port), via: ChannelId, names: seq<string>)
    requires names != [] && forall i :: 0 <= i < |names| ==> ',' !in names[i]
    requires p.protocols == Some(Text.Join(names, ','))
    ensures var f := ForwardFor(p, ports, via);
      && f.udp == (exists i :: 0 <= i < |names| && Text.Trim(names[i]) == "udp")
      && f.tcp == ((exists i :: 0 <= i < |names| && Text.Trim(names[i]) == "tcp") || !f.udp)
  {
    Text.SplitJoin(names, ',');
  }

  lemma NoListMeansTcp(p: BridgePort, ports: (Port, Port), via: ChannelId)
    requires p.protocols.None?
    ensures ForwardFor(p, ports, via).tcp && !ForwardFor(p, ports, via).udp
  {
    Text.SplitJoin(["tcp"], ',');
    assert Text.Join(["tcp"], ',') == "tcp";
    assert Text.Trim("tcp") == "tcp";
    assert "tcp" != "udp" by {
      assert "tcp"[0] != "udp"[0];
    }
  }

  // ---- End to end ----

  /** The local port a client forwards to when a data channel brings it this message. */
  function ClientTarget(received: Bytes): Option<Port> {
    match Wire.ReadFrame(received)
    case Err(_) => None
    case Ok((body, _)) =>
      match Wire.DecodeDataCmd(body)
      case Ok(StartForwardTcp(port)) => port
      case _ => None
  }

  /** The message an accept loop sends for local port `local` makes the client connect to `target`. */
  predicate LeadsTo(local: Port, target: int) {
    ClientTarget(Wire.Frame(Wire.DataCmdBytes(Wire.StartForwardTcp(Some(local))))) == Some(target)
  }

  lemma ClientTargetOf(port: Port)
    ensures LeadsTo(port, port)
  {
    var cmd := Wire.StartForwardTcp(Some(port));
    Wire.DataCmdTravels(cmd, []);
    assert Wire.Frame(Wire.DataCmdBytes(cmd)) + [] == Wire.Frame(Wire.DataCmdBytes(cmd));
  }

  lemma CommittedRoute(c: Ctl, key: Key, ports: seq<BridgePort>, plan: Plan, i: nat)
    requires |plan.ports| == |ports| && i < |ports| && Wanted(ports[i]).Some?
    requires NoConflict(c.routes, ports) && AllRoutable(c.routes, ports, plan)
    ensures Resolved(CommittedTo(c, key, ports, plan, |ports|).routes, Wanted(ports[i]).value) == Some(plan.ports[i].1)
  {
    CommitSucceedsIff(c.routes, ports, plan);
    RoutedByValue(ports, plan, |ports|, i);
    ExactMatch(CommittedTo(c, key, ports, plan, |ports|).routes, Wanted(ports[i]).value);
  }

  lemma CommittedForward(c: Ctl, key: Key, ports: seq<BridgePort>, plan: Plan, i: nat)
    requires |plan.ports| == |ports| && i < |ports|
    ensures var forwards := CommittedTo(c, key, ports, plan, |ports|).forwards;
      && |forwards| == |c.forwards| + |ports|
      && forwards[|c.forwards| + i] == ForwardFor(ports[i], plan.ports[i], plan.via)
  {
    assert ForwardsOf(ports, plan, |ports|)[i] == ForwardFor(ports[i], plan.ports[i], plan.via);
  }

  /** A request for the path of a bridge port resolves to the pool port of its forward.  If the
      bridge port is not udp alone, the forward has an accept loop there, which sends the client a
      message that makes it connect to `target`; docker maps `target` to the container port of
      that bridge port, the i-th, and to no other. */
  ghost predicate Wired(routes: Table, port: BridgePort, forward: Forward, plan: Plan, i: nat, target: int) {
    && (Wanted(port).Some? ==> Resolved(routes, Wanted(port).value) == Some(forward.serverPort))
    && port.poolPort.Some? && forward.serverPort == AsU16(port.poolPort.value)
    && (forward.tcp <==> Uses(port, "tcp") || !Uses(port, "udp"))
    && (forward.tcp ==> LeadsTo(forward.localPort, target))
    && i < |plan.docker| && plan.docker[i].1 == AsU16(port.containerPort)
    && forall j :: 0 <= j < |plan.docker| ==> (plan.docker[j].0 == target <==> i == j)
  }

  /** No other entry of the list of forwards has the port of the k-th: its visitors have nowhere else
      to go.  (An entry whose loops have ended counts too; those end only at their next visitor.) */
  ghost predicate Sole(forwards: seq<Forward>, k: nat)
    requires k < |forwards|
  {
    forall j :: 0 <= j < |forwards| && forwards[j].serverPort == forwards[k].serverPort ==> j == k
  }

  /** No other bridge port and no forward that is already there has the pool port of the i-th. */
  ghost predicate Unshared(c: Ctl, ports: seq<BridgePort>, plan: Plan, i: nat)
    requires |plan.ports| == |ports| && i < |ports|
  {
    && (forall j :: 0 <= j < |ports| && plan.ports[j].1 == plan.ports[i].1 ==> j == i)
    && (forall f :: f in c.forwards ==> f.serverPort != plan.ports[i].1)
  }

  lemma SoleIff(c: Ctl, key: Key, ports: seq<BridgePort>, plan: Plan, i: nat)
    requires |plan.ports| == |ports| && i < |ports|
    ensures var forwards := CommittedTo(c, key, ports, plan, |ports|).forwards;
      |forwards| == |c.forwards| + |ports| && (Sole(forwards, |c.forwards| + i) <==> Unshared(c, ports, plan, i))
  {
    var n, forwards := |c.forwards|, CommittedTo(c, key, ports, plan, |ports|).forwards;
    assert forall j :: 0 <= j < n ==> forwards[j] == c.forwards[j];
    forall j | 0 <= j < |ports| ensures forwards[n + j].serverPort == plan.ports[j].1 {
      CommittedForward(c, key, ports, plan, j);
    }
    if Sole(forwards, n + i) {
      forall f | f in c.forwards ensures f.serverPort != plan.ports[i].1 {
        var j :| 0 <= j < n && c.forwards[j] == f;
        assert forwards[j].serverPort == f.serverPort;
      }
      forall j | 0 <= j < |ports| && plan.ports[j].1 == plan.ports[i].1 ensures j == i {
        assert forwards[n + j].serverPort == forwards[n + i].serverPort;
      }
    }
    if Unshared(c, ports, plan, i) {
      forall j | 0 <= j < n ensures forwards[j].serverPort != plan.ports[i].1 {
        assert c.forwards[j] in c.forwards;
      }
      forall j | n <= j < |forwards| && forwards[j].serverPort == plan.ports[i].1 ensures j == n + i {
        assert forwards[n + (j - n)].serverPort == plan.ports[j - n].1;
      }
    }
  }

  /** The plan gives bridge port i the local port `target` and no other mapping uses it. */
  ghost predicate Planned(port: BridgePort, plan: Plan, i: nat, target: Port) {
    && i < |plan.ports| == |plan.docker| && port.poolPort.Some?
    && plan.ports[i] == (target, AsU16(port.poolPort.value)) && plan.docker[i].1 == AsU16(port.containerPort)
    && forall j :: 0 <= j < |plan.docker| ==> (plan.docker[j].0 == target <==> i == j)
  }

  lemma PlannedPort(ports: seq<BridgePort>, start: int, end: int, plan: Plan, i: nat)
    requires 0 <= start <= end <= 0xFFFF && |ports| < 0x10000 && i < |ports|
    requires Precheck(ports, start, end).None? && IsPlan(ports, start, plan)
    ensures start + i <= 0xFFFF && Planned(ports[i], plan, i, start + i)
  {
    PlanIsSound(ports, start, end, plan);
  }

  lemma PlannedIsWired(c: Ctl, key: Key, ports: seq<BridgePort>, plan: Plan, i: nat, target: Port)
    requires |plan.ports| == |ports| && i < |ports| && Planned(ports[i], plan, i, target)
    requires NoConflict(c.routes, ports) && AllRoutable(c.routes, ports, plan)
    ensures var done := CommittedTo(c, key, ports, plan, |ports|);
      |done.forwards| == |c.forwards| + |ports|
      && Wired(done.routes, ports[i], done.forwards[|c.forwards| + i], plan, i, target)
  {
    CommittedForward(c, key, ports, plan, i);
    if Wanted(ports[i]).Some? {
      CommittedRoute(c, key, ports, plan, i);
    }
    ClientTargetOf(target);
  }

  /** A successful commit wires every bridge port i of the deployment to local port start + i, and
      that is the only place its visitors can go exactly when its pool port is neither shared with
      another bridge port nor forwarded already. */
  lemma EndToEnd(c: Ctl, key: Key, ports: seq<BridgePort>, start: int, end: int, plan: Plan, i: nat)
    requires 0 <= start <= end <= 0xFFFF && |ports| < 0x10000 && i < |ports|
    requires Precheck(ports, start, end).None? && IsPlan(ports, start, plan)
    requires NoConflict(c.routes, ports) && AllRoutable(c.routes, ports, plan)
    ensures var done := CommittedTo(c, key, ports, plan, |ports|);
      && |done.forwards| == |c.forwards| + |ports|
      && Wired(done.routes, ports[i], done.forwards[|c.forwards| + i], plan, i, start + i)
      && (Sole(done.forwards, |c.forwards| + i) <==> Unshared(c, ports, plan, i))
  {
    PlannedPort(ports, start, end, plan, i);
    PlannedIsWired(c, key, ports, plan, i, start + i);
    SoleIff(c, key, ports, plan, i);
  }

  /** All forwards of a commit are the only ones on their ports exactly when the pool ports of the
      bridge are distinct and none of them was forwarded before. */
  lemma AllSoleIff(c: Ctl, key: Key, ports: seq<BridgePort>, plan: Plan)
    requires |plan.ports| == |ports|
    ensures var forwards := CommittedTo(c, key, ports, plan, |ports|).forwards;
      |forwards| == |c.forwards| + |ports| &&
      ((forall k :: |c.forwards| <= k < |forwards| ==> Sole(forwards, k)) <==>
        (forall i, j :: 0 <= i < j < |ports| ==> plan.ports[i].1 != plan.ports[j].1)
        && forall f :: f in c.forwards ==> f.serverPort !in ServerPorts(plan))
  {
    var n, forwards := |c.forwards|, CommittedTo(c, key, ports, plan, |ports|).forwards;
    forall k | n <= k < n + |ports| ensures k < |forwards| && (Sole(forwards, k) <==> Unshared(c, ports, plan, k - n)) {
      SoleIff(c, key, ports, plan, k - n);
    }
    UnsharedIff(c, ports, plan);
    if forall k :: n <= k < |forwards| ==> Sole(forwards, k) {
      forall i | 0 <= i < |ports| ensures Unshared(c, ports, plan, i) {
        assert Sole(forwards, n + i);
      }
    }
  }

  lemma UnsharedIff(c: Ctl, ports: seq<BridgePort>, plan: Plan)
    requires |plan.ports| == |ports|
    ensures (forall i :: 0 <= i < |ports| ==> Unshared(c, ports, plan, i)) <==>
      (forall i, j :: 0 <= i < j < |ports| ==> plan.ports[i].1 != plan.ports[j].1)
      && forall f :: f in c.forwards ==> f.serverPort !in ServerPorts(plan)
  {
    if forall i :: 0 <= i < |ports| ==> Unshared(c, ports, plan, i) {
      forall f, i | f in c.forwards && 0 <= i < |ports| ensures f.serverPort != ServerPorts(plan)[i] {
        assert Unshared(c, ports, plan, i);
      }
      forall i, j | 0 <= i < j < |ports| ensures plan.ports[i].1 != plan.ports[j].1 {
        assert Unshared(c, ports, plan, i);
      }
    } else {
      var i :| 0 <= i < |ports| && !Unshared(c, ports, plan, i);
      assert ServerPorts(plan)[i] == plan.ports[i].1;
    }
  }

  // ---- Undoing a commit ----

  lemma {:induction false} RoutedByPorts(ports: seq<BridgePort>, plan: Plan, k: nat, path: string)
    requires k <= |ports| && |plan.ports| == |ports| && path in RoutedBy(ports, plan, k)
    ensures RoutedBy(ports, plan, k)[path] in ServerPorts(plan)
  {
    if k > 0 {
      assert ServerPorts(plan)[k - 1] == plan.ports[k - 1].1;
      if Wanted(ports[k - 1]) != Some(path) {
        RoutedByPorts(ports, plan, k - 1, path);
      }
    }
  }

  lemma {:induction false} RoutedByFresh(routes: Table, ports: seq<BridgePort>, plan: Plan, k: nat, path: string)
    requires k <= |ports| && |plan.ports| == |ports|
    requires forall j :: 0 <= j < k ==> CanRoute(routes, ports, plan, j)
    requires path in RoutedBy(ports, plan, k)
    ensures path !in routes && !IsAdminPath(path)
  {
    if k > 0 {
      assert CanRoute(routes, ports, plan, k - 1);
      if Wanted(ports[k - 1]) != Some(path) {
        RoutedByFresh(routes, ports, plan, k - 1, path);
      }
    }
  }

  /** Committing as far as it goes and stopping again restores the route table exactly when none
      of the deployment's ports was routed before. */
  lemma CommitThenStopIff(c: Ctl, key: Key, ports: seq<BridgePort>, plan: Plan, k: nat)
    requires k <= |ports| && |plan.ports| == |ports|
    requires forall j :: 0 <= j < k ==> CanRoute(c.routes, ports, plan, j)
    ensures Stopped(CommittedTo(c, key, ports, plan, k), key).routes == c.routes
      <==> forall q :: q in c.routes ==> c.routes[q] !in ServerPorts(plan)
  {
    var mid := CommittedTo(c, key, ports, plan, k);
    var end := Stopped(mid, key).routes;
    forall q | q in RoutedBy(ports, plan, k) ensures mid.routes[q] in ServerPorts(plan) && q !in c.routes {
      RoutedByPorts(ports, plan, k, q);
      RoutedByFresh(c.routes, ports, plan, k, q);
    }
    if forall q :: q in c.routes ==> c.routes[q] !in ServerPorts(plan) {
      assert end == c.routes;
    } else {
      var q :| q in c.routes && c.routes[q] in ServerPorts(plan);
      assert q !in end;
    }
  }

  lemma Regroup<T>(a: seq<T>, b: seq<T>, c: seq<T>)
    ensures a + (b + c) == (a + b) + c
  {
  }

  /** Removing forwards works piece by piece. */
  lemma {:induction false} UnforwardParts(head: seq<Forward>, tail: seq<Forward>, ports: seq<Port>)
    ensures Unforward(head + tail, ports) == Unforward(head, ports) + Unforward(tail, ports)
    decreases |head|
  {
    if head == [] {
      assert head + tail == tail;
    } else {
      UnforwardParts(head[1..], tail, ports);
      var first: seq<Forward> := if head[0].serverPort in ports then [] else [head[0]];
      Regroup(first, Unforward(head[1..], ports), Unforward(tail, ports));
      assert (head + tail)[0] == head[0] && (head + tail)[1..] == head[1..] + tail;
    }
  }

  /** It takes away exactly the forwards of the given ports. */
  lemma {:induction false} UnforwardKeeps(forwards: seq<Forward>, ports: seq<Port>, f: Forward)
    ensures f in Unforward(forwards, ports) <==> f in forwards && f.serverPort !in ports
  {
    if forwards != [] {
      UnforwardKeeps(forwards[1..], ports, f);
    }
  }

  lemma {:induction false} UnforwardAllOrNone(forwards: seq<Forward>, ports: seq<Port>)
    ensures Unforward(forwards, ports) == forwards <==> forall f :: f in forwards ==> f.serverPort !in ports
    ensures (forall f :: f in forwards ==> f.serverPort in ports) ==> Unforward(forwards, ports) == []
  {
    if forwards != [] {
      UnforwardAllOrNone(forwards[1..], ports);
      assert forwards == [forwards[0]] + forwards[1..];
      UnforwardKeeps(forwards, ports, forwards[0]);
    }
  }

  lemma ForwardsUndone(c: Ctl, key: Key, ports: seq<BridgePort>, plan: Plan, k: nat)
    requires k <= |ports| && |plan.ports| == |ports|
    ensures Stopped(CommittedTo(c, key, ports, plan, k), key).forwards == Unforward(c.forwards, ServerPorts(plan))
  {
    var added := ForwardsOf(ports, plan, k);
    UnforwardParts(c.forwards, added, ServerPorts(plan));
    forall f | f in added ensures f.serverPort in ServerPorts(plan) {
      var i :| 0 <= i < |added| && added[i] == f;
      assert ServerPorts(plan)[i] == f.serverPort;
    }
    UnforwardAllOrNone(added, ServerPorts(plan));
  }

  /** A commit and a stop leave routes, forwards and tracker as they were exactly when the key was
      new and none of the deployment's ports was routed or forwarded before; the pool ports are
      given back in any case. */
  lemma StopUndoesCommitIff(c: Ctl, key: Key, ports: seq<BridgePort>, plan: Plan, k: nat)
    requires k <= |ports| && |plan.ports| == |ports|
    requires forall j :: 0 <= j < k ==> CanRoute(c.routes, ports, plan, j)
    ensures Stopped(CommittedTo(c, key, ports, plan, k), key) == c.(pool := ReleaseAll(c.pool, ServerPorts(plan)))
      <==> key !in c.tracker
           && (forall q :: q in c.routes ==> c.routes[q] !in ServerPorts(plan))
           && (forall f :: f in c.forwards ==> f.serverPort !in ServerPorts(plan))
  {
    var t := Stopped(CommittedTo(c, key, ports, plan, k), key);
    CommitThenStopIff(c, key, ports, plan, k);
    ForwardsUndone(c, key, ports, plan, k);
    UnforwardAllOrNone(c.forwards, ServerPorts(plan));
    assert t.tracker == c.tracker - {key};
    assert t.tracker == c.tracker <==> key !in c.tracker;
  }

  /** A stop gives back every pool port of the deployment and no other, and takes its routes and
      forwards and no others. */
  lemma StopGivesBack(c: Ctl, key: Key)
    requires key in c.tracker
    ensures var t, mine := Stopped(c, key), c.tracker[key];
      && key !in t.tracker && (forall k :: k in c.tracker && k != key ==> k in t.tracker && t.tracker[k] == c.tracker[k])
      && (forall q :: q in c.routes ==> (q in t.routes <==> c.routes[q] !in mine))
      && (forall f :: f in t.forwards <==> f in c.forwards && f.serverPort !in mine)
      && (forall p :: p in c.pool.held ==> (p in t.pool.held <==> p !in mine) && (p in mine ==> p in t.pool.free))
      && (forall p :: p in t.pool.held ==> p in c.pool.held && t.pool.held[p] == c.pool.held[p])
  {
    forall f ensures f in Stopped(c, key).forwards <==> f in c.forwards && f.serverPort !in c.tracker[key] {
      UnforwardKeeps(c.forwards, c.tracker[key], f);
    }
  }

  /** A lost node gives back every pool port of its deployments and no other, and takes their routes
      and no others. */
  lemma LossGivesBack(c: Ctl, node: string)
    ensures var t := Disconnected(c, node);
      && (forall k :: k in c.tracker ==> (k in t.tracker <==> k.1 != node))
      && (forall k :: k in t.tracker ==> k in c.tracker && t.tracker[k] == c.tracker[k])
      && (forall q :: q in c.routes ==> (q in t.routes <==>
            forall k :: k in c.tracker && k.1 == node ==> c.routes[q] !in c.tracker[k]))
      && (forall p :: p in c.pool.held ==> (p in t.pool.held <==>
            forall k :: k in c.tracker && k.1 == node ==> p !in c.tracker[k]))
      && (forall p :: p in c.pool.held && p !in t.pool.held ==> p in t.pool.free)
      && (forall p :: p in t.pool.held ==> p in c.pool.held && t.pool.held[p] == c.pool.held[p])
  {
  }

  // ---- Every run ----

  datatype Event =
    | Deploying(key: Key, ports: seq<BridgePort>, plan: Plan, started: bool)
    | Stopping(key: Key)
    | Losing(node: string)

  /** Every routed port belongs to a tracked deployment. */
  ghost predicate Tracked(c: Ctl) {
    forall q :: q in c.routes ==> OwnedPort(c, c.routes[q])
  }

  ghost predicate OwnedPort(c: Ctl, port: Port) {
    exists key :: key in c.tracker && port in c.tracker[key]
  }

  ghost predicate Unreserved(c: Ctl) {
    forall q :: q in c.routes ==> !IsAdminPath(q)
  }

  /** How far a commit gets: the first port that cannot be routed, or all of them. */
  ghost function Reach(routes: Table, ports: seq<BridgePort>, plan: Plan, k: nat): (n: nat)
    requires k <= |ports| && |plan.ports| == |ports|
    ensures k <= n <= |ports| && (forall j :: k <= j < n ==> CanRoute(routes, ports, plan, j))
    ensures n < |ports| ==> !CanRoute(routes, ports, plan, n)
    decreases |ports| - k
  {
    if k < |ports| && CanRoute(routes, ports, plan, k) then Reach(routes, ports, plan, k + 1) else k
  }

  /** A deployment reuses a key only for the ports it already had under it. */
  ghost predicate KeyClear(c: Ctl, key: Key, plan: Plan) {
    key in c.tracker ==> forall p :: p in c.tracker[key] ==> p in ServerPorts(plan)
  }

  ghost predicate Possible(c: Ctl, e: Event) {
    match e
    case Deploying(key, ports, plan, _) => |plan.ports| == |ports|
    case _ => true
  }

  ghost function After(c: Ctl, e: Event): Ctl
    requires Possible(c, e)
  {
    match e
    case Deploying(key, ports, plan, started) =>
      if started && NoConflict(c.routes, ports)
      then CommittedTo(c, key, ports, plan, Reach(c.routes, ports, plan, 0)) else c
    case Stopping(key) => Stopped(c, key)
    case Losing(node) => Disconnected(c, node)
  }

  /** A deployment under another key has the port. */
  ghost predicate OwnedElsewhere(c: Ctl, key: Key, port: Port) {
    exists k :: k != key && k in c.tracker && port in c.tracker[k]
  }

  /** Every routed port is among `ports` or has an owner other than `key`. */
  ghost predicate RoutesClear(c: Ctl, key: Key, ports: seq<Port>) {
    forall q :: q in c.routes ==> c.routes[q] in ports || OwnedElsewhere(c, key, c.routes[q])
  }

  lemma RecordOwns(c: Ctl, key: Key, ports: seq<Port>, t: Ctl, port: Port)
    requires t.tracker == c.tracker[key := ports]
    ensures OwnedPort(t, port) <==> port in ports || OwnedElsewhere(c, key, port)
  {
    if port in ports {
      assert port in t.tracker[key];
    }
    if OwnedElsewhere(c, key, port) {
      var k :| k != key && k in c.tracker && port in c.tracker[k];
      assert port in t.tracker[k];
    }
  }

  /** A commit, complete or cut short, keeps every routed port tracked exactly when each port routed
      before is among the new ports or has another owner than the reused key. */
  lemma CommitKeepsTrackedIff(c: Ctl, key: Key, ports: seq<BridgePort>, plan: Plan, k: nat)
    requires k <= |ports| && |plan.ports| == |ports|
    requires forall j :: 0 <= j < k ==> CanRoute(c.routes, ports, plan, j)
    ensures Tracked(CommittedTo(c, key, ports, plan, k)) <==> RoutesClear(c, key, ServerPorts(plan))
  {
    var t, mine := CommittedTo(c, key, ports, plan, k), ServerPorts(plan);
    forall q | q in t.routes ensures OwnedPort(t, t.routes[q]) <==> t.routes[q] in mine || OwnedElsewhere(c, key, t.routes[q]) {
      RecordOwns(c, key, mine, t, t.routes[q]);
    }
    forall q | q in RoutedBy(ports, plan, k) ensures t.routes[q] in mine && q !in c.routes {
      RoutedByPorts(ports, plan, k, q);
      RoutedByFresh(c.routes, ports, plan, k, q);
    }
    assert forall q :: q in c.routes ==> q in t.routes && t.routes[q] == c.routes[q];
  }

  lemma CommitKeepsUnreserved(c: Ctl, key: Key, ports: seq<BridgePort>, plan: Plan, k: nat)
    requires Unreserved(c) && k <= |ports| && |plan.ports| == |ports|
    requires forall j :: 0 <= j < k ==> CanRoute(c.routes, ports, plan, j)
    ensures Unreserved(CommittedTo(c, key, ports, plan, k))
  {
    forall q | q in RoutedBy(ports, plan, k) ensures !IsAdminPath(q) {
      RoutedByFresh(c.routes, ports, plan, k, q);
    }
  }

  lemma StopKeepsTracked(c: Ctl, key: Key)
    requires Tracked(c)
    ensures Tracked(Stopped(c, key))
  {
    var t := Stopped(c, key);
    forall q | q in t.routes ensures OwnedPort(t, t.routes[q]) {
      assert OwnedPort(c, c.routes[q]);
      var owner :| owner in c.tracker && c.routes[q] in c.tracker[owner];
      assert owner in t.tracker && t.routes[q] in t.tracker[owner];
    }
  }

  lemma LossKeepsTracked(c: Ctl, node: string)
    requires Tracked(c)
    ensures Tracked(Disconnected(c, node))
  {
    var t := Disconnected(c, node);
    forall q | q in t.routes ensures OwnedPort(t, t.routes[q]) {
      assert OwnedPort(c, c.routes[q]);
      var owner :| owner in c.tracker && c.routes[q] in c.tracker[owner];
      assert owner in t.tracker && t.routes[q] in t.tracker[owner];
    }
  }

  ghost function Steps(): (Ctl, Event, Ctl) -> bool {
    (c, e, t) => Possible(c, e) && t == After(c, e)
  }

  ghost predicate IsHistory(states: seq<Ctl>, events: seq<Event>) {
    Path(Steps(), states, events) && states[0].routes == map[]
  }

  /** The event does not commit over a key whose routes would lose their owner. */
  ghost predicate Orderly(c: Ctl, e: Event) {
    e.Deploying? && e.started && NoConflict(c.routes, e.ports) ==> RoutesClear(c, e.key, ServerPorts(e.plan))
  }

  lemma StepKeepsTrackedIff(c: Ctl, e: Event)
    requires Possible(c, e) && Tracked(c)
    ensures Tracked(After(c, e)) <==> Orderly(c, e)
  {
    match e
    case Deploying(key, ports, plan, started) =>
      CommitKeepsTrackedIff(c, key, ports, plan, Reach(c.routes, ports, plan, 0));
    case Stopping(key) =>
      StopKeepsTracked(c, key);
    case Losing(node) =>
      LossKeepsTracked(c, node);
  }

  lemma StepKeepsUnreserved(c: Ctl, e: Event)
    requires Possible(c, e) && Unreserved(c)
    ensures Unreserved(After(c, e))
  {
    if e.Deploying? {
      CommitKeepsUnreserved(c, e.key, e.ports, e.plan, Reach(c.routes, e.ports, e.plan, 0));
    }
  }

  /** Over every run of deployments (finished, refused or cut short), stops and lost nodes, no
      reserved path is ever routed. */
  lemma NoReservedPathIsRouted(states: seq<Ctl>, events: seq<Event>, i: nat)
    requires IsHistory(states, events) && i < |states|
    ensures Unreserved(states[i])
  {
    forall c, e, t | e in events && Unreserved(c) && Steps()(c, e, t) ensures Unreserved(t) {
      StepKeepsUnreserved(c, e);
    }
    PathKeeps(Steps(), c => Unreserved(c), states, events, i);
  }

  /** ... and as long as no deployment reuses a key so that a route loses its only owner, every
      routed port belongs to a tracked deployment. */
  lemma {:induction false} RoutesStayTracked(states: seq<Ctl>, events: seq<Event>, i: nat)
    requires IsHistory(states, events) && i < |states|
    requires forall j :: 0 <= j < i ==> Orderly(states[j], events[j])
    ensures Tracked(states[i])
  {
    if i > 0 {
      RoutesStayTracked(states, events, i - 1);
      assert Steps()(states[i - 1], events[i - 1], states[i]);
      StepKeepsTrackedIff(states[i - 1], events[i - 1]);
    }
  }

  // ---- Forwards ----

  /** The port of every forward belongs to a tracked deployment. */
  ghost predicate ForwardsTracked(c: Ctl) {
    forall f :: f in c.forwards ==> OwnedPort(c, f.serverPort)
  }

  /** Every forwarded port is among `ports` or has an owner other than `key`. */
  ghost predicate ForwardsClear(c: Ctl, key: Key, ports: seq<Port>) {
    forall f :: f in c.forwards ==> f.serverPort in ports || OwnedElsewhere(c, key, f.serverPort)
  }

  lemma CommitKeepsForwardsIff(c: Ctl, key: Key, ports: seq<BridgePort>, plan: Plan, k: nat)
    requires k <= |ports| && |plan.ports| == |ports|
    ensures ForwardsTracked(CommittedTo(c, key, ports, plan, k)) <==> ForwardsClear(c, key, ServerPorts(plan))
  {
    var t, mine := CommittedTo(c, key, ports, plan, k), ServerPorts(plan);
    forall f | f in t.forwards ensures OwnedPort(t, f.serverPort) <==> f.serverPort in mine || OwnedElsewhere(c, key, f.serverPort) {
      RecordOwns(c, key, mine, t, f.serverPort);
    }
    forall f | f in ForwardsOf(ports, plan, k) ensures f.serverPort in mine {
      var i :| 0 <= i < k && ForwardsOf(ports, plan, k)[i] == f;
      assert mine[i] == f.serverPort;
    }
    assert forall f :: f in t.forwards <==> f in c.forwards || f in ForwardsOf(ports, plan, k);
  }

  lemma StopKeepsForwards(c: Ctl, key: Key)
    requires ForwardsTracked(c)
    ensures ForwardsTracked(Stopped(c, key))
  {
    var t := Stopped(c, key);
    if key in c.tracker {
      forall f | f in t.forwards ensures OwnedPort(t, f.serverPort) {
        UnforwardKeeps(c.forwards, c.tracker[key], f);
        var owner :| owner in c.tracker && f.serverPort in c.tracker[owner];
        assert owner in t.tracker && f.serverPort in t.tracker[owner];
      }
    }
  }

  /** No forward of the node's deployments is running. */
  ghost predicate Silent(c: Ctl, node: string) {
    forall f :: f in c.forwards ==> f.serverPort !in PortsOf(c, node)
  }

  lemma SilentLossKeepsForwards(c: Ctl, node: string)
    requires ForwardsTracked(c) && Silent(c, node)
    ensures ForwardsTracked(Disconnected(c, node))
  {
    var t := Disconnected(c, node);
    forall f | f in t.forwards ensures OwnedPort(t, f.serverPort) {
      var owner :| owner in c.tracker && f.serverPort in c.tracker[owner];
      assert owner in t.tracker && f.serverPort in t.tracker[owner];
    }
  }

  /** Deployments do not share ports. */
  ghost predicate OneKeyEach(c: Ctl) {
    forall k, l :: k in c.tracker && l in c.tracker && k != l ==> forall p :: p in c.tracker[k] ==> p !in c.tracker[l]
  }

  /** Losing a node takes its tracker entries but not its forwards: every forward stays tracked
      exactly when the node had none. */
  lemma LossKeepsForwardsIff(c: Ctl, node: string)
    requires ForwardsTracked(c) && OneKeyEach(c)
    ensures ForwardsTracked(Disconnected(c, node)) <==> Silent(c, node)
  {
    var t := Disconnected(c, node);
    if Silent(c, node) {
      SilentLossKeepsForwards(c, node);
    } else {
      var f :| f in c.forwards && f.serverPort in PortsOf(c, node);
      var key :| key in c.tracker && key.1 == node && f.serverPort in c.tracker[key];
      assert forall k :: k in t.tracker ==> k in c.tracker && k != key;
      assert !OwnedPort(t, f.serverPort);
    }
  }

  /** Over every run of deployments that take no forward's only owner, stops, and losses of nodes
      without forwards, every forward belongs to a tracked deployment. */
  lemma {:induction false} ForwardsStayTracked(states: seq<Ctl>, events: seq<Event>, i: nat)
    requires IsHistory(states, events) && states[0].forwards == [] && i < |states|
    requires forall j :: 0 <= j < i && events[j].Losing? ==> Silent(states[j], events[j].node)
    requires forall j :: 0 <= j < i && events[j].Deploying? && events[j].started && NoConflict(states[j].routes, events[j].ports) ==>
      ForwardsClear(states[j], events[j].key, ServerPorts(events[j].plan))
    ensures ForwardsTracked(states[i])
  {
    if i > 0 {
      ForwardsStayTracked(states, events, i - 1);
      var c, e := states[i - 1], events[i - 1];
      assert Steps()(c, e, states[i]);
      assert Possible(c, e) && states[i] == After(c, e);
      match e
      case Deploying(key, ports, plan, started) =>
        CommitKeepsForwardsIff(c, key, ports, plan, Reach(c.routes, ports, plan, 0));
      case Stopping(key) =>
        StopKeepsForwards(c, key);
      case Losing(node) =>
        SilentLossKeepsForwards(c, node);
    }
  }

  /** Fewer routes leave fewer conflicts. */
  lemma NoConflictShrinks(routes: Table, fewer: Table, ports: seq<BridgePort>)
    requires NoConflict(routes, ports) && forall q :: q in fewer ==> q in routes
    ensures NoConflict(fewer, ports)
  {
    forall i | 0 <= i < |ports| && ports[i].routePath.Some? ensures Resolved(fewer, ports[i].routePath.value).None? {
      ResolvesIff(routes, ports[i].routePath.value);
      ResolvesIff(fewer, ports[i].routePath.value);
    }
  }

  lemma LossRemovesRoutes(c: Ctl, key: Key, ports: seq<BridgePort>, plan: Plan)
    requires |plan.ports| == |ports|
    ensures var lost := Disconnected(CommittedTo(c, key, ports, plan, |ports|), key.1);
      && key !in lost.tracker
      && (forall q :: q in lost.routes ==> q in c.routes)
      && lost.forwards == c.forwards + ForwardsOf(ports, plan, |ports|)
  {
    var mid := CommittedTo(c, key, ports, plan, |ports|);
    var lost := Disconnected(mid, key.1);
    forall q | q in RoutedBy(ports, plan, |ports|) ensures mid.routes[q] in PortsOf(mid, key.1) {
      RoutedByPorts(ports, plan, |ports|, q);
      assert mid.routes[q] in mid.tracker[key];
    }
  }

  /** A node that is lost and comes back: whatever was deployable before is deployed again, and each
      of its ports then has two entries among the forwards.  Until the next visitor of the older
      one, whose channel is gone, both have a loop on the port. */
  lemma RedeployDoublesForwards(c: Ctl, key: Key, ports: seq<BridgePort>, plan: Plan, i: nat)
    requires |plan.ports| == |ports| && i < |ports|
    requires NoConflict(c.routes, ports) && AllRoutable(c.routes, ports, plan)
    ensures var deploy := Deploying(key, ports, plan, true);
      var lost := After(After(c, deploy), Losing(key.1));
      && Possible(lost, deploy)
      && var again := After(lost, deploy);
      && |again.forwards| == |c.forwards| + 2 * |ports|
      && again.forwards[|c.forwards| + i] == again.forwards[|c.forwards| + |ports| + i] == ForwardFor(ports[i], plan.ports[i], plan.via)
      && !Sole(again.forwards, |c.forwards| + |ports| + i)
  {
    var deploy := Deploying(key, ports, plan, true);
    assert Reach(c.routes, ports, plan, 0) == |ports|;
    var lost := After(After(c, deploy), Losing(key.1));
    LossRemovesRoutes(c, key, ports, plan);
    NoConflictShrinks(c.routes, lost.routes, ports);
    CommitSucceedsIff(c.routes, ports, plan);
    CommitSucceedsIff(lost.routes, ports, plan);
    assert Reach(lost.routes, ports, plan, 0) == |ports|;
  }

  // ---- Shared names ----

  /** Two connections of one name on one node, whatever their ports: if port p of the first is
      routed at `path` and not among the second one's ports, the second commit leaves that route
      without an owner, and it survives both the stop and the loss of the node. */
  lemma SharedNameLosesRoutes(c: Ctl, key: Key, ports: seq<BridgePort>, plan: Plan, i: nat,
                              others: seq<BridgePort>, other: Plan, k: nat)
    requires |plan.ports| == |ports| && i < |ports| && Wanted(ports[i]).Some? && DistinctPaths(ports)
    requires |other.ports| == |others| && k <= |others|
    requires var first := CommittedTo(c, key, ports, plan, |ports|);
      forall j :: 0 <= j < k ==> CanRoute(first.routes, others, other, j)
    requires plan.ports[i].1 !in ServerPorts(other) && !OwnedPort(c, plan.ports[i].1)
    ensures var second := CommittedTo(CommittedTo(c, key, ports, plan, |ports|), key, others, other, k);
      var path, p := Wanted(ports[i]).value, plan.ports[i].1;
      && !OwnedPort(second, p)
      && path in Stopped(second, key).routes && Stopped(second, key).routes[path] == p && key !in Stopped(second, key).tracker
      && path in Disconnected(second, key.1).routes && Disconnected(second, key.1).routes[path] == p
  {
    var path, p := Wanted(ports[i]).value, plan.ports[i].1;
    var first := CommittedTo(c, key, ports, plan, |ports|);
    var second := CommittedTo(first, key, others, other, k);
    RoutedByValue(ports, plan, |ports|, i);
    assert path in first.routes && first.routes[path] == p;
    if path in RoutedBy(others, other, k) {
      RoutedByFresh(first.routes, others, other, k, path);
    }
    assert second.routes[path] == p;
    forall l | l in second.tracker ensures p !in second.tracker[l] {
      if l != key {
        assert second.tracker[l] == c.tracker[l];
      }
    }
  }
}
