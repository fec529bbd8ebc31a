/**
 Deploying and stopping a connection: the port plan, the commit to route table, tracker and
 forwards, and the two ways a deployment is torn down.
 */
module Deploy {
  import opened Basics
  import opened Text
  import opened Routes
  import P = PortPool

  datatype BridgePort = BridgePort(
    containerPort: I64, mode: string, routePath: Option<string>, protocols: Option<string>, poolPort: Option<I64>)

  /** `n as u16`. */
  function AsU16(n: int): Port {
    n % 0x10000
  }

  // ---- The port plan ----

  datatype PlanError = NoPorts | TooFewPorts(have: Port, need: Port) | NoPoolPort(containerPort: I64)

  /** `ports[i]` is (client port, pool port) of the i-th bridge port, `docker[i]` its
      (client port, container port); `overflow` is the step whose increment leaves 16 bits, and
      `via` the channel of the node's registry entry, which the loops will ask for streams. */
  datatype Plan = Plan(ports: seq<(Port, Port)>, docker: seq<(Port, Port)>, overflow: Option<nat>, via: ChannelId)

  function Precheck(ports: seq<BridgePort>, start: int, end: int): Option<PlanError> {
    var need, have := AsU16(|ports|), AsU16(end - start + 1);
    if ports == [] then Some(NoPorts)
    else if have < need then Some(TooFewPorts(have, need))
    else FirstUnpooled(ports)
  }

  /** The error names the first bridge port without a pool port. */
  function FirstUnpooled(ports: seq<BridgePort>): (r: Option<PlanError>)
    ensures r.None? <==> forall i :: 0 <= i < |ports| ==> ports[i].poolPort.Some?
    ensures r.Some? ==> r.value.NoPoolPort?
    ensures r.Some? ==> exists i :: 0 <= i < |ports| && ports[i].poolPort.None? && r.value.containerPort == ports[i].containerPort
                                    && forall j :: 0 <= j < i ==> ports[j].poolPort.Some?
  {
    if ports == [] then None
    else if ports[0].poolPort.None? then Some(NoPoolPort(ports[0].containerPort))
    else
      var r := FirstUnpooled(ports[1..]);
      assert forall j :: 0 < j < |ports| ==> ports[j] == ports[1..][j - 1];
      assert r.Some? ==> exists i :: 0 < i < |ports| && ports[i].poolPort.None? && r.value.containerPort == ports[i].containerPort
                                     && forall j :: 0 <= j < i ==> ports[j].poolPort.Some? by {
        if r.Some? {
          var i :| 0 <= i < |ports[1..]| && ports[1..][i].poolPort.None? && r.value.containerPort == ports[1..][i].containerPort
                   && forall j :: 0 <= j < i ==> ports[1..][j].poolPort.Some?;
          assert ports[i + 1] == ports[1..][i];
        }
      }
      r
  }

  /** A bridge without ports is refused as such, and one that passes the count is refused exactly for
      its first port without a pool port. */
  lemma PrecheckCases(ports: seq<BridgePort>, start: int, end: int)
    ensures Precheck(ports, start, end) == Some(NoPorts) <==> ports == []
    ensures Precheck(ports, start, end).None? ==> forall i :: 0 <= i < |ports| ==> ports[i].poolPort.Some?
    ensures var r := Precheck(ports, start, end);
      r.Some? && r.value.NoPoolPort? ==>
        exists i :: 0 <= i < |ports| && ports[i].poolPort.None? && r.value.containerPort == ports[i].containerPort
                    && forall j :: 0 <= j < i ==> ports[j].poolPort.Some?
  {
  }

  /** Gives each bridge port the next client port of the node, counting in 16 bits. */
  method PlanPorts(ports: seq<BridgePort>, start: int, end: int, via: ChannelId) returns (r: Result<Plan, PlanError>)
    ensures r.Err? <==> Precheck(ports, start, end).Some?
    ensures r.Err? ==> Some(r.error) == Precheck(ports, start, end)
    ensures r.Ok? ==> IsPlan(ports, start, r.value) && r.value.via == via
  {
    var refused := Precheck(ports, start, end);
    if refused.Some? {
      return Err(refused.value);
    }
    var clientPort: Port := AsU16(start);
    var portMap: seq<(Port, Port)> := [];
    var overflow: Option<nat> := None;
    for i := 0 to |ports|
      invariant |portMap| == i && clientPort == AsU16(start + i)
      invariant forall j :: 0 <= j < i ==> portMap[j] == (AsU16(start + j), AsU16(ports[j].poolPort.value))
      invariant FirstOverflow(start, i, overflow)
    {
      NextU16(start + i);
      OverflowNext(start, i, overflow);
      var poolPort := AsU16(ports[i].poolPort.value);
      portMap := portMap + [(clientPort, poolPort)];
      if clientPort == 0xFFFF && overflow.None? {
        overflow := Some(i);
      }
      clientPort := (clientPort as int + 1) % 0x10000;
    }
    var docker := seq(|ports|, i requires 0 <= i < |ports| => (portMap[i].0, AsU16(ports[i].containerPort)));
    r := Ok(Plan(portMap, docker, overflow, via));
  }

  /** The first of `n` increments from `start` that steps past 65535, if one does. */
  ghost predicate FirstOverflow(start: int, n: nat, overflow: Option<nat>) {
    match overflow
    case None => AsU16(start) as int + n <= 0xFFFF
    case Some(k) => k < n && AsU16(start) as int + k == 0xFFFF
  }

  lemma NextU16(n: int)
    ensures AsU16(n + 1) == (AsU16(n) as int + 1) % 0x10000
  {
  }

  lemma OverflowNext(start: int, i: nat, overflow: Option<nat>)
    requires FirstOverflow(start, i, overflow)
    ensures FirstOverflow(start, i + 1, if AsU16(start + i) == 0xFFFF && overflow.None? then Some(i) else overflow)
  {
  }

  ghost predicate IsPlan(ports: seq<BridgePort>, start: int, plan: Plan) {
    && |plan.ports| == |plan.docker| == |ports|
    && (forall i :: 0 <= i < |ports| ==> ports[i].poolPort.Some?)
    && (forall i :: 0 <= i < |ports| ==> plan.ports[i] == (AsU16(start + i), AsU16(ports[i].poolPort.value)))
    && (forall i :: 0 <= i < |ports| ==> plan.docker[i] == (AsU16(start + i), AsU16(ports[i].containerPort)))
    && FirstOverflow(start, |ports|, plan.overflow)
  }

  /** On a real port range, and for fewer than 2^16 bridge ports, an accepted plan counts up
      inside the range without repeating a port; the only increment that can overflow is the
      unused one after port 65535. */
  lemma PlanIsSound(ports: seq<BridgePort>, start: int, end: int, plan: Plan)
    requires 0 <= start <= end <= 0xFFFF && |ports| < 0x10000
    requires Precheck(ports, start, end).None? && IsPlan(ports, start, plan)
    ensures forall i :: 0 <= i < |ports| ==> plan.ports[i].0 == start + i <= end && plan.docker[i].0 == start + i
    ensures forall i, j :: 0 <= i < j < |ports| ==> plan.ports[i].0 != plan.ports[j].0
    ensures plan.overflow.Some? <==> start + |ports| == 0x10000
    ensures plan.overflow.Some? ==> plan.overflow.value == |ports| - 1 && end == 0xFFFF
  {
    RangeHolds(ports, start, end);
    forall i | 0 <= i < |ports| ensures plan.ports[i].0 == plan.docker[i].0 == start + i {
      assert 0 <= start + i < 0x10000;
    }
  }

  /** An accepted deployment fits into the node's range. */
  lemma RangeHolds(ports: seq<BridgePort>, start: int, end: int)
    requires 0 <= start <= end <= 0xFFFF && |ports| < 0x10000 && Precheck(ports, start, end).None?
    ensures 0 < |ports| <= end - start + 1
  {
    assert end - start + 1 < 0x10000 ==> AsU16(end - start + 1) == end - start + 1;
  }

  /** With 2^16 or more bridge ports the wrapped count passes the check and the counter
      overflows before the last port exactly when the ports do not fit above `start`. */
  lemma PlanOverflowsIff(ports: seq<BridgePort>, start: int, end: int, plan: Plan)
    requires 0 <= start <= end <= 0xFFFF
    requires Precheck(ports, start, end).None? && IsPlan(ports, start, plan)
    ensures (plan.overflow.Some? && plan.overflow.value < |ports| - 1) <==> start + |ports| > 0x10000
    ensures start + |ports| > 0x10000 ==> |ports| >= 0x10000
  {
  }

  /** A deployment is refused for too few ports exactly when it needs more than the node's range
      holds, or when that range is all 65536 ports, whose count wraps to zero. */
  lemma TooFewPortsIff(ports: seq<BridgePort>, start: int, end: int)
    requires 0 <= start <= end <= 0xFFFF && 0 < |ports| < 0x10000
    ensures var refusal := Precheck(ports, start, end);
      refusal.Some? && refusal.value.TooFewPorts? <==> |ports| > end - start + 1 || (start == 0 && end == 0xFFFF)
  {
  }

  /** So a node that offers all ports never gets a deployment. */
  lemma FullRangeIsRefused(ports: seq<BridgePort>)
    requires 0 < |ports| < 0x10000
    ensures Precheck(ports, 0, 0xFFFF) == Some(TooFewPorts(0, |ports|))
  {
  }

  // ---- State ----

  type Key = (string, string)  // connection name, node uuid

  /** An entry of the list of active forwards.  Its loops end when they are told to, or at the next
      visitor after their channel is gone; the entry stays. */
  datatype Forward = Forward(serverPort: Port, localPort: Port, tcp: bool, udp: bool, channel: ChannelId)

  datatype Ctl = Ctl(routes: Table, tracker: map<Key, seq<Port>>, forwards: seq<Forward>, pool: P.Pool)

  /** The path a bridge port asks for, if it is in route mode. */
  function Wanted(p: BridgePort): Option<string> {
    if p.mode == "route" then p.routePath else None
  }

  predicate Names(list: string, protocol: string) {
    exists i :: 0 <= i < |Split(list, ',')| && Trim(Split(list, ',')[i]) == protocol
  }

  /** The bridge port names the protocol; without a list it names tcp. */
  predicate Uses(p: BridgePort, protocol: string) {
    Names(if p.protocols.Some? then p.protocols.value else "tcp", protocol)
  }

  /** A TCP loop is started if tcp is named, and also if neither protocol is. */
  function ForwardFor(p: BridgePort, ports: (Port, Port), via: ChannelId): Forward {
    Forward(ports.1, ports.0, Uses(p, "tcp") || !Uses(p, "udp"), Uses(p, "udp"), via)
  }

  /** The routes of the first `k` bridge ports. */
  function RoutedBy(ports: seq<BridgePort>, plan: Plan, k: nat): Table
    requires k <= |ports| && |plan.ports| == |ports|
  {
    if k == 0 then map[]
    else
      match Wanted(ports[k - 1])
      case None => RoutedBy(ports, plan, k - 1)
      case Some(path) => RoutedBy(ports, plan, k - 1)[path := plan.ports[k - 1].1]
  }

  function ForwardsOf(ports: seq<BridgePort>, plan: Plan, k: nat): seq<Forward>
    requires k <= |ports| && |plan.ports| == |ports|
  {
    seq(k, i requires 0 <= i < k => ForwardFor(ports[i], plan.ports[i], plan.via))
  }

  /** Bridge port `k` can be routed after the ones before it. */
  predicate CanRoute(routes: Table, ports: seq<BridgePort>, plan: Plan, k: nat)
    requires k < |ports| && |plan.ports| == |ports|
  {
    match Wanted(ports[k])
    case None => true
    case Some(path) => !IsAdminPath(path) && path !in routes && path !in RoutedBy(ports, plan, k)
  }

  /** The commit has gone through the first `k` ports of a deployment. */
  function CommittedTo(c: Ctl, key: Key, ports: seq<BridgePort>, plan: Plan, k: nat): Ctl
    requires k <= |ports| && |plan.ports| == |ports|
  {
    c.(tracker := c.tracker[key := ServerPorts(plan)],
       routes := c.routes + RoutedBy(ports, plan, k),
       forwards := c.forwards + ForwardsOf(ports, plan, k))
  }

  function ServerPorts(plan: Plan): seq<Port> {
    seq(|plan.ports|, i requires 0 <= i < |plan.ports| => plan.ports[i].1)
  }

  function WithoutPorts(routes: Table, ports: seq<Port>): Table {
    map q | q in routes && routes[q] !in ports :: routes[q]
  }

  function ReleaseAll(pool: P.Pool, ports: seq<Port>): P.Pool {
    P.Pool(pool.free + (set p | p in ports && p in pool.held), pool.held - (set p | p in ports))
  }

  function Unforward(forwards: seq<Forward>, ports: seq<Port>): seq<Forward> {
    if forwards == [] then []
    else (if forwards[0].serverPort in ports then [] else [forwards[0]]) + Unforward(forwards[1..], ports)
  }

  /** Stopping a deployment takes its routes, forwards and tracker entry away and gives its
      ports back to the pool. */
  function Stopped(c: Ctl, key: Key): Ctl {
    if key !in c.tracker then c
    else
      var ports := c.tracker[key];
      Ctl(WithoutPorts(c.routes, ports), c.tracker - {key}, Unforward(c.forwards, ports), ReleaseAll(c.pool, ports))
  }

  function KeysOf(c: Ctl, node: string): set<Key> {
    set k | k in c.tracker && k.1 == node
  }

  function PortsOf(c: Ctl, node: string): set<Port> {
    set k, p | k in c.tracker && k.1 == node && p in c.tracker[k] :: p
  }

  /** Losing a node does the same for all its deployments, but its forwards stay. */
  function Disconnected(c: Ctl, node: string): Ctl {
    var ports := PortsOf(c, node);
    Ctl(map q | q in c.routes && c.routes[q] !in ports :: c.routes[q],
        c.tracker - KeysOf(c, node), c.forwards,
        P.Pool(c.pool.free + (ports * c.pool.held.Keys), c.pool.held - ports))
  }
}
