/**
 The pre-bound port pool.  `Pool` is its abstract state; the class is proved against it.
 */
module PortPool {
  import opened Basics
  import Spec = PortSpec
  import Text

  /** `held` maps a server port to the digest that holds it and to its local port. */
  datatype Pool = Pool(free: set<Port>, held: map<Port, (Bytes, Port)>)

  function ToSet(ports: seq<Port>): set<Port> {
    set p | p in ports
  }

  // ---- Ranks: the i-th smallest element of a set ----

  ghost function Below(s: set<Port>, p: Port): set<Port> {
    set q | q in s && q < p
  }

  /** How many elements of `s` are smaller than `p`. */
  ghost function Rank(s: set<Port>, p: Port): nat {
    |Below(s, p)|
  }

  /** The `n` smallest elements of `s`. */
  ghost function Lowest(s: set<Port>, n: nat): set<Port> {
    set p | p in s && Rank(s, p) < n
  }

  lemma SubsetSize<T>(a: set<T>, b: set<T>)
    requires a <= b
    ensures |a| <= |b| && (|a| == |b| ==> a == b)
  {
    assert b == a + (b - a);
    assert |b| == |a| + |b - a|;
  }

  lemma RankOrders(s: set<Port>, p: Port, q: Port)
    requires p in s && p < q
    ensures Rank(s, p) < Rank(s, q)
  {
    assert Below(s, p) <= Below(s, q) && p in Below(s, q) && p !in Below(s, p);
    SubsetSize(Below(s, p), Below(s, q));
  }

  /** A lower part `low` of `s`, everything in it smaller than everything outside it, holds
      exactly the elements of rank below its size. */
  lemma LowerPart(s: set<Port>, low: set<Port>)
    requires low <= s && forall p, q :: p in low && q in s && q !in low ==> p < q
    ensures low == Lowest(s, |low|)
    ensures forall q :: q in s && q !in low && (forall r :: r in s && r !in low ==> q <= r) ==> Rank(s, q) == |low|
  {
    forall p | p in low ensures Rank(s, p) < |low| {
      assert Below(s, p) <= low && p !in Below(s, p);
      SubsetSize(Below(s, p), low);
    }
    forall q | q in s && q !in low ensures Rank(s, q) >= |low| {
      assert low <= Below(s, q);
      SubsetSize(low, Below(s, q));
    }
    forall q | q in s && q !in low && (forall r :: r in s && r !in low ==> q <= r) ensures Rank(s, q) == |low| {
      assert Below(s, q) == low;
    }
  }

  /** Adding the smallest element outside a lower part gives the next larger lower part. */
  lemma NextLowest(s: set<Port>, low: set<Port>, q: Port)
    requires low <= s && forall p, r :: p in low && r in s && r !in low ==> p < r
    requires q in s && q !in low && forall r :: r in s && r !in low ==> q <= r
    ensures Rank(s, q) == |low| && |low + {q}| == |low| + 1
    ensures forall p, r :: p in low + {q} && r in s && r !in low + {q} ==> p < r
    ensures Lowest(s, |low| + 1) == low + {q}
  {
    LowerPart(s, low);
    var more := low + {q};
    forall p, r | p in more && r in s && r !in more ensures p < r {
      assert q <= r && q != r;
    }
    LowerPart(s, more);
  }

  lemma LowestIsLower(s: set<Port>, n: nat)
    ensures forall p, r :: p in Lowest(s, n) && r in s && r !in Lowest(s, n) ==> p < r
  {
    forall p, r | p in Lowest(s, n) && r in s && r !in Lowest(s, n) ensures p < r {
      if r < p { RankOrders(s, r, p); }
    }
  }

  lemma OutsideLower(s: set<Port>, low: set<Port>) returns (q: Port)
    requires low <= s && |low| < |s|
    ensures q in s && q !in low && forall r :: r in s && r !in low ==> q <= r
  {
    assert |s - low| == |s| - |low|;
    q := Smallest(s - low);
    assert forall r :: r in s && r !in low ==> r in s - low;
  }

  /** Every rank below the size belongs to some element: the set has an i-th smallest for each i. */
  lemma {:induction false} LowestSize(s: set<Port>, n: nat)
    requires n <= |s|
    ensures |Lowest(s, n)| == n
    ensures n > 0 ==> exists p :: p in s && Rank(s, p) == n - 1
  {
    if n == 0 {
      assert Lowest(s, 0) == {};
    } else {
      LowestSize(s, n - 1);
      var q := LowestGrows(s, n - 1);
      assert q in s && Rank(s, q) == n - 1;
    }
  }

  lemma LowestGrows(s: set<Port>, n: nat) returns (q: Port)
    requires n < |s| && |Lowest(s, n)| == n
    ensures q in s && Rank(s, q) == n && |Lowest(s, n + 1)| == n + 1
  {
    var low := Lowest(s, n);
    LowestIsLower(s, n);
    q := OutsideLower(s, low);
    NextLowest(s, low, q);
  }

  lemma {:induction false} Smallest(s: set<Port>) returns (p: Port)
    requires s != {}
    ensures p in s && forall q :: q in s ==> p <= q
    decreases s
  {
    var first :| first in s;
    var rest := s - {first};
    p := first;
    if rest != {} {
      var q := Smallest(rest);
      if q < first { p := q; }
    }
    assert forall r :: r in s ==> r == first || r in rest;
  }

  // ---- Operations on the abstract pool ----

  ghost function Assign(pool: Pool, digest: Bytes, locals: seq<Port>): Pool
    requires |locals| <= |pool.free|
  {
    var taken := Lowest(pool.free, |locals|);
    Pool(pool.free - taken,
         pool.held + map p | p in taken :: (digest, locals[Rank(pool.free, p)]))
  }

  function HeldBy(pool: Pool, digest: Bytes): set<Port> {
    set p | p in pool.held && pool.held[p].0 == digest
  }

  function ReleaseClient(pool: Pool, digest: Bytes): Pool {
    Pool(pool.free + HeldBy(pool, digest), pool.held - HeldBy(pool, digest))
  }

  function ReleasePort(pool: Pool, port: Port): Pool {
    if port in pool.held then Pool(pool.free + {port}, pool.held - {port}) else pool
  }

  /** Reserving one port for a bridge: the smallest free one, held by nobody. */
  ghost function Reserve(pool: Pool): Pool {
    if pool.free == {} then pool else Assign(pool, [], [0])
  }

  datatype Op =
    | AssignOp(digest: Bytes, locals: seq<Port>)
    | ReleaseClientOp(digest: Bytes)
    | ReleasePortOp(port: Port)
    | ReserveOp

  /** All-or-nothing: an assignment that does not fit changes nothing. */
  ghost function Apply(pool: Pool, op: Op): Pool {
    match op
    case AssignOp(d, locals) => if |locals| <= |pool.free| then Assign(pool, d, locals) else pool
    case ReleaseClientOp(d) => ReleaseClient(pool, d)
    case ReleasePortOp(p) => ReleasePort(pool, p)
    case ReserveOp => Reserve(pool)
  }

  ghost function ApplyAll(pool: Pool, ops: seq<Op>): Pool
    decreases |ops|
  {
    if ops == [] then pool else ApplyAll(Apply(pool, ops[0]), ops[1..])
  }

  /** Free and assigned ports partition the bound ones. */
  ghost predicate Partition(pool: Pool, bound: set<Port>) {
    pool.free + pool.held.Keys == bound && pool.free !! pool.held.Keys
  }

  lemma AssignKeepsPartition(pool: Pool, digest: Bytes, locals: seq<Port>, bound: set<Port>)
    requires Partition(pool, bound) && |locals| <= |pool.free|
    ensures Partition(Assign(pool, digest, locals), bound)
  {
    AssignedForm(pool, digest, locals);
    PartitionMoves(pool, Assign(pool, digest, locals), Lowest(pool.free, |locals|), bound);
  }

  /** Ports that go from the free to the held ones stay within the partition. */
  lemma PartitionMoves(pool: Pool, mid: Pool, taken: set<Port>, bound: set<Port>)
    requires Partition(pool, bound) && taken <= pool.free
    requires mid.free == pool.free - taken && mid.held.Keys == pool.held.Keys + taken
    ensures Partition(mid, bound)
  {
  }

  lemma StepKeepsPartition(pool: Pool, op: Op, bound: set<Port>)
    requires Partition(pool, bound)
    ensures Partition(Apply(pool, op), bound)
  {
    match op
    case AssignOp(d, locals) =>
      AssignStepKeepsPartition(pool, d, locals, bound);
    case ReleaseClientOp(d) =>
      ReleaseClientKeepsPartition(pool, d, bound);
    case ReleasePortOp(p) =>
      ReleasePortKeepsPartition(pool, p, bound);
    case ReserveOp =>
      ReserveKeepsPartition(pool, bound);
  }

  lemma AssignStepKeepsPartition(pool: Pool, digest: Bytes, locals: seq<Port>, bound: set<Port>)
    requires Partition(pool, bound)
    ensures Partition(Apply(pool, AssignOp(digest, locals)), bound)
  {
    if |locals| <= |pool.free| {
      AssignKeepsPartition(pool, digest, locals, bound);
    }
  }

  lemma ReleaseClientKeepsPartition(pool: Pool, digest: Bytes, bound: set<Port>)
    requires Partition(pool, bound)
    ensures Partition(Apply(pool, ReleaseClientOp(digest)), bound)
  {
    ReturnKeepsPartition(pool, HeldBy(pool, digest), bound);
  }

  lemma ReleasePortKeepsPartition(pool: Pool, port: Port, bound: set<Port>)
    requires Partition(pool, bound)
    ensures Partition(Apply(pool, ReleasePortOp(port)), bound)
  {
    if port in pool.held {
      ReturnKeepsPartition(pool, {port}, bound);
    }
  }

  lemma ReserveKeepsPartition(pool: Pool, bound: set<Port>)
    requires Partition(pool, bound)
    ensures Partition(Apply(pool, ReserveOp), bound)
  {
    if pool.free != {} {
      assert |pool.free| >= 1;
      AssignKeepsPartition(pool, [], [0], bound);
    }
  }

  lemma ReturnKeepsPartition(pool: Pool, gone: set<Port>, bound: set<Port>)
    requires Partition(pool, bound) && gone <= pool.held.Keys
    ensures Partition(Pool(pool.free + gone, pool.held - gone), bound)
  {
  }

  /** Over every run of operations the bound ports stay partitioned and none is lost or made. */
  lemma {:induction false} RunKeepsPartition(pool: Pool, ops: seq<Op>, bound: set<Port>)
    requires Partition(pool, bound)
    ensures Partition(ApplyAll(pool, ops), bound)
    ensures |ApplyAll(pool, ops).free| + |ApplyAll(pool, ops).held| == |bound|
    decreases |ops|
  {
    if ops == [] {
      assert |pool.free + pool.held.Keys| == |pool.free| + |pool.held.Keys|;
    } else {
      StepKeepsPartition(pool, ops[0], bound);
      RunKeepsPartition(Apply(pool, ops[0]), ops[1..], bound);
    }
  }

  /** Assigning to a client and releasing that client restores the pool exactly when the
      client held nothing before. */
  lemma AssignThenReleaseIff(pool: Pool, digest: Bytes, locals: seq<Port>, bound: set<Port>)
    requires Partition(pool, bound)
    ensures Apply(Apply(pool, AssignOp(digest, locals)), ReleaseClientOp(digest)) == pool
      <==> HeldBy(pool, digest) == {}
  {
    var mid := Apply(pool, AssignOp(digest, locals));
    var taken := if |locals| <= |pool.free| then Lowest(pool.free, |locals|) else {};
    if |locals| <= |pool.free| {
      AssignedForm(pool, digest, locals);
    }
    ReleasedForm(pool, mid, digest, taken);
    var own := HeldBy(pool, digest);
    if own != {} {
      var p :| p in own;
      assert p in ReleaseClient(mid, digest).free && p !in pool.free;
    }
  }

  /** An assignment moves `taken` from the free ports to the client and touches nothing else. */
  lemma AssignedForm(pool: Pool, digest: Bytes, locals: seq<Port>)
    requires |locals| <= |pool.free|
    ensures var mid := Assign(pool, digest, locals);
      var taken := Lowest(pool.free, |locals|);
      && mid.held.Keys == pool.held.Keys + taken
      && (forall p :: p in taken ==> mid.held[p].0 == digest)
      && (forall p :: p in pool.held && p !in taken ==> mid.held[p] == pool.held[p])
  {
  }

  /** An assignment gives the i-th smallest free port, for each i, to the client with the i-th local
      port. */
  lemma AssignsInOrder(pool: Pool, digest: Bytes, locals: seq<Port>, i: nat) returns (p: Port)
    requires |locals| <= |pool.free| && i < |locals|
    ensures p in pool.free && Rank(pool.free, p) == i
    ensures var t := Apply(pool, AssignOp(digest, locals));
      p !in t.free && p in t.held && t.held[p] == (digest, locals[i])
  {
    LowestSize(pool.free, i + 1);
    p :| p in pool.free && Rank(pool.free, p) == i;
    assert p in Lowest(pool.free, |locals|);
  }

  /** A release frees exactly the ports its client holds; every other port stays as it is. */
  lemma ReleaseIsExact(pool: Pool, digest: Bytes, bound: set<Port>, p: Port)
    requires Partition(pool, bound)
    ensures var t := Apply(pool, ReleaseClientOp(digest));
      && (p in t.held <==> p in pool.held && pool.held[p].0 != digest)
      && (p in t.held ==> t.held[p] == pool.held[p])
      && (p in t.free <==> p in pool.free || (p in pool.held && pool.held[p].0 == digest))
  {
  }

  lemma ReleasedForm(pool: Pool, mid: Pool, digest: Bytes, taken: set<Port>)
    requires taken <= pool.free && pool.free !! pool.held.Keys
    requires mid.free == pool.free - taken && mid.held.Keys == pool.held.Keys + taken
    requires forall p :: p in taken ==> mid.held[p].0 == digest
    requires forall p :: p in pool.held && p !in taken ==> mid.held[p] == pool.held[p]
    ensures ReleaseClient(mid, digest) == ReleaseClient(pool, digest)
    ensures HeldBy(pool, digest) == {} ==> ReleaseClient(pool, digest) == pool
  {
  }

  /** Reserving a port and giving it straight back changes nothing. */
  lemma ReserveThenRelease(pool: Pool, bound: set<Port>, p: Port)
    requires Partition(pool, bound) && p in pool.free && forall q :: q in pool.free ==> p <= q
    ensures Reserve(pool) == Pool(pool.free - {p}, pool.held[p := ([], 0)])
    ensures ReleasePort(Reserve(pool), p) == pool
  {
    assert {p} <= pool.free;
    LowerPart(pool.free, {});
    assert Below(pool.free, p) == {};
    assert Lowest(pool.free, 1) == {p} by {
      forall q | q in pool.free && q != p ensures Rank(pool.free, q) >= 1 {
        RankOrders(pool.free, p, q);
      }
    }
  }

  // ---- The pool as an object ----

  datatype OpenError = EmptyPool | InUse(port: Port)

  class PortPool {
    var free: set<Port>
    var assignments: map<Port, (Bytes, Port)>
    const listeners: set<Port>
    const total: int

    ghost function View(): (pool: Pool)
      reads this
    {
      Pool(free, assignments)
    }

    ghost predicate Valid()
      reads this
    {
      Partition(View(), listeners)
    }

    constructor (ports: seq<Port>)
      ensures View() == Pool(ToSet(ports), map[]) && Valid()
      ensures listeners == ToSet(ports) && total == |ports| % 0x10000
    {
      free, assignments := ToSet(ports), map[];
      listeners, total := ToSet(ports), |ports| % 0x10000;
    }

    /** Takes the smallest free port out of the free set. */
    method PopFirst() returns (port: Port)
      requires free != {}
      modifies this`free
      ensures port in old(free) && (forall q :: q in old(free) ==> port <= q) && free == old(free) - {port}
    {
      port :| port in free;
      var rest := free - {port};
      while rest != {}
        invariant rest <= free && port in free && port !in rest
        invariant forall q :: q in free && q !in rest ==> port <= q
        decreases rest
      {
        var q :| q in rest;
        rest := rest - {q};
        if q < port {
          port := q;
        }
      }
      free := free - {port};
    }

    /** Assigns one server port per local port, the i-th local port getting the i-th smallest
        free one; a repeated local port keeps its last server port in the mapping. */
    method Assign(digest: Bytes, locals: seq<Port>) returns (r: Result<map<Port, Port>, (int, int)>)
      requires Valid()
      modifies this`free, this`assignments
      ensures Valid() && View() == Apply(old(View()), AssignOp(digest, locals))
      ensures r.Ok? <==> |locals| <= |old(free)|
      ensures r.Err? ==> r.error == (|locals|, |old(free)|)
      ensures r.Ok? ==> Mapped(r.value, locals, |locals|, old(free))
    {
      if |free| < |locals| {
        return Err((|locals|, |free|));
      }
      ghost var before := View();
      ghost var taken: set<Port> := {};
      var mapping: map<Port, Port> := map[];
      ProgressStart(before, digest, locals);
      for i := 0 to |locals|
        invariant Progress(before, View(), taken, mapping, i, digest, locals)
      {
        ghost var now := View();
        StillFree(before, now, taken, mapping, i, digest, locals);
        var port := PopFirst();
        assignments := assignments[port := (digest, locals[i])];
        ProgressStep(before, now, taken, mapping, i, digest, locals, port);
        taken := taken + {port};
        mapping := mapping[locals[i] := port];
      }
      ProgressEnd(before, View(), taken, mapping, digest, locals, listeners);
      r := Ok(mapping);
    }

    /** Releases every port a client holds. */
    method ReleaseClient(digest: Bytes)
      requires Valid()
      modifies this`free, this`assignments
      ensures Valid() && View() == Apply(old(View()), ReleaseClientOp(digest))
    {
      var toFree := set p | p in assignments && assignments[p].0 == digest;
      ghost var held := toFree;
      while toFree != {}
        invariant toFree <= held
        invariant assignments == old(assignments) - (held - toFree)
        invariant free == old(free) + (held - toFree)
        decreases toFree
      {
        var port :| port in toFree;
        toFree := toFree - {port};
        assignments := assignments - {port};
        free := free + {port};
      }
      assert held - toFree == held;
    }

    method ReleaseByPort(port: Port)
      requires Valid()
      modifies this`free, this`assignments
      ensures Valid() && View() == Apply(old(View()), ReleasePortOp(port))
    {
      if port in assignments {
        assignments := assignments - {port};
        free := free + {port};
      }
    }

    /** Reserves the smallest free port, if there is one. */
    method ReserveOne() returns (r: Option<Port>)
      requires Valid()
      modifies this`free, this`assignments
      ensures Valid() && View() == Apply(old(View()), ReserveOp)
      ensures r.None? <==> old(free) == {}
      ensures r.Some? ==> r.value in old(free) && forall q :: q in old(free) ==> r.value <= q
    {
      if free == {} {
        return None;
      }
      ghost var before := View();
      var port := PopFirst();
      ReserveThenRelease(before, listeners, port);
      assignments := assignments[port := ([], 0)];
      r := Some(port);
    }
  }

  /** Position `i` is the last one below `n` that holds its local port. */
  predicate LastAt(locals: seq<Port>, i: nat, n: nat)
    requires i < |locals| && n <= |locals|
  {
    forall j :: i < j < n ==> locals[j] != locals[i]
  }

  /** Among the first `n` local ports each distinct one is mapped to the free port whose rank
      is its last position. */
  ghost predicate Mapped(mapping: map<Port, Port>, locals: seq<Port>, n: nat, free: set<Port>)
    requires n <= |locals|
  {
    && mapping.Keys == ToSet(locals[..n])
    && forall j :: 0 <= j < n && LastAt(locals, j, n) ==>
         locals[j] in mapping && mapping[locals[j]] in free && Rank(free, mapping[locals[j]]) == j
  }

  lemma ToSetSnoc(locals: seq<Port>, i: nat)
    requires i < |locals|
    ensures ToSet(locals[..i + 1]) == ToSet(locals[..i]) + {locals[i]}
  {
  }

  lemma MapNext(mapping: map<Port, Port>, locals: seq<Port>, i: nat, free: set<Port>, port: Port)
    requires i < |locals| && Mapped(mapping, locals, i, free) && port in free && Rank(free, port) == i
    ensures Mapped(mapping[locals[i] := port], locals, i + 1, free)
  {
    var next := mapping[locals[i] := port];
    ToSetSnoc(locals, i);
    assert next.Keys == mapping.Keys + {locals[i]};
    forall j | 0 <= j < i && LastAt(locals, j, i + 1)
      ensures locals[j] in next && next[locals[j]] in free && Rank(free, next[locals[j]]) == j
    {
      assert LastAt(locals, j, i) && locals[i] != locals[j];
    }
    assert next[locals[i]] == port;
  }

  /** `now` is `before` plus the ports of `taken`, each with the local port of its rank. */
  ghost predicate Given(before: map<Port, (Bytes, Port)>, now: map<Port, (Bytes, Port)>, taken: set<Port>,
                        free: set<Port>, digest: Bytes, locals: seq<Port>) {
    && now.Keys == before.Keys + taken
    && (forall p :: p in taken ==> Rank(free, p) < |locals| && now[p] == (digest, locals[Rank(free, p)]))
    && (forall p :: p in before && p !in taken ==> now[p] == before[p])
  }

  lemma GiveNext(before: map<Port, (Bytes, Port)>, now: map<Port, (Bytes, Port)>, taken: set<Port>,
                 free: set<Port>, digest: Bytes, locals: seq<Port>, port: Port)
    requires Given(before, now, taken, free, digest, locals)
    requires port !in taken && Rank(free, port) < |locals|
    ensures Given(before, now[port := (digest, locals[Rank(free, port)])], taken + {port}, free, digest, locals)
  {
  }

  /** How far an assignment has come after `i` local ports. */
  ghost predicate Progress(before: Pool, now: Pool, taken: set<Port>, mapping: map<Port, Port>, i: nat,
                           digest: Bytes, locals: seq<Port>) {
    && i <= |locals| && |taken| == i && taken <= before.free && now.free == before.free - taken
    && (forall p, q :: p in taken && q in before.free && q !in taken ==> p < q)
    && Given(before.held, now.held, taken, before.free, digest, locals)
    && Mapped(mapping, locals, i, before.free)
  }

  lemma ProgressStart(before: Pool, digest: Bytes, locals: seq<Port>)
    ensures Progress(before, before, {}, map[], 0, digest, locals)
  {
  }

  lemma StillFree(before: Pool, now: Pool, taken: set<Port>, mapping: map<Port, Port>, i: nat,
                  digest: Bytes, locals: seq<Port>)
    requires i < |locals| <= |before.free| && Progress(before, now, taken, mapping, i, digest, locals)
    ensures now.free != {}
  {
  }

  /** The smallest port left becomes the next one taken. */
  lemma TakeNext(all: set<Port>, left: set<Port>, taken: set<Port>, port: Port)
    requires taken <= all && left == all - taken && forall p, q :: p in taken && q in all && q !in taken ==> p < q
    requires port in left && forall q :: q in left ==> port <= q
    ensures port !in taken && taken + {port} <= all && left - {port} == all - (taken + {port})
    ensures |taken + {port}| == |taken| + 1 && Rank(all, port) == |taken|
    ensures forall p, q :: p in taken + {port} && q in all && q !in taken + {port} ==> p < q
  {
    assert forall q :: q in all && q !in taken ==> q in left;
    NextLowest(all, taken, port);
  }

  lemma ProgressStep(before: Pool, now: Pool, taken: set<Port>, mapping: map<Port, Port>, i: nat,
                     digest: Bytes, locals: seq<Port>, port: Port)
    requires i < |locals| && Progress(before, now, taken, mapping, i, digest, locals)
    requires port in now.free && forall q :: q in now.free ==> port <= q
    ensures Progress(before, Pool(now.free - {port}, now.held[port := (digest, locals[i])]), taken + {port},
                     mapping[locals[i] := port], i + 1, digest, locals)
  {
    TakeNext(before.free, now.free, taken, port);
    GiveNext(before.held, now.held, taken, before.free, digest, locals, port);
    MapNext(mapping, locals, i, before.free, port);
  }

  lemma ProgressEnd(before: Pool, now: Pool, taken: set<Port>, mapping: map<Port, Port>,
                    digest: Bytes, locals: seq<Port>, bound: set<Port>)
    requires |locals| <= |before.free| && Progress(before, now, taken, mapping, |locals|, digest, locals)
    requires Partition(before, bound)
    ensures now == Apply(before, AssignOp(digest, locals)) && Partition(now, bound)
  {
    StepKeepsPartition(before, AssignOp(digest, locals), bound);
    LowerPart(before.free, taken);
    GivenAll(before, now, taken, digest, locals);
  }

  lemma GivenAll(before: Pool, now: Pool, taken: set<Port>, digest: Bytes, locals: seq<Port>)
    requires Given(before.held, now.held, taken, before.free, digest, locals)
    requires |locals| <= |before.free| && taken == Lowest(before.free, |locals|) && now.free == before.free - taken
    ensures now == Assign(before, digest, locals)
  {
  }

  /** A port other than 0 can be bound once, and only if no other process has it. */
  ghost predicate Bindable(ports: seq<Port>, i: nat, busy: set<Port>)
    requires i < |ports|
  {
    ports[i] == 0 || (ports[i] !in busy && ports[i] !in ports[..i])
  }

  ghost predicate FirstTaken(ports: seq<Port>, i: nat, busy: set<Port>) {
    && i < |ports| && !Bindable(ports, i, busy)
    && forall j :: 0 <= j < i ==> Bindable(ports, j, busy)
  }

  lemma BindableIff(ports: seq<Port>, busy: set<Port>)
    ensures (forall i :: 0 <= i < |ports| ==> Bindable(ports, i, busy)) <==>
      (forall i :: 0 <= i < |ports| && ports[i] != 0 ==> ports[i] !in busy)
      && forall i, j :: 0 <= i < j < |ports| && ports[i] != 0 ==> ports[i] != ports[j]
  {
    forall j | 0 <= j < |ports|
      ensures Bindable(ports, j, busy) <==> ports[j] == 0 || (ports[j] !in busy && forall i :: 0 <= i < j ==> ports[i] != ports[j])
    {
      assert forall i :: 0 <= i < j ==> ports[..j][i] == ports[i];
    }
  }

  /** Binds every port in order and gives up at the first one that is taken. */
  method Open(ports: seq<Port>, busy: set<Port>) returns (pool: PortPool?, error: Option<OpenError>)
    ensures pool == null <==> error.Some?
    ensures error == Some(EmptyPool) <==> ports == []
    ensures error.None? <==> ports != [] && forall i :: 0 <= i < |ports| ==> Bindable(ports, i, busy)
    ensures error.None? <==>
      && ports != [] && (forall i :: 0 <= i < |ports| && ports[i] != 0 ==> ports[i] !in busy)
      && forall i, j :: 0 <= i < j < |ports| && ports[i] != 0 ==> ports[i] != ports[j]
    ensures error.Some? && error.value.InUse? ==> exists i: nat :: FirstTaken(ports, i, busy) && ports[i] == error.value.port
    ensures pool != null ==> fresh(pool) && pool.Valid() && pool.View() == Pool(ToSet(ports), map[])
    ensures pool != null ==> pool.total == |ports| % 0x10000
  {
    BindableIff(ports, busy);
    if ports == [] {
      return null, Some(EmptyPool);
    }
    var bound: set<Port> := {};
    for i := 0 to |ports|
      invariant bound == ToSet(ports[..i])
      invariant forall j :: 0 <= j < i ==> Bindable(ports, j, busy)
    {
      if ports[i] != 0 && (ports[i] in busy || ports[i] in bound) {
        assert FirstTaken(ports, i, busy);
        return null, Some(InUse(ports[i]));
      }
      bound := bound + {ports[i]};
      assert ports[..i + 1] == ports[..i] + [ports[i]];
    }
    pool := new PortPool(ports);
    error := None;
  }

  datatype NewError = BadSpec(reason: Spec.SpecError) | NotOpened(cause: OpenError)

  /** Starting a pool from its textual specification.  A specification that parses names at least
      one port, so the pool is never refused for being empty. */
  method New(spec: string, busy: set<Port>) returns (pool: PortPool?, error: Option<NewError>)
    ensures pool == null <==> error.Some?
    ensures error != Some(NotOpened(EmptyPool))
    ensures error.Some? && error.value.BadSpec? <==> Spec.ParseParts(Text.Split(spec, ',')).Err?
    ensures pool != null ==> Spec.ParseParts(Text.Split(spec, ',')).Ok? && fresh(pool) && pool.Valid()
    ensures pool != null ==>
      pool.View() == Pool(ToSet(Spec.ParseParts(Text.Split(spec, ',')).value), map[])
  {
    var ports := Spec.ParsePortRange(spec);
    if ports.Err? {
      return null, Some(BadSpec(ports.error));
    }
    var refused;
    pool, refused := Open(ports.value, busy);
    error := if refused.Some? then Some(NotOpened(refused.value)) else None;
  }

  /** How often port 0 is listed. */
  function Zeros(ports: seq<Port>): nat {
    if ports == [] then 0 else Zeros(ports[..|ports| - 1]) + if ports[|ports| - 1] == 0 then 1 else 0
  }

  lemma {:induction false} ZerosListed(ports: seq<Port>)
    ensures Zeros(ports) > 0 <==> 0 in ports
  {
    if ports != [] {
      ZerosListed(ports[..|ports| - 1]);
      assert ports == ports[..|ports| - 1] + [ports[|ports| - 1]];
    }
  }

  lemma DistinctSnoc(ports: seq<Port>, last: Port)
    ensures |ToSet(ports + [last])| == |ToSet(ports)| + if last in ports then 0 else 1
  {
    assert ToSet(ports + [last]) == ToSet(ports) + {last};
    if last in ports {
      assert ToSet(ports) + {last} == ToSet(ports);
    }
  }

  /** Counting in 16 bits. */
  lemma Wraps(n: nat, distinct: nat, surplus: nat)
    requires n == distinct + surplus && distinct <= 0x10000
    ensures n % 0x10000 == distinct <==> surplus % 0x10000 == 0 && distinct < 0x10000
  {
  }

  /** Only port 0 can be listed twice and still be bound each time. */
  lemma {:induction false} OpenedCount(ports: seq<Port>, busy: set<Port>)
    requires forall i :: 0 <= i < |ports| ==> Bindable(ports, i, busy)
    ensures |ports| == |ToSet(ports)| + if Zeros(ports) > 1 then Zeros(ports) - 1 else 0
  {
    if ports != [] {
      var last := |ports| - 1;
      var rest := ports[..last];
      forall i | 0 <= i < last ensures Bindable(rest, i, busy) {
        assert Bindable(ports, i, busy) && rest[..i] == ports[..i];
      }
      OpenedCount(rest, busy);
      ZerosListed(rest);
      DistinctSnoc(rest, ports[last]);
      assert ports == rest + [ports[last]];
      assert Bindable(ports, last, busy);
      assert Zeros(ports) == Zeros(rest) + if ports[last] == 0 then 1 else 0;
    }
  }

  /** The total a pool reports is the number of its ports exactly when the surplus listings of port
      0 are a multiple of 2^16 and not all 65536 ports are bound; so it always is when port 0 is not
      listed. */
  lemma TotalCounts(ports: seq<Port>, busy: set<Port>)
    requires forall i :: 0 <= i < |ports| ==> Bindable(ports, i, busy)
    ensures var zeros := Zeros(ports);
      |ports| % 0x10000 == |ToSet(ports)| <==>
        (zeros > 1 ==> (zeros - 1) % 0x10000 == 0) && |ToSet(ports)| < 0x10000
    ensures 0 !in ports ==> |ports| % 0x10000 == |ToSet(ports)|
  {
    OpenedCount(ports, busy);
    ZerosListed(ports);
    PortsBelow(ToSet(ports), 0x10000);
    Wraps(|ports|, |ToSet(ports)|, if Zeros(ports) > 1 then Zeros(ports) - 1 else 0);
    if 0 !in ports {
      PortsBelow(ToSet(ports) + {0}, 0x10000);
    }
  }

  lemma {:induction false} SetOfSeq(ports: seq<Port>)
    ensures |ToSet(ports)| <= |ports|
    ensures (forall i, j :: 0 <= i < j < |ports| ==> ports[i] != ports[j]) ==> |ToSet(ports)| == |ports|
  {
    if ports != [] {
      var last := |ports| - 1;
      SetOfSeq(ports[..last]);
      assert ports == ports[..last] + [ports[last]];
      assert ToSet(ports) == ToSet(ports[..last]) + {ports[last]};
      if forall i, j :: 0 <= i < j < |ports| ==> ports[i] != ports[j] {
        assert ports[last] !in ports[..last];
      }
    }
  }

  /** At most `n` ports lie below `n`. */
  lemma {:induction false} PortsBelow(s: set<Port>, n: nat)
    requires forall p :: p in s ==> p < n
    ensures |s| <= n
  {
    if n > 0 {
      PortsBelow(s - {n - 1}, n - 1);
    } else {
      assert s == {};
    }
  }
}
