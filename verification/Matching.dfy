/**
 Matching data-channel streams to the accept loops that wait for one, on one control channel.

 A loop that has a visitor first asks the client for a stream and then queues a callback; the
 two are separate steps.  Streams come in one at a time and go to the first queued callback, or
 else to the connection pool.
 */
module Matching {
  import opened Chains

  type LoopId = nat
  type StreamId = nat

  const POOL_REQUESTS: nat := 8

  datatype Consumer = Loop(id: LoopId) | Pool | Lost

  /** `requested` are loops between asking and queueing, `waiting` loops blocked on their stream;
      `poolAsked` counts what the connection pool asked for after its first eight; `pushed` is every
      callback ever queued, in order; `log` says where the i-th stream ever accepted went. */
  datatype Lane = Lane(
    pending: seq<LoopId>, callbacks: seq<LoopId>, requested: set<LoopId>, waiting: set<LoopId>,
    asked: nat, poolAsked: nat, pushed: seq<LoopId>, streams: seq<StreamId>, log: seq<Consumer>)

  function Fresh(): Lane {
    Lane([], [], {}, {}, POOL_REQUESTS, 0, [], [], [])
  }

  datatype Step =
    | Ask(loop: LoopId)
    | Register(loop: LoopId)
    | Visit(loop: LoopId)                        // asking and queueing in one go
    | PoolAsk                                    // a visitor of the pool's own listener, or a failed write
    | Arrive(stream: StreamId, poolOpen: bool)

  /** Requests the client has not answered yet. */
  function Outstanding(l: Lane): int {
    l.asked - |l.streams|
  }

  /** A loop serves one visitor at a time, and no stream comes in twice. */
  ghost predicate Possible(l: Lane, step: Step) {
    match step
    case Ask(loop) => loop !in l.requested && loop !in l.waiting
    case Register(loop) => loop in l.requested
    case Visit(loop) => loop !in l.requested && loop !in l.waiting
    case PoolAsk => true
    case Arrive(stream, _) => stream !in l.streams
  }

  function Queued(l: Lane, loop: LoopId): Lane {
    l.(callbacks := l.callbacks + [loop], pushed := l.pushed + [loop], waiting := l.waiting + {loop})
  }

  function Next(l: Lane, step: Step): Lane {
    match step
    case Ask(loop) => l.(requested := l.requested + {loop}, asked := l.asked + 1)
    case Register(loop) => Queued(l.(requested := l.requested - {loop}), loop)
    case Visit(loop) => Queued(l.(asked := l.asked + 1), loop)
    case PoolAsk => l.(asked := l.asked + 1, poolAsked := l.poolAsked + 1)
    case Arrive(stream, poolOpen) =>
      var seen := l.(streams := l.streams + [stream]);
      if l.pending != [] then Fired(seen.(pending := l.pending[1..]), l.pending[0])
      else if l.callbacks != [] then Fired(seen.(callbacks := l.callbacks[1..]), l.callbacks[0])
      else seen.(log := l.log + [if poolOpen then Pool else Lost])
  }

  /** A loop receives the stream it waited for. */
  function Fired(l: Lane, loop: LoopId): Lane {
    l.(log := l.log + [Loop(loop)], waiting := l.waiting - {loop})
  }

  /** The loops served so far, in the order of their streams. */
  function Served(log: seq<Consumer>): seq<LoopId> {
    if log == [] then []
    else Served(log[..|log| - 1]) + if log[|log| - 1].Loop? then [log[|log| - 1].id] else []
  }

  /** How many streams passed every loop by. */
  function Passed(log: seq<Consumer>): nat {
    if log == [] then 0
    else Passed(log[..|log| - 1]) + if log[|log| - 1].Loop? then 0 else 1
  }

  lemma LogSnoc(log: seq<Consumer>, c: Consumer)
    ensures Served(log + [c]) == Served(log) + if c.Loop? then [c.id] else []
    ensures Passed(log + [c]) == Passed(log) + if c.Loop? then 0 else 1
  {
  }

  // ---- What every step keeps ----

  ghost predicate Distinct<T>(s: seq<T>) {
    forall i, j :: 0 <= i < j < |s| ==> s[i] != s[j]
  }

  ghost predicate Inv(l: Lane) {
    && l.pending == []
    && |l.log| == |l.streams| && Distinct(l.streams)
    && l.pushed == Served(l.log) + l.callbacks
    && Distinct(l.callbacks) && (forall loop :: loop in l.callbacks <==> loop in l.waiting)
    && l.waiting !! l.requested
    && l.asked == POOL_REQUESTS + l.poolAsked + |l.requested| + |l.pushed|
    && |l.log| == |Served(l.log)| + Passed(l.log)
  }

  lemma QueueingKeepsInv(l: Lane, loop: LoopId)
    requires l.pushed == Served(l.log) + l.callbacks && Distinct(l.callbacks)
    requires (forall k :: k in l.callbacks <==> k in l.waiting) && loop !in l.waiting
    ensures var t := Queued(l, loop);
      && t.pushed == Served(t.log) + t.callbacks && Distinct(t.callbacks)
      && (forall k :: k in t.callbacks <==> k in t.waiting)
  {
    var t := Queued(l, loop);
    assert t.pushed == Served(t.log) + t.callbacks;
  }

  lemma FiringKeepsInv(l: Lane, stream: StreamId, poolOpen: bool)
    requires Inv(l) && Possible(l, Arrive(stream, poolOpen)) && l.callbacks != []
    ensures Inv(Next(l, Arrive(stream, poolOpen)))
  {
    var t := Next(l, Arrive(stream, poolOpen));
    LogSnoc(l.log, Loop(l.callbacks[0]));
    assert l.callbacks == [l.callbacks[0]] + t.callbacks;
    assert t.pushed == Served(t.log) + t.callbacks;
  }

  lemma PassingKeepsInv(l: Lane, stream: StreamId, poolOpen: bool)
    requires Inv(l) && Possible(l, Arrive(stream, poolOpen)) && l.callbacks == []
    ensures Inv(Next(l, Arrive(stream, poolOpen)))
  {
    LogSnoc(l.log, if poolOpen then Pool else Lost);
  }

  lemma StepKeepsInv(l: Lane, step: Step)
    requires Inv(l) && Possible(l, step)
    ensures Inv(Next(l, step))
  {
    match step
    case Ask(loop) =>
    case Register(loop) =>
      QueueingKeepsInv(l.(requested := l.requested - {loop}), loop);
    case Visit(loop) =>
      QueueingKeepsInv(l, loop);
    case PoolAsk =>
    case Arrive(stream, poolOpen) =>
      if l.callbacks != [] {
        FiringKeepsInv(l, stream, poolOpen);
      } else {
        PassingKeepsInv(l, stream, poolOpen);
      }
  }

  ghost function Steps(): (Lane, Step, Lane) -> bool {
    (l, step, t) => Possible(l, step) && t == Next(l, step)
  }

  ghost predicate IsRun(states: seq<Lane>, steps: seq<Step>) {
    Path(Steps(), states, steps) && states[0] == Fresh()
  }

  lemma RunKeepsInv(states: seq<Lane>, steps: seq<Step>, i: nat)
    requires IsRun(states, steps) && i < |states|
    ensures Inv(states[i])
  {
    forall l, step, t | step in steps && Inv(l) && Steps()(l, step, t) ensures Inv(t) {
      StepKeepsInv(l, step);
    }
    PathKeeps(Steps(), l => Inv(l), states, steps, i);
  }

  /** In every run each accepted stream goes to exactly one consumer; the loops are served in the
      order in which they queued, each callback firing at most once and the unserved ones still
      queued; the queued callbacks are exactly those of the blocked loops, one each; and the older
      queue of senders is always empty. */
  lemma MatchingIsFifo(states: seq<Lane>, steps: seq<Step>, i: nat)
    requires IsRun(states, steps) && i < |states|
    ensures var l := states[i];
      && l.pending == [] && |l.log| == |l.streams| && Distinct(l.streams)
      && |Served(l.log)| <= |l.pushed| && Served(l.log) == l.pushed[..|Served(l.log)|]
      && l.callbacks == l.pushed[|Served(l.log)|..]
      && Distinct(l.callbacks) && (forall loop :: loop in l.callbacks <==> loop in l.waiting)
      && |l.streams| == |Served(l.log)| + Passed(l.log)
  {
    RunKeepsInv(states, steps, i);
  }

  /** The waiting callbacks never outnumber the unanswered requests exactly as long as no more
      streams have passed the loops by than the pool has asked for and loops have still to queue. */
  lemma CoveredIff(states: seq<Lane>, steps: seq<Step>, i: nat)
    requires IsRun(states, steps) && i < |states|
    ensures var l := states[i];
      |l.callbacks| <= Outstanding(l) <==> Passed(l.log) <= POOL_REQUESTS + l.poolAsked + |l.requested|
  {
    RunKeepsInv(states, steps, i);
  }

  lemma AtomicStepStaysCovered(l: Lane, step: Step)
    requires Inv(l) && Possible(l, step) && |l.callbacks| <= Outstanding(l) && l.requested == {}
    requires step.Visit? || step.PoolAsk? || (step.Arrive? && Outstanding(l) > 0)
    ensures var t := Next(l, step); |t.callbacks| <= Outstanding(t) && t.requested == {}
  {
  }

  /** With asking and queueing as one step, and every stream answering a request, the callbacks are
      always covered, whatever the pool asks for. */
  lemma {:induction false} AtomicVisitsAreCovered(states: seq<Lane>, steps: seq<Step>, i: nat)
    requires IsRun(states, steps) && i < |states|
    requires forall j :: 0 <= j < |steps| ==>
      steps[j].Visit? || steps[j].PoolAsk? || (steps[j].Arrive? && Outstanding(states[j]) > 0)
    ensures |states[i].callbacks| <= Outstanding(states[i]) && states[i].requested == {}
  {
    if i > 0 {
      AtomicVisitsAreCovered(states, steps, i - 1);
      RunKeepsInv(states, steps, i - 1);
      assert Steps()(states[i - 1], steps[i - 1], states[i]);
      AtomicStepStaysCovered(states[i - 1], steps[i - 1]);
    }
  }

  /** A stream that slips in between a loop's request and its callback goes to the pool, and the
      loop then waits with no request left to answer it. */
  lemma OvertakenLoopStarves(l: Lane, loop: LoopId, stream: StreamId)
    requires Inv(l) && l.callbacks == [] && Outstanding(l) == 0
    requires loop !in l.requested && stream !in l.streams
    ensures var l1 := Next(l, Ask(loop)); var l2 := Next(l1, Arrive(stream, true)); var l3 := Next(l2, Register(loop));
      && Possible(l, Ask(loop)) && Possible(l1, Arrive(stream, true)) && Possible(l2, Register(loop))
      && l3.callbacks == [loop] && Outstanding(l3) == 0
  {
  }

  // ---- The lane as an object ----

  class DataLane {
    var pending: seq<LoopId>
    var callbacks: seq<LoopId>
    var requests: nat  // stream requests sent to the client so far
    var poolStreams: seq<StreamId>
    var delivered: map<LoopId, StreamId>
    ghost var lane: Lane

    ghost predicate Valid()
      reads this
    {
      && Inv(lane) && pending == lane.pending && callbacks == lane.callbacks && requests == lane.asked
      && poolStreams == SentTo(lane.streams, lane.log)
      && (forall loop :: loop in callbacks || loop in lane.requested ==> loop !in delivered)
    }

    /** A new control channel asks for the pool's streams at once. */
    constructor ()
      ensures Valid() && lane == Fresh() && delivered == map[] && requests == 8 && callbacks == []
    {
      pending, callbacks, poolStreams, delivered, lane := [], [], [], map[], Fresh();
      requests := POOL_REQUESTS;
    }

    /** A visitor arrived on a loop: ask the client for a stream. */
    method OnVisitor(loop: LoopId)
      requires Valid() && Possible(lane, Ask(loop)) && loop !in delivered
      modifies this
      ensures Valid() && lane == Next(old(lane), Ask(loop)) && requests == old(requests) + 1
      ensures delivered == old(delivered) && poolStreams == old(poolStreams) && callbacks == old(callbacks)
    {
      StepKeepsInv(lane, Ask(loop));
      requests := requests + 1;
      lane := Next(lane, Ask(loop));
    }

    /** ... and, in a step of its own, queue the callback that will receive it. */
    method QueueCallback(loop: LoopId)
      requires Valid() && Possible(lane, Register(loop))
      modifies this
      ensures Valid() && lane == Next(old(lane), Register(loop)) && callbacks == old(callbacks) + [loop]
      ensures delivered == old(delivered) && poolStreams == old(poolStreams) && requests == old(requests)
    {
      StepKeepsInv(lane, Register(loop));
      callbacks := callbacks + [loop];
      lane := Next(lane, Register(loop));
    }

    /** The connection pool asks for one more stream, for a visitor of its own or after a failed
        write. */
    method OnPoolRequest()
      requires Valid()
      modifies this
      ensures Valid() && lane == Next(old(lane), PoolAsk) && requests == old(requests) + 1
      ensures delivered == old(delivered) && poolStreams == old(poolStreams) && callbacks == old(callbacks)
    {
      StepKeepsInv(lane, PoolAsk);
      requests := requests + 1;
      lane := Next(lane, PoolAsk);
    }

    /** A data channel came in: hand it to the first waiting loop, or to the pool, where it is lost
        if the pool is gone.  The source looks into the older queue of senders first, which is
        always empty. */
    method OnStream(stream: StreamId, poolOpen: bool) returns (ok: bool)
      requires Valid() && Possible(lane, Arrive(stream, poolOpen))
      modifies this
      ensures Valid() && lane == Next(old(lane), Arrive(stream, poolOpen)) && requests == old(requests)
      ensures ok <==> old(callbacks) != [] || poolOpen
      ensures old(callbacks) != [] ==>
        delivered == old(delivered)[old(callbacks)[0] := stream] && callbacks == old(callbacks)[1..]
      ensures old(callbacks) == [] ==> delivered == old(delivered) && callbacks == []
      ensures poolStreams == old(poolStreams) + if old(callbacks) == [] && poolOpen then [stream] else []
    {
      StepKeepsInv(lane, Arrive(stream, poolOpen));
      ghost var next := Next(lane, Arrive(stream, poolOpen));
      assert pending == [];
      SentToSnoc(lane.streams, lane.log, stream, next.log[|lane.log|]);
      ok := true;
      if callbacks != [] {
        var first := callbacks[0];
        callbacks := callbacks[1..];
        delivered := delivered[first := stream];
      } else if poolOpen {
        poolStreams := poolStreams + [stream];
      } else {
        ok := false;
      }
      lane := next;
    }

    /** A loop is done with its visitor and takes the next one. */
    method OnDone(loop: LoopId)
      requires Valid() && loop in delivered
      modifies this`delivered
      ensures Valid() && delivered == old(delivered) - {loop}
    {
      delivered := delivered - {loop};
    }
  }

  /** The streams that went to the pool, in order. */
  function SentTo(streams: seq<StreamId>, log: seq<Consumer>): seq<StreamId>
    requires |streams| == |log|
  {
    if log == [] then []
    else
      var n := |log| - 1;
      SentTo(streams[..n], log[..n]) + if log[n].Pool? then [streams[n]] else []
  }

  lemma SentToSnoc(streams: seq<StreamId>, log: seq<Consumer>, stream: StreamId, c: Consumer)
    requires |streams| == |log|
    ensures SentTo(streams + [stream], log + [c]) == SentTo(streams, log) + if c.Pool? then [stream] else []
  {
  }
}
