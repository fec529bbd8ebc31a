/**
 The nodes the database shows online and the nodes listed in the registry, with whole handlers
 as steps.
 */
module IdentityMirror {
  import opened Basics
  import opened Identity
  import opened IdentityHandlers
  import opened IdentityRaces
  import opened IdentityServer
  import opened Chains

  ghost predicate Online(rows: map<Uuid, Row>, u: Uuid) {
    u in rows && rows[u].online
  }

  /** The last queued update about `u`. */
  function LastFor(queue: seq<Event>, u: Uuid): Option<Event> {
    if queue == [] then None
    else
      match LastFor(queue[1..], u)
      case Some(e) => Some(e)
      case None => if queue[0].uuid == u then Some(queue[0]) else None
  }

  /** Whether a node will be shown online is decided by its last queued update, if it has one. */
  lemma {:induction false} LastDecides(rows: map<Uuid, Row>, queue: seq<Event>, u: Uuid)
    ensures Online(RecordAll(rows, queue), u) ==
      match LastFor(queue, u) case Some(e) => e.Connected? case None => Online(rows, u)
    decreases |queue|
  {
    if queue != [] {
      LastDecides(Record(rows, queue[0]), queue[1..], u);
    }
  }

  lemma {:induction false} RecordAllSnoc(rows: map<Uuid, Row>, queue: seq<Event>, e: Event)
    ensures RecordAll(rows, queue + [e]) == Record(RecordAll(rows, queue), e)
    decreases |queue|
  {
    if queue == [] {
      assert [] + [e] == [e] && [e][1..] == [];
    } else {
      RecordAllSnoc(Record(rows, queue[0]), queue[1..], e);
      assert (queue + [e])[1..] == queue[1..] + [e];
    }
  }

  /** Once the queue is written out, the rows show online exactly the listed nodes. */
  ghost predicate Mirrors(s: State) {
    forall u :: Online(RecordAll(s.rows, s.queue), u) <==> u in s.registry
  }

  /** ... and each listed node with the digest of the channel it is listed for. */
  ghost predicate Signed(s: State) {
    forall u :: u in s.registry ==>
      && u in RecordAll(s.rows, s.queue) && s.registry[u] in s.channels
      && RecordAll(s.rows, s.queue)[u].digest == s.channels[s.registry[u]].digest
  }

  /** A channel in its loop that has a uuid has reported a hostname with it. */
  ghost predicate Reported(s: State) {
    forall c :: c in s.channels && s.channels[c].phase.Idle? && s.channels[c].nodeUuid.Some? ==> s.channels[c].reported
  }

  ghost predicate Faithful(s: State) {
    Inv(s) && Mirrors(s) && Signed(s) && Reported(s)
  }

  lemma HandlerKeepsReported(s: State, h: Handler)
    requires Ready(s, h) && Reported(s)
    ensures Reported(Handle(s, h))
  {
  }

  lemma OpenKeepsMirror(s: State, c: ChannelId, d: Digest)
    requires Ready(s, Open(c, d)) && Faithful(s)
    ensures var t := Handle(s, Open(c, d)); Mirrors(t) && Signed(t)
  {
    assert forall u :: u in s.registry ==> s.registry[u] != c;
  }

  /** `u` goes online for channel `c` and is listed for it, and channels keep their digests. */
  lemma ListingKeepsMirror(s: State, u: Uuid, c: ChannelId, t: State)
    requires Mirrors(s) && Signed(s) && c in s.channels && t.registry == s.registry[u := c]
    requires RecordAll(t.rows, t.queue) == Record(RecordAll(s.rows, s.queue), Connected(u, s.channels[c].digest))
    requires forall b :: b in s.channels ==> b in t.channels && t.channels[b].digest == s.channels[b].digest
    ensures Mirrors(t) && Signed(t)
  {
  }

  lemma ReportKeepsMirror(s: State, c: ChannelId, claim: Option<Uuid>, unused: Uuid)
    requires Ready(s, Report(c, claim, unused)) && Faithful(s)
    ensures var t := Handle(s, Report(c, claim, unused)); Mirrors(t) && Signed(t)
  {
    var u := Settle(s, c, claim, unused).uuid;
    RecordAllSnoc(s.rows, s.queue, Connected(u, s.channels[c].digest));
    ListingKeepsMirror(s, u, c, Handle(s, Report(c, claim, unused)));
  }

  /** `u` goes offline and is unlisted, and channels keep their digests. */
  lemma UnlistingKeepsMirror(s: State, u: Uuid, t: State)
    requires Mirrors(s) && Signed(s)
    requires RecordAll(t.rows, t.queue) == Record(RecordAll(s.rows, s.queue), Disconnected(u)) && t.registry == s.registry - {u}
    requires forall c :: c in s.channels ==> c in t.channels && t.channels[c].digest == s.channels[c].digest
    ensures Mirrors(t) && Signed(t)
  {
  }

  lemma CloseForm(s: State, c: ChannelId, u: Uuid)
    requires Ready(s, Close(c)) && Reported(s) && s.channels[c].nodeUuid == Some(u)
    ensures var t := Handle(s, Close(c));
      && t.rows == s.rows && t.queue == s.queue + [Disconnected(u)] && t.registry == s.registry - {u}
      && forall b :: b in s.channels ==> b in t.channels && t.channels[b].digest == s.channels[b].digest
  {
  }

  lemma CloseKeepsMirror(s: State, c: ChannelId)
    requires Ready(s, Close(c)) && Faithful(s)
    ensures var t := Handle(s, Close(c)); Mirrors(t) && Signed(t)
  {
    if s.channels[c].nodeUuid.Some? {
      var u := s.channels[c].nodeUuid.value;
      CloseForm(s, c, u);
      RecordAllSnoc(s.rows, s.queue, Disconnected(u));
      UnlistingKeepsMirror(s, u, Handle(s, Close(c)));
    }
  }

  lemma HandlerKeepsMirror(s: State, h: Handler)
    requires Ready(s, h) && Faithful(s) && h != Sync(false)
    ensures var t := Handle(s, h); Mirrors(t) && Signed(t)
  {
    match h
    case Open(c, d) =>
      OpenKeepsMirror(s, c, d);
    case Report(c, claim, unused) =>
      ReportKeepsMirror(s, c, claim, unused);
    case Close(c) =>
      CloseKeepsMirror(s, c);
    case _ =>
  }

  // ---- Lost updates ----

  /** A later update about the same node is queued, or the row already shows what this one says. */
  predicate Harmless(rows: map<Uuid, Row>, e: Event, tail: seq<Event>) {
    || LastFor(tail, e.uuid).Some?
    || (match e
        case Connected(u, d) => u in rows && rows[u] == Row(d, true)
        case Disconnected(u) => u in rows ==> !rows[u].online)
  }

  /** The digest a row will show is that of its last queued connection, if it has one after which it
      is not touched again. */
  lemma {:induction false} LastSigns(rows: map<Uuid, Row>, queue: seq<Event>, u: Uuid)
    ensures var after, last := RecordAll(rows, queue), LastFor(queue, u);
      && (last.Some? && last.value.Connected? ==> u in after && after[u] == Row(last.value.digest, true))
      && (last.None? ==> (u in after <==> u in rows) && (u in rows ==> after[u] == rows[u]))
    decreases |queue|
  {
    if queue != [] {
      LastSigns(Record(rows, queue[0]), queue[1..], u);
    }
  }

  lemma LossKeepsOthers(rows: map<Uuid, Row>, e: Event, tail: seq<Event>, u: Uuid)
    requires u != e.uuid || Harmless(rows, e, tail)
    ensures var lost, kept := RecordAll(rows, tail), RecordAll(rows, [e] + tail);
      && (Online(lost, u) <==> Online(kept, u))
      && (Online(kept, u) ==> lost[u].digest == kept[u].digest)
  {
    assert ([e] + tail)[1..] == tail;
    LastDecides(rows, tail, u);
    LastDecides(rows, [e] + tail, u);
    LastSigns(rows, tail, u);
    LastSigns(rows, [e] + tail, u);
    if LastFor(tail, u).None? && u != e.uuid {
      assert LastFor([e] + tail, u).None?;
    }
  }

  lemma LossShows(rows: map<Uuid, Row>, e: Event, tail: seq<Event>)
    requires !Harmless(rows, e, tail)
    ensures var u, lost, kept := e.uuid, RecordAll(rows, tail), RecordAll(rows, [e] + tail);
      Online(lost, u) != Online(kept, u) || (Online(kept, u) && lost[u].digest != kept[u].digest)
  {
    assert ([e] + tail)[1..] == tail;
    LastSigns(rows, tail, e.uuid);
    LastDecides(rows, [e] + tail, e.uuid);
    LastSigns(rows, [e] + tail, e.uuid);
  }

  /** A lost update does no harm, to what is shown online or to its digests, exactly when a later one
      about the same node is queued or the row already shows what it says. */
  lemma LostUpdateIsHarmlessIff(s: State)
    requires s.queue != [] && Mirrors(s) && Signed(s)
    ensures var t := Handle(s, Sync(false));
      Mirrors(t) && Signed(t) <==> Harmless(s.rows, s.queue[0], s.queue[1..])
  {
    var e, tail, t := s.queue[0], s.queue[1..], Handle(s, Sync(false));
    assert s.queue == [e] + tail;
    assert t.queue == tail && t.rows == s.rows && t.registry == s.registry && t.channels == s.channels;
    if Harmless(s.rows, e, tail) {
      forall u ensures Online(RecordAll(s.rows, tail), u) <==> u in s.registry {
        LossKeepsOthers(s.rows, e, tail, u);
      }
      forall u | u in s.registry
        ensures u in RecordAll(s.rows, tail) && RecordAll(s.rows, tail)[u].digest == RecordAll(s.rows, s.queue)[u].digest
      {
        LossKeepsOthers(s.rows, e, tail, u);
      }
    } else {
      LossShows(s.rows, e, tail);
    }
  }

  // ---- Every run ----

  lemma HandlerKeepsFaithful(s: State, h: Handler)
    requires Ready(s, h) && Faithful(s) && (h == Sync(false) ==> Harmless(s.rows, s.queue[0], s.queue[1..]))
    ensures Faithful(Handle(s, h))
  {
    HandlerKeepsInv(s, h);
    HandlerKeepsReported(s, h);
    if h == Sync(false) {
      LostUpdateIsHarmlessIff(s);
    } else {
      HandlerKeepsMirror(s, h);
    }
  }

  lemma {:induction false} RunMirrors(r: HandlerRun, i: nat)
    requires IsHandlerRun(r) && i < |r.states| && LosesNothing(r, i)
    ensures Faithful(r.states[i])
  {
    if i > 0 {
      RunMirrors(r, i - 1);
      assert Atomic()(r.states[i - 1], r.handlers[i - 1], r.states[i]);
      HandlerKeepsFaithful(r.states[i - 1], r.handlers[i - 1]);
    }
  }

  /** Before the i-th state every update that was lost was harmless. */
  ghost predicate LosesNothing(r: HandlerRun, i: nat)
    requires IsHandlerRun(r) && i < |r.states|
  {
    forall j :: 0 <= j < i && r.handlers[j] == Sync(false) && r.states[j].queue != [] ==>
      Harmless(r.states[j].rows, r.states[j].queue[0], r.states[j].queue[1..])
  }

  /** Over every run of atomic handlers and restarts in which no lost update does harm: whenever the
      queue is empty the database shows online exactly the listed nodes, each with the digest of the
      channel it is listed for.  It holds even after restarts that could not read the rows. */
  lemma RowsMirrorRegistry(r: HandlerRun, i: nat, u: Uuid)
    requires IsHandlerRun(r) && i < |r.states| && r.states[i].queue == [] && LosesNothing(r, i)
    ensures var s := r.states[i];
      && (Online(s.rows, u) <==> u in s.registry)
      && (u in s.registry ==> s.registry[u] in s.channels && s.rows[u].digest == s.channels[s.registry[u]].digest)
  {
    RunMirrors(r, i);
  }
}
