/**
 Which facts about the registry need whole handlers to be atomic, and which fail anyway.
 */
module IdentityRaces {
  import opened Basics
  import opened Identity
  import opened IdentityTheorems
  import opened IdentityHandlers
  import opened Chains

  // ---- Handlers as single steps ----

  datatype HandlerRun = HandlerRun(states: seq<State>, handlers: seq<Handler>)

  ghost function Atomic(): (State, Handler, State) -> bool {
    (s, h, t) => Ready(s, h) && t == Handle(s, h)
  }

  ghost predicate IsHandlerRun(r: HandlerRun) {
    Path(Atomic(), r.states, r.handlers) && r.states[0] == Empty()
  }

  ghost predicate Submap(m: map<Uuid, ChannelId>, n: map<Uuid, ChannelId>) {
    forall u :: u in m ==> u in n && n[u] == m[u]
  }

  /** The registry, read as uuid → channel, is a submap of the index. */
  ghost predicate ListedServe(s: State) {
    Submap(s.registry, s.index)
  }

  /** Between handlers a channel is either in its loop or finished, and a finished one has no handle. */
  ghost predicate Quiet(s: State) {
    forall c :: c in s.channels ==>
      && (s.channels[c].phase.Idle? || s.channels[c].phase.Done?)
      && s.channels[c].inserted
      && (s.channels[c].phase.Done? ==> c !in s.control)
  }

  lemma HandlerKeepsListed(s: State, h: Handler)
    requires Inv(s) && Ready(s, h) && ListedServe(s)
    ensures ListedServe(Handle(s, h))
  {
  }

  lemma HandlerKeepsQuiet(s: State, h: Handler)
    requires Ready(s, h) && Quiet(s) && (h.Open? ==> h.id !in s.channels)
    ensures Quiet(Handle(s, h))
  {
  }

  ghost predicate Calm(s: State) {
    Inv(s) && ListedServe(s) && Quiet(s)
  }

  lemma HandlerKeepsCalm(s: State, h: Handler)
    requires Calm(s) && Ready(s, h)
    ensures Calm(Handle(s, h))
  {
    HandlerKeepsInv(s, h);
    HandlerKeepsListed(s, h);
    HandlerKeepsQuiet(s, h);
  }

  /** Over every interleaving of atomic handlers, restarts included, every listed channel is
      the serving channel of its uuid, every serving channel is a running one, and no
      finished channel keeps a handle. */
  lemma ListedChannelsServe(r: HandlerRun, i: nat)
    requires IsHandlerRun(r) && i < |r.states|
    ensures Inv(r.states[i]) && ListedServe(r.states[i]) && Quiet(r.states[i])
    ensures forall u :: u in r.states[i].index ==>
      r.states[i].index[u] in r.states[i].channels && r.states[i].channels[r.states[i].index[u]].phase.Idle?
  {
    forall s, h, t | h in r.handlers && Calm(s) && Atomic()(s, h, t) ensures Calm(t) {
      HandlerKeepsCalm(s, h);
    }
    PathKeeps(Atomic(), s => Calm(s), r.states, r.handlers, i);
  }

  /** Every stored handle of a channel that knows its uuid is the serving one. */
  ghost predicate HandledServe(s: State) {
    forall c :: c in s.control && c in s.channels && s.channels[c].nodeUuid.Some? ==>
      Lookup(s.index, s.channels[c].nodeUuid.value) == Some(c)
  }

  lemma HandlerKeepsHandled(s: State, h: Handler)
    requires Inv(s) && Ready(s, h) && HandledServe(s)
    ensures HandledServe(Handle(s, h))
  {
    match h
    case Report(c, claim, unused) =>
      ReportKeepsHandled(s, c, claim, unused);
    case Close(c) =>
      CloseKeepsHandled(s, c);
    case _ =>
  }

  lemma ReportKeepsHandled(s: State, c: ChannelId, claim: Option<Uuid>, unused: Uuid)
    requires Ready(s, Report(c, claim, unused)) && HandledServe(s)
    ensures HandledServe(Handle(s, Report(c, claim, unused)))
  {
    var u, t := Settle(s, c, claim, unused).uuid, Handle(s, Report(c, claim, unused));
    assert t.index == s.index[u := c] && t.channels[c].nodeUuid == Some(u);
    forall b | b in t.control && b in t.channels && t.channels[b].nodeUuid.Some?
      ensures Lookup(t.index, t.channels[b].nodeUuid.value) == Some(b)
    {
      assert b != c ==> t.channels[b] == s.channels[b] && b in s.control;
    }
  }

  lemma CloseKeepsHandled(s: State, c: ChannelId)
    requires Ready(s, Close(c)) && HandledServe(s)
    ensures HandledServe(Handle(s, Close(c)))
  {
    var t := Handle(s, Close(c));
    forall b | b in t.control && b in t.channels && t.channels[b].nodeUuid.Some?
      ensures Lookup(t.index, t.channels[b].nodeUuid.value) == Some(b)
    {
      assert b != c && t.channels[b] == s.channels[b] && b in s.control;
    }
  }

  /** Two channels of one machine never keep their handles side by side: with atomic handlers, in every
      reachable state each uuid has at most one stored handle, that of the channel serving it. */
  lemma OneHandlePerUuid(r: HandlerRun, i: nat, b: ChannelId, c: ChannelId)
    requires IsHandlerRun(r) && i < |r.states| && b in r.states[i].control && c in r.states[i].control
    ensures b in r.states[i].channels && c in r.states[i].channels
    ensures var own := r.states[i].channels[b].nodeUuid;
      own.Some? && own == r.states[i].channels[c].nodeUuid ==> b == c && Lookup(r.states[i].index, own.value) == Some(c)
  {
    forall s, h, t | h in r.handlers && (Inv(s) && HandledServe(s)) && Atomic()(s, h, t) ensures Inv(t) && HandledServe(t) {
      HandlerKeepsInv(s, h);
      HandlerKeepsHandled(s, h);
    }
    PathKeeps(Atomic(), s => Inv(s) && HandledServe(s), r.states, r.handlers, i);
  }

  /** A client is told its uuid by its first report exactly when that is not the one it claimed. */
  lemma ToldUnlessClaimed(s: State, c: ChannelId, claim: Option<Uuid>, unused: Uuid)
    requires Ready(s, Report(c, claim, unused)) && s.channels[c].nodeUuid.None?
    ensures var own := Handle(s, Report(c, claim, unused)).channels[c];
      && own.nodeUuid.Some?
      && own.told == s.channels[c].told + if claim == own.nodeUuid then [] else [own.nodeUuid.value]
  {
    if claim.Some? && claim.value in s.bindings {
      ClaimOfBound(s.bindings, s.channels[c].digest, claim.value, s.registry.Keys, unused);
    }
  }

  /** A report without a claim lands on a uuid that is not listed.  If some channel serves that
      uuid all the same, it is a running one of the same digest that a stale exit has unlisted. */
  lemma ClaimlessReportIsUnlisted(r: HandlerRun, i: nat, c: ChannelId, unused: Uuid)
    requires IsHandlerRun(r) && i < |r.states| && Ready(r.states[i], Report(c, None, unused))
    requires r.states[i].channels[c].nodeUuid.None?
    ensures var s := r.states[i]; var u := Settle(s, c, None, unused).uuid;
      && u !in s.registry
      && (u in s.index ==>
            (s.index[u] in s.channels && s.channels[s.index[u]].phase.Idle?
             && s.channels[s.index[u]].digest == s.channels[c].digest && s.index[u] != c))
  {
    ListedChannelsServe(r, i);
    var s := r.states[i];
    var u := Settle(s, c, None, unused).uuid;
    if u in s.index {
      assert ChannelInv(s.channels[s.index[u]], s.bindings);
    }
    forall v | v in s.registry ensures v in s.bindings {
      assert ChannelInv(s.channels[s.registry[v]], s.bindings);
    }
  }

  // ---- A stale exit ----

  /** Closing `c` leaves every other channel's registry entry alone. */
  ghost predicate SparesOthers(s: State, c: ChannelId)
    requires Ready(s, Close(c))
  {
    forall u :: u in s.registry && s.registry[u] != c ==> Lookup(Handle(s, Close(c)).registry, u) == Some(s.registry[u])
  }

  /** It does so exactly when `c`'s uuid is not currently listed for another channel. */
  lemma CloseSparesOthersIff(s: State, c: ChannelId)
    requires Ready(s, Close(c))
    ensures SparesOthers(s, c) <==>
      var own := s.channels[c].nodeUuid; own.Some? && own.value in s.registry ==> s.registry[own.value] == c
  {
  }

  /** A machine comes back on channel `c` while its channel `stale` lingers: `c` takes over the
      index and is listed. */
  lemma Reconnects(s: State, stale: ChannelId, c: ChannelId, u: Uuid, unused: Uuid) returns (t: State)
    requires stale in s.channels && s.channels[stale].nodeUuid == Some(u) && stale in s.usedIds && c !in s.usedIds
    requires u in s.bindings && s.bindings[u] == s.channels[stale].digest && unused !in s.bindings
    ensures Reaches(Atomic(), s, [Open(c, s.channels[stale].digest), Report(c, Some(u), unused)], t)
    ensures stale in t.channels && t.channels[stale] == s.channels[stale]
    ensures c in t.channels && t.channels[c].phase.Idle? && t.channels[c].nodeUuid == Some(u)
    ensures Lookup(t.index, u) == Some(c) && Lookup(t.registry, u) == Some(c)
    ensures t.channels[c].digest == s.channels[stale].digest && t.bindings == s.bindings && t.usedIds == s.usedIds + {c}
    ensures t.queue == s.queue + [Connected(u, s.channels[stale].digest)]
  {
    var d := s.channels[stale].digest;
    var m := Handle(s, Open(c, d));
    ClaimOfBound(s.bindings, d, u, m.registry.Keys, unused);
    t := Handle(m, Report(c, Some(u), unused));
    Two(Atomic(), s, Open(c, d), m, Report(c, Some(u), unused), t);
  }

  /** When `stale` at last closes, the machine disappears from the registry although `c` still
      serves it; so it goes in every state in which a channel has resolved its uuid. */
  lemma StaleExitUnlists(s: State, stale: ChannelId, c: ChannelId, u: Uuid, unused: Uuid) returns (t: State)
    requires Inv(s) && Ready(s, Close(stale)) && s.channels[stale].nodeUuid == Some(u)
    requires c !in s.usedIds && unused !in s.bindings
    ensures Reaches(Atomic(), s, [Open(c, s.channels[stale].digest), Report(c, Some(u), unused), Close(stale)], t)
    ensures Lookup(t.index, u) == Some(c) && c in t.channels && t.channels[c].phase.Idle? && u !in t.registry
    ensures t.channels[c].nodeUuid == Some(u) && t.channels[c].digest == s.channels[stale].digest
    ensures s.channels[stale].reported ==>
      t.queue == s.queue + [Connected(u, s.channels[stale].digest)] + [Disconnected(u)]
    ensures t.bindings == s.bindings && t.usedIds == s.usedIds + {c}
  {
    var d := s.channels[stale].digest;
    assert ChannelInv(s.channels[stale], s.bindings);
    var m := Reconnects(s, stale, c, u, unused);
    t := Handle(m, Close(stale));
    OneStep(Atomic(), m, Close(stale), t);
    Then(Atomic(), s, [Open(c, d), Report(c, Some(u), unused)], m, [Close(stale)], t);
    assert [Open(c, d), Report(c, Some(u), unused)] + [Close(stale)] == [Open(c, d), Report(c, Some(u), unused), Close(stale)];
  }

  // ---- One uuid on two running channels ----

  /** The channel has not left its loop. */
  predicate Running(ch: Channel) {
    !ch.phase.Exiting? && !ch.phase.Unindexed? && !ch.phase.Unlisted? && !ch.phase.Done?
  }

  /** A running channel other than `c` has resolved `u`. */
  ghost predicate HeldByOther(s: State, c: ChannelId, u: Uuid) {
    exists b :: b != c && b in s.channels && Running(s.channels[b]) && Owned(s.channels[b]) == Some(u)
  }

  lemma HeldIsBound(s: State, c: ChannelId, u: Uuid)
    requires Inv(s) && HeldByOther(s, c, u)
    ensures u in s.bindings
  {
    var b :| b != c && b in s.channels && Running(s.channels[b]) && Owned(s.channels[b]) == Some(u);
    assert ChannelInv(s.channels[b], s.bindings);
  }

  /** The steps of `c` do not change what the others hold. */
  lemma HeldStays(s: State, c: ChannelId, u: Uuid, t: State)
    requires c in t.channels && t.channels == s.channels[c := t.channels[c]]
    ensures HeldByOther(t, c, u) <==> HeldByOther(s, c, u)
  {
    if HeldByOther(s, c, u) {
      var b :| b != c && b in s.channels && Running(s.channels[b]) && Owned(s.channels[b]) == Some(u);
      assert b in t.channels && t.channels[b] == s.channels[b];
    }
  }

  lemma RestoreSharesIff(s: State, c: ChannelId, digest: Digest, online: set<Uuid>, unused: Uuid)
    requires Inv(s) && unused !in s.bindings
    ensures HeldByOther(s, c, ResolveClaim(s.bindings, digest, None, online, unused).uuid) <==>
      exists u :: SoleBinding(s.bindings, digest, u) && u !in online && HeldByOther(s, c, u)
  {
    var r := ResolveClaim(s.bindings, digest, None, online, unused);
    if HeldByOther(s, c, r.uuid) {
      HeldIsBound(s, c, r.uuid);
      assert SoleBinding(s.bindings, digest, r.uuid);
    }
    if u :| SoleBinding(s.bindings, digest, u) && u !in online && HeldByOther(s, c, u) {
      assert r.uuid == u;
    }
  }

  /** At lock granularity, a channel without a claim resolves to the uuid of another running
      channel exactly when its digest's sole uuid was absent from the snapshot it took and another
      running channel has resolved it. */
  lemma ClaimlessResolveSharesIff(s: State, c: ChannelId, unused: Uuid)
    requires Inv(s) && Enabled(s, Resolve(c, unused))
    requires s.channels[c].nodeUuid.None? && s.channels[c].phase.claim.None?
    ensures var ch, t := s.channels[c], Apply(s, Resolve(c, unused));
      HeldByOther(t, c, t.channels[c].phase.uuid) <==>
        exists u :: SoleBinding(s.bindings, ch.digest, u) && u !in ch.phase.online && HeldByOther(s, c, u)
  {
    var ch, t := s.channels[c], Apply(s, Resolve(c, unused));
    HeldStays(s, c, t.channels[c].phase.uuid, t);
    RestoreSharesIff(s, c, ch.digest, ch.phase.online, unused);
  }

  /** With whole handlers as steps, exactly when that uuid is not listed and another running channel
      has resolved it: being listed, not being held, is what the code looks at. */
  lemma ClaimlessReportSharesIff(s: State, c: ChannelId, unused: Uuid)
    requires Inv(s) && Ready(s, Report(c, None, unused)) && s.channels[c].nodeUuid.None?
    ensures HeldByOther(Handle(s, Report(c, None, unused)), c, Settle(s, c, None, unused).uuid) <==>
      exists u :: SoleBinding(s.bindings, s.channels[c].digest, u) && u !in s.registry && HeldByOther(s, c, u)
  {
    HeldStays(s, c, Settle(s, c, None, unused).uuid, Handle(s, Report(c, None, unused)));
    RestoreSharesIff(s, c, s.channels[c].digest, s.registry.Keys, unused);
  }

  /** A new channel without a claim is told its digest's sole uuid when that is not listed. */
  lemma RestoresUnlisted(s: State, a: ChannelId, d: Digest, u: Uuid, unused: Uuid) returns (t: State)
    requires a !in s.usedIds && unused !in s.bindings && SoleBinding(s.bindings, d, u) && u !in s.registry
    ensures Reaches(Atomic(), s, [Open(a, d), Report(a, None, unused)], t)
    ensures t.bindings == s.bindings && t.usedIds == s.usedIds + {a}
    ensures t.channels == s.channels[a := Channel(d, Idle, Some(u), true, [u], true)]
  {
    var m := Handle(s, Open(a, d));
    RestoresSole(s.bindings, d, u, m.registry.Keys, unused);
    t := Handle(m, Report(a, None, unused));
    assert [] + [u] == [u];
    assert t.channels[a] == Channel(d, Idle, Some(u), true, [u], true);
    assert t.channels == s.channels[a := t.channels[a]];
    Two(Atomic(), s, Open(a, d), m, Report(a, None, unused), t);
  }

  /** If a running channel `c` holds its digest's sole uuid without being listed, two new channels
      without a claim are both told that uuid, `c` closing in between; and both keep running. */
  lemma RestoredTwice(s: State, c: ChannelId, a: ChannelId, b: ChannelId, u: Uuid, unused: Uuid) returns (t: State)
    requires Ready(s, Close(c)) && s.channels[c].nodeUuid == Some(u) && u !in s.registry && c in s.usedIds
    requires SoleBinding(s.bindings, s.channels[c].digest, u) && unused !in s.bindings
    requires a !in s.usedIds && b !in s.usedIds && a != b
    ensures var d := s.channels[c].digest;
      Reaches(Atomic(), s, [Open(a, d), Report(a, None, unused)] + [Close(c)] + [Open(b, d), Report(b, None, unused)], t)
    ensures a in t.channels && t.channels[a].phase.Idle? && t.channels[a].told == [u]
    ensures b in t.channels && t.channels[b].phase.Idle? && t.channels[b].told == [u]
  {
    var d := s.channels[c].digest;
    var s1 := RestoresUnlisted(s, a, d, u, unused);
    assert s1.channels[c] == s.channels[c];
    var s2 := Handle(s1, Close(c));
    OneStep(Atomic(), s1, Close(c), s2);
    Then(Atomic(), s, [Open(a, d), Report(a, None, unused)], s1, [Close(c)], s2);
    assert s2.bindings == s.bindings && u !in s2.registry && s2.channels[a] == s1.channels[a];
    t := RestoresUnlisted(s2, b, d, u, unused);
    Then(Atomic(), s, [Open(a, d), Report(a, None, unused)] + [Close(c)], s2, [Open(b, d), Report(b, None, unused)], t);
  }

  /** So even with atomic handlers two clients without a claim can be told one uuid: from every state
      with a running channel that holds its digest's sole uuid, a reconnect, the stale exit and two
      new clients lead there. */
  lemma AtomicRestoreRace(s: State, stale: ChannelId, c: ChannelId, a: ChannelId, b: ChannelId, u: Uuid, unused: Uuid)
    returns (t: State)
    requires Inv(s) && Ready(s, Close(stale)) && s.channels[stale].nodeUuid == Some(u)
    requires SoleBinding(s.bindings, s.channels[stale].digest, u) && unused !in s.bindings
    requires c !in s.usedIds && a !in s.usedIds && b !in s.usedIds && a != b && a != c && b != c
    ensures var d := s.channels[stale].digest;
      Reaches(Atomic(), s, [Open(c, d), Report(c, Some(u), unused), Close(stale)]
        + ([Open(a, d), Report(a, None, unused)] + [Close(c)] + [Open(b, d), Report(b, None, unused)]), t)
    ensures a in t.channels && t.channels[a].phase.Idle? && t.channels[a].told == [u]
    ensures b in t.channels && t.channels[b].phase.Idle? && t.channels[b].told == [u]
  {
    var d := s.channels[stale].digest;
    var m := StaleExitUnlists(s, stale, c, u, unused);
    t := RestoredTwice(m, c, a, b, u, unused);
    Then(Atomic(), s, [Open(c, d), Report(c, Some(u), unused), Close(stale)], m,
         [Open(a, d), Report(a, None, unused)] + [Close(c)] + [Open(b, d), Report(b, None, unused)], t);
  }

  // ---- Races between lock regions ----

  /** Two claimless channels of one digest that both copy the online uuids before either
      resolves are both handed the digest's sole uuid, in every state where it is offline. */
  lemma ClaimlessRestoreRace(s: State, b: ChannelId, c: ChannelId, u: Uuid, unused: Uuid) returns (t: State)
    requires b != c && b in s.channels && c in s.channels && unused !in s.bindings
    requires s.channels[b].phase.Idle? && s.channels[c].phase.Idle?
    requires s.channels[b].nodeUuid.None? && s.channels[c].nodeUuid.None?
    requires s.channels[b].digest == s.channels[c].digest
    requires SoleBinding(s.bindings, s.channels[b].digest, u) && u !in s.registry
    ensures Reaches(Locked(), s, [Snapshot(b, None), Snapshot(c, None), Resolve(b, unused), Resolve(c, unused)], t)
    ensures b in t.channels && t.channels[b].phase == Resolved(u, true)
    ensures c in t.channels && t.channels[c].phase == Resolved(u, true)
  {
    var s2 := BothSnapshot(s, b, c);
    t := BothRestore(s2, b, c, u, s.registry.Keys, unused);
    Then(Locked(), s, [Snapshot(b, None), Snapshot(c, None)], s2, [Resolve(b, unused), Resolve(c, unused)], t);
    assert [Snapshot(b, None), Snapshot(c, None)] + [Resolve(b, unused), Resolve(c, unused)]
      == [Snapshot(b, None), Snapshot(c, None), Resolve(b, unused), Resolve(c, unused)];
  }

  lemma BothSnapshot(s: State, b: ChannelId, c: ChannelId) returns (t: State)
    requires Both(s, b, c) && s.channels[b].phase.Idle? && s.channels[c].phase.Idle?
    ensures Reaches(Locked(), s, [Snapshot(b, None), Snapshot(c, None)], t) && t.bindings == s.bindings && Both(t, b, c)
    ensures t.channels[b] == s.channels[b].(phase := Snapshotted(None, s.registry.Keys))
    ensures t.channels[c] == s.channels[c].(phase := Snapshotted(None, s.registry.Keys))
  {
    var m := Apply(s, Snapshot(b, None));
    t := Apply(m, Snapshot(c, None));
    Two(Locked(), s, Snapshot(b, None), m, Snapshot(c, None), t);
  }

  lemma BothRestore(s: State, b: ChannelId, c: ChannelId, u: Uuid, online: set<Uuid>, unused: Uuid) returns (t: State)
    requires Both(s, b, c) && unused !in s.bindings && u !in online
    requires s.channels[b].phase == Snapshotted(None, online) && s.channels[c].phase == Snapshotted(None, online)
    requires s.channels[b].nodeUuid.None? && s.channels[c].nodeUuid.None?
    requires s.channels[b].digest == s.channels[c].digest && SoleBinding(s.bindings, s.channels[b].digest, u)
    ensures Reaches(Locked(), s, [Resolve(b, unused), Resolve(c, unused)], t) && Both(t, b, c)
    ensures t.channels[b].phase == Resolved(u, true) && t.channels[c].phase == Resolved(u, true)
  {
    RestoresSole(s.bindings, s.channels[b].digest, u, online, unused);
    var m := Apply(s, Resolve(b, unused));
    t := Apply(m, Resolve(c, unused));
    Two(Locked(), s, Resolve(b, unused), m, Resolve(c, unused), t);
  }

  lemma RestoresSole(bindings: map<Uuid, Digest>, digest: Digest, u: Uuid, online: set<Uuid>, unused: Uuid)
    requires SoleBinding(bindings, digest, u) && u !in online && unused !in bindings
    ensures ResolveClaim(bindings, digest, None, online, unused) == Resolution(bindings, u, true)
  {
  }

  /** Whether one lock region leaves every listed channel the serving one. */
  ghost predicate KeepsListing(s: State, a: Action)
    requires Enabled(s, a)
  {
    match a
    case ClaimIndex(c) => var u := s.channels[c].phase.uuid; u in s.registry ==> s.registry[u] == c
    case List(c) => Lookup(s.index, s.channels[c].phase.uuid) == Some(c)
    case CleanIndex(c) => Absent(s.registry, c)
    case _ => true
  }

  lemma CleaningKeepsListingIff(s: State, c: ChannelId)
    requires Inv(s) && ListedServe(s) && Enabled(s, CleanIndex(c))
    ensures Submap(s.registry, IndexAfter(s, CleanIndex(c))) <==> Absent(s.registry, c)
  {
    if u :| u in s.registry && s.registry[u] == c {
      assert s.channels[c].nodeUuid == Some(u);
      assert u !in IndexAfter(s, CleanIndex(c));
    }
  }

  lemma OthersKeepListing(s: State, a: Action)
    requires ListedServe(s) && Enabled(s, a) && !a.ClaimIndex? && !a.List? && !a.CleanIndex?
    ensures Submap(RegistryAfter(s, a), IndexAfter(s, a))
  {
  }

  lemma TakingKeepsListingIff(s: State, a: Action)
    requires ListedServe(s) && Enabled(s, a) && (a.ClaimIndex? || a.List?)
    ensures Submap(RegistryAfter(s, a), IndexAfter(s, a)) <==> KeepsListing(s, a)
  {
  }

  /** At lock granularity the registry stays a submap of the index exactly as long as no region
      indexes a uuid listed for another channel, lists one served by another channel, or
      un-indexes its own channel while it is listed. */
  lemma ListingKeptIff(s: State, a: Action)
    requires Inv(s) && ListedServe(s) && Enabled(s, a)
    ensures ListedServe(Apply(s, a)) <==> KeepsListing(s, a)
  {
    if a.CleanIndex? {
      CleaningKeepsListingIff(s, a.id);
    } else if a.ClaimIndex? || a.List? {
      TakingKeepsListingIff(s, a);
    } else {
      OthersKeepListing(s, a);
    }
  }

  /** Two channels of one uuid whose index and registry regions interleave leave the
      registry naming the channel that the index has already replaced. */
  lemma ListingRace(s: State, b: ChannelId, c: ChannelId, u: Uuid) returns (t: State)
    requires b != c && b in s.channels && c in s.channels
    requires s.channels[b].phase == Settled(u) && s.channels[c].phase == Settled(u)
    ensures Reaches(Locked(), s, [ClaimIndex(b), ClaimIndex(c), Evict(b), Evict(c), List(c), List(b)], t)
    ensures u in t.index && t.index[u] == c && u in t.registry && t.registry[u] == b
  {
    var s2 := BothClaim(s, b, c, u);
    var s4 := BothEvict(s2, b, c, u);
    t := BothList(s4, b, c, u);
    Then(Locked(), s, [ClaimIndex(b), ClaimIndex(c)], s2, [Evict(b), Evict(c)], s4);
    Then(Locked(), s, [ClaimIndex(b), ClaimIndex(c)] + [Evict(b), Evict(c)], s4, [List(c), List(b)], t);
    assert [ClaimIndex(b), ClaimIndex(c)] + [Evict(b), Evict(c)] + [List(c), List(b)]
      == [ClaimIndex(b), ClaimIndex(c), Evict(b), Evict(c), List(c), List(b)];
  }

  ghost predicate Both(s: State, b: ChannelId, c: ChannelId) {
    b != c && b in s.channels && c in s.channels
  }

  lemma BothClaim(s: State, b: ChannelId, c: ChannelId, u: Uuid) returns (t: State)
    requires Both(s, b, c) && s.channels[b].phase == Settled(u) && s.channels[c].phase == Settled(u)
    ensures Reaches(Locked(), s, [ClaimIndex(b), ClaimIndex(c)], t) && Both(t, b, c)
    ensures t.channels[b].phase.Indexed? && t.channels[b].phase.uuid == u
    ensures t.channels[c].phase.Indexed? && t.channels[c].phase.uuid == u
    ensures u in t.index && t.index[u] == c
  {
    var m := Apply(s, ClaimIndex(b));
    t := Apply(m, ClaimIndex(c));
    Two(Locked(), s, ClaimIndex(b), m, ClaimIndex(c), t);
  }

  lemma BothEvict(s: State, b: ChannelId, c: ChannelId, u: Uuid) returns (t: State)
    requires Both(s, b, c) && s.channels[b].phase.Indexed? && s.channels[c].phase.Indexed?
    requires s.channels[b].phase.uuid == u && s.channels[c].phase.uuid == u
    ensures Reaches(Locked(), s, [Evict(b), Evict(c)], t) && Both(t, b, c) && t.index == s.index
    ensures t.channels[b].phase == Evicted(u) && t.channels[c].phase == Evicted(u)
  {
    var m := Apply(s, Evict(b));
    t := Apply(m, Evict(c));
    Two(Locked(), s, Evict(b), m, Evict(c), t);
  }

  lemma BothList(s: State, b: ChannelId, c: ChannelId, u: Uuid) returns (t: State)
    requires Both(s, b, c) && s.channels[b].phase == Evicted(u) && s.channels[c].phase == Evicted(u)
    ensures Reaches(Locked(), s, [List(c), List(b)], t) && t.index == s.index && u in t.registry && t.registry[u] == b
  {
    var m := Apply(s, List(c));
    t := Apply(m, List(b));
    Two(Locked(), s, List(c), m, List(b), t);
  }

  /** No handle belongs to a channel that has finished. */
  ghost predicate NoLeak(s: State) {
    forall c :: c in s.control ==> c in s.channels && !s.channels[c].phase.Done?
  }

  /** A step ends its channel only as the last region of the cleanup, which drops the handle. */
  lemma DoneMeansDropped(s: State, a: Action)
    requires Local(s, a) && !a.InsertHandle? && ChannelAfter(s, a).phase.Done?
    ensures a.CleanControl? && a.id !in ControlAfter(s, a)
  {
  }

  lemma OthersDoNotLeak(s: State, a: Action)
    requires NoLeak(s) && Local(s, a) && IndexInv(s) && !a.InsertHandle?
    ensures NoLeak(Apply(s, a))
  {
    StepHandles(s, a);
    if ChannelAfter(s, a).phase.Done? {
      DoneMeansDropped(s, a);
    }
    assert a.id in ControlAfter(s, a) ==> !ChannelAfter(s, a).phase.Done?;
    assert forall c :: c in ControlAfter(s, a) && c != a.id ==> c in s.control;
  }

  /** A handle is left behind exactly when it is stored after its channel has finished. */
  lemma HandleLeaksIff(s: State, a: Action)
    requires Inv(s) && NoLeak(s) && Enabled(s, a)
    ensures NoLeak(Apply(s, a)) <==> !(a.InsertHandle? && s.channels[a.id].phase.Done?)
  {
    if !a.Drain? && !a.Restart? && !a.InsertHandle? {
      assert Local(s, a);
      OthersDoNotLeak(s, a);
    }
  }

  /** A channel starts running before its handle is stored, so in every state a new
      channel can finish its cleanup first; the handle then stays behind with no one left to
      drop it. */
  lemma HandleOutlivesChannel(s: State, c: ChannelId, d: Digest) returns (t: State)
    requires c !in s.usedIds
    ensures Reaches(Locked(), s, [Handshake(c, d), Exit(c), CleanIndex(c), CleanControl(c), InsertHandle(c)], t)
    ensures c in t.control && c in t.channels && t.channels[c].phase.Done?
  {
    var m := OpensAndLeaves(s, c, d);
    t := CleansBeforeInsert(m, c);
    Then(Locked(), s, [Handshake(c, d), Exit(c)], m, [CleanIndex(c), CleanControl(c), InsertHandle(c)], t);
    assert [Handshake(c, d), Exit(c)] + [CleanIndex(c), CleanControl(c), InsertHandle(c)]
      == [Handshake(c, d), Exit(c), CleanIndex(c), CleanControl(c), InsertHandle(c)];
  }

  lemma OpensAndLeaves(s: State, c: ChannelId, d: Digest) returns (t: State)
    requires c !in s.usedIds
    ensures Reaches(Locked(), s, [Handshake(c, d), Exit(c)], t)
    ensures c in t.channels && t.channels[c] == Channel(d, Exiting, None, false, [], false)
  {
    var m := Apply(s, Handshake(c, d));
    t := Apply(m, Exit(c));
    Two(Locked(), s, Handshake(c, d), m, Exit(c), t);
  }

  lemma CleansBeforeInsert(s: State, c: ChannelId) returns (t: State)
    requires c in s.channels && s.channels[c].phase.Exiting? && s.channels[c].nodeUuid.None? && !s.channels[c].inserted
    ensures Reaches(Locked(), s, [CleanIndex(c), CleanControl(c), InsertHandle(c)], t)
    ensures c in t.control && c in t.channels && t.channels[c].phase.Done?
  {
    var s1 := Apply(s, CleanIndex(c));
    var s2 := Apply(s1, CleanControl(c));
    t := Apply(s2, InsertHandle(c));
    ThreeSteps(Locked(), s, s1, s2, t, [CleanIndex(c), CleanControl(c), InsertHandle(c)]);
  }

  /** After a restart that could not read the rows, any client may claim any stored uuid, and
      the row changes owner as soon as its first report is written. */
  lemma ForgottenRowChangesOwner(s: State, u: Uuid, c: ChannelId, d: Digest, unused: Uuid) returns (t: State)
    requires u in s.rows && c !in s.usedIds
    ensures Reaches(Atomic(), s, [Reboot(false), Open(c, d), Report(c, Some(u), unused), Sync(true)], t)
    ensures u in t.rows && t.rows[u].digest == d
  {
    var blank := Handle(s, Reboot(false));
    var joined := Handle(blank, Open(c, d));
    Two(Atomic(), s, Reboot(false), blank, Open(c, d), joined);
    t := UnboundClaimIsStored(joined, u, c, unused);
    Then(Atomic(), s, [Reboot(false), Open(c, d)], joined, [Report(c, Some(u), unused), Sync(true)], t);
    assert [Reboot(false), Open(c, d)] + [Report(c, Some(u), unused), Sync(true)]
      == [Reboot(false), Open(c, d), Report(c, Some(u), unused), Sync(true)];
  }

  lemma UnboundClaimIsStored(s: State, u: Uuid, c: ChannelId, unused: Uuid) returns (t: State)
    requires Ready(s, Report(c, Some(u), unused)) && s.channels[c].nodeUuid.None? && u !in s.bindings && s.queue == []
    ensures Reaches(Atomic(), s, [Report(c, Some(u), unused), Sync(true)], t)
    ensures u in t.rows && t.rows[u].digest == s.channels[c].digest
  {
    var reported := Handle(s, Report(c, Some(u), unused));
    assert reported.queue == [Connected(u, s.channels[c].digest)];
    t := Handle(reported, Sync(true));
    Two(Atomic(), s, Report(c, Some(u), unused), reported, Sync(true), t);
  }
}
