/**
 The same protocol with each message handler as one step.  A handler is a closed form of
 the whole sequence of lock regions it runs through, and that sequence is a lock-level run.
 */
module IdentityHandlers {
  import opened Basics
  import opened Identity
  import opened IdentityTheorems
  import opened Chains

  datatype Handler =
    | Open(id: ChannelId, digest: Digest)
    | Report(id: ChannelId, claim: Option<Uuid>, unused: Uuid)
    | Close(id: ChannelId)
    | Sync(stored: bool)
    | Reboot(loaded: bool)

  ghost predicate Ready(s: State, h: Handler) {
    match h
    case Open(c, _) => c !in s.usedIds
    case Report(c, _, unused) => c in s.channels && s.channels[c].phase.Idle? && unused !in s.bindings
    case Close(c) => c in s.channels && s.channels[c].phase.Idle?
    case Sync(_) => s.queue != []
    case Reboot(_) => true
  }

  /** The identity a report settles on. */
  ghost function Settle(s: State, c: ChannelId, claim: Option<Uuid>, unused: Uuid): Resolution
    requires c in s.channels && unused !in s.bindings
  {
    Resolving(s, s.channels[c], claim, s.registry.Keys, unused)
  }

  function With(s: State, c: ChannelId, ch: Channel): State {
    s.(channels := s.channels[c := ch])
  }

  ghost function Handle(s: State, h: Handler): State
    requires Ready(s, h)
  {
    match h
    case Open(c, d) =>
      s.(channels := s.channels[c := Channel(d, Idle, None, false, [], true)],
         control := s.control + {c}, usedIds := s.usedIds + {c})
    case Report(c, claim, unused) =>
      var ch := s.channels[c];
      var r := Settle(s, c, claim, unused);
      s.(bindings := r.bindings,
         index := s.index[r.uuid := c],
         registry := s.registry[r.uuid := c],
         control := if r.uuid in s.index && s.index[r.uuid] != c then s.control - {s.index[r.uuid]} else s.control,
         channels := s.channels[c := ch.(nodeUuid := Some(r.uuid), reported := true,
           told := if r.assign then ch.told + [r.uuid] else ch.told)],
         queue := s.queue + [Connected(r.uuid, ch.digest)])
    case Close(c) =>
      var ch := s.channels[c];
      (match ch.nodeUuid
       case None =>
         s.(channels := s.channels[c := ch.(phase := Done, reported := false)], control := s.control - {c})
       case Some(u) =>
         s.(channels := s.channels[c := ch.(phase := Done, reported := false)],
            control := s.control - {c},
            index := if u in s.index && s.index[u] == c then s.index - {u} else s.index,
            registry := s.registry - {u},
            queue := if ch.reported then s.queue + [Disconnected(u)] else s.queue))
    case Sync(stored) => Apply(s, Drain(stored))
    case Reboot(loaded) => Apply(s, Restart(loaded))
  }

  /** The lock regions a handler goes through. */
  function Regions(s: State, h: Handler): seq<Action> {
    match h
    case Open(c, d) => [Handshake(c, d), InsertHandle(c)]
    case Report(c, claim, unused) =>
      [Snapshot(c, claim), Resolve(c, unused), Announce(c), DropOld(c),
       ClaimIndex(c), Evict(c), List(c), Publish(c)]
    case Close(c) =>
      if c in s.channels && s.channels[c].nodeUuid.None? then [Exit(c), CleanIndex(c), CleanControl(c)]
      else [Exit(c), CleanIndex(c), CleanRegistry(c), CleanControl(c)]
    case Sync(stored) => [Drain(stored)]
    case Reboot(loaded) => [Restart(loaded)]
  }

  // ---- A handler is a lock-level run ----

  /** Channel `c` in state `s` moved to `phase`. */
  function At(s: State, c: ChannelId, phase: Phase): State
    requires c in s.channels
  {
    With(s, c, s.channels[c].(phase := phase))
  }

  lemma ResolveStep(s: State, c: ChannelId, claim: Option<Uuid>, unused: Uuid)
    requires Ready(s, Report(c, claim, unused))
    ensures var r := Settle(s, c, claim, unused);
      Step(At(s, c, Snapshotted(claim, s.registry.Keys)), Resolve(c, unused),
           At(s, c, Resolved(r.uuid, r.assign)).(bindings := r.bindings))
  {
  }

  lemma AnnounceStep(s: State, c: ChannelId, u: Uuid, assign: bool)
    requires c in s.channels
    ensures Step(At(s, c, Resolved(u, assign)), Announce(c),
                 At(Told(s, c, u, assign), c, Announced(u)))
  {
  }

  function Told(s: State, c: ChannelId, u: Uuid, assign: bool): State
    requires c in s.channels
  {
    if assign then With(s, c, s.channels[c].(told := s.channels[c].told + [u])) else s
  }

  /** `control` once `c` has evicted the channel it displaced from uuid `u`. */
  function Unhooked(s: State, c: ChannelId, u: Uuid): set<ChannelId> {
    if u in s.index && s.index[u] != c then s.control - {s.index[u]} else s.control
  }

  lemma DropStep(s: State, c: ChannelId, u: Uuid)
    requires c in s.channels && (s.channels[c].nodeUuid.Some? ==> s.channels[c].nodeUuid.value == u)
    ensures Step(At(s, c, Announced(u)), DropOld(c), At(s, c, Settled(u)))
  {
  }

  lemma ClaimStep(s: State, c: ChannelId, u: Uuid)
    requires c in s.channels
    ensures Step(At(s, c, Settled(u)), ClaimIndex(c), At(s.(index := s.index[u := c]), c, Indexed(u, Lookup(s.index, u))))
  {
  }

  lemma EvictStep(s: State, c: ChannelId, u: Uuid, victim: Option<ChannelId>)
    requires c in s.channels
    ensures Step(At(s, c, Indexed(u, victim)), Evict(c),
                 At(s.(control := if victim.Some? && victim.value != c then s.control - {victim.value} else s.control),
                    c, Evicted(u)))
  {
  }

  lemma ListSteps(s: State, c: ChannelId, u: Uuid)
    requires c in s.channels
    ensures var ch := s.channels[c];
      var listed := s.(registry := s.registry[u := c]);
      && Step(At(s, c, Evicted(u)), List(c), At(listed, c, Listed(u)))
      && Step(At(listed, c, Listed(u)), Publish(c),
              With(listed, c, ch.(phase := Idle, nodeUuid := Some(u), reported := true)).(queue :=
                s.queue + [Connected(u, ch.digest)]))
  {
  }

  /** What the regions after the announcement do to a state in which `c` owns `u`. */
  function TakenOver(s: State, c: ChannelId, u: Uuid): State
    requires c in s.channels
  {
    var ch := s.channels[c];
    s.(index := s.index[u := c], registry := s.registry[u := c], control := Unhooked(s, c, u),
       channels := s.channels[c := ch.(phase := Idle, nodeUuid := Some(u), reported := true)],
       queue := s.queue + [Connected(u, ch.digest)])
  }

  lemma ReportHead(s: State, c: ChannelId, claim: Option<Uuid>, unused: Uuid)
    requires Ready(s, Report(c, claim, unused))
    ensures var r := Settle(s, c, claim, unused);
      Reaches(Locked(), s, [Snapshot(c, claim), Resolve(c, unused), Announce(c)],
              At(Told(s.(bindings := r.bindings), c, r.uuid, r.assign), c, Announced(r.uuid)))
  {
    var r := Settle(s, c, claim, unused);
    var s1 := At(s, c, Snapshotted(claim, s.registry.Keys));
    var s2 := At(s, c, Resolved(r.uuid, r.assign)).(bindings := r.bindings);
    ResolveStep(s, c, claim, unused);
    AnnounceStep(s.(bindings := r.bindings), c, r.uuid, r.assign);
    ThreeSteps(Locked(), s, s1, s2, At(Told(s.(bindings := r.bindings), c, r.uuid, r.assign), c, Announced(r.uuid)),
               [Snapshot(c, claim), Resolve(c, unused), Announce(c)]);
  }

  lemma TakeOverIsLockRun(s: State, c: ChannelId, u: Uuid)
    requires c in s.channels && (s.channels[c].nodeUuid.Some? ==> s.channels[c].nodeUuid.value == u)
    ensures Reaches(Locked(), At(s, c, Announced(u)), [DropOld(c), ClaimIndex(c), Evict(c)],
                    At(s.(index := s.index[u := c], control := Unhooked(s, c, u)), c, Evicted(u)))
  {
    DropStep(s, c, u);
    ClaimStep(s, c, u);
    EvictStep(s.(index := s.index[u := c]), c, u, Lookup(s.index, u));
    ThreeSteps(Locked(), At(s, c, Announced(u)), At(s, c, Settled(u)),
               At(s.(index := s.index[u := c]), c, Indexed(u, Lookup(s.index, u))),
               At(s.(index := s.index[u := c], control := Unhooked(s, c, u)), c, Evicted(u)),
               [DropOld(c), ClaimIndex(c), Evict(c)]);
  }

  lemma ListIsLockRun(s: State, c: ChannelId, u: Uuid)
    requires c in s.channels
    ensures var ch := s.channels[c];
      Reaches(Locked(), At(s, c, Evicted(u)), [List(c), Publish(c)],
              With(s.(registry := s.registry[u := c]), c, ch.(phase := Idle, nodeUuid := Some(u), reported := true)).(queue :=
                s.queue + [Connected(u, ch.digest)]))
  {
    var ch := s.channels[c];
    var listed := s.(registry := s.registry[u := c]);
    ListSteps(s, c, u);
    Two(Locked(), At(s, c, Evicted(u)), List(c), At(listed, c, Listed(u)), Publish(c),
        With(listed, c, ch.(phase := Idle, nodeUuid := Some(u), reported := true)).(queue := s.queue + [Connected(u, ch.digest)]));
  }

  lemma ReportForm(s: State, c: ChannelId, claim: Option<Uuid>, unused: Uuid)
    requires Ready(s, Report(c, claim, unused))
    ensures var r := Settle(s, c, claim, unused);
      TakenOver(Told(s.(bindings := r.bindings), c, r.uuid, r.assign), c, r.uuid) == Handle(s, Report(c, claim, unused))
  {
    var r := Settle(s, c, claim, unused);
    var t := TakenOver(Told(s.(bindings := r.bindings), c, r.uuid, r.assign), c, r.uuid);
    assert t.channels == Handle(s, Report(c, claim, unused)).channels;
  }

  lemma ReportIsLockRun(s: State, c: ChannelId, claim: Option<Uuid>, unused: Uuid)
    requires Ready(s, Report(c, claim, unused)) && ChannelInv(s.channels[c], s.bindings)
    ensures Reaches(Locked(), s, Regions(s, Report(c, claim, unused)), Handle(s, Report(c, claim, unused)))
  {
    var r := Settle(s, c, claim, unused);
    var told := Told(s.(bindings := r.bindings), c, r.uuid, r.assign);
    var head := [Snapshot(c, claim), Resolve(c, unused), Announce(c)];
    var middle := [DropOld(c), ClaimIndex(c), Evict(c)];
    var taken := told.(index := told.index[r.uuid := c], control := Unhooked(told, c, r.uuid));
    ReportHead(s, c, claim, unused);
    TakeOverIsLockRun(told, c, r.uuid);
    ListIsLockRun(taken, c, r.uuid);
    ReportForm(s, c, claim, unused);
    Then(Locked(), s, head, At(told, c, Announced(r.uuid)), middle, At(taken, c, Evicted(r.uuid)));
    Then(Locked(), s, head + middle, At(taken, c, Evicted(r.uuid)), [List(c), Publish(c)], TakenOver(told, c, r.uuid));
    assert head + middle + [List(c), Publish(c)] == Regions(s, Report(c, claim, unused));
  }

  lemma UnresolvedExitStep(s: State, c: ChannelId)
    requires Ready(s, Close(c)) && s.channels[c].nodeUuid.None?
    ensures Step(s, Exit(c), With(s, c, s.channels[c].(phase := Exiting, reported := false)))
  {
  }

  lemma UnresolvedCleanup(s: State, c: ChannelId)
    requires c in s.channels && s.channels[c].nodeUuid.None?
    ensures Step(At(s, c, Exiting), CleanIndex(c), At(s, c, Unlisted))
  {
  }

  lemma CleanControlStep(s: State, c: ChannelId)
    requires c in s.channels
    ensures Step(At(s, c, Unlisted), CleanControl(c), At(s.(control := s.control - {c}), c, Done))
  {
  }

  lemma CloseUnresolvedIsLockRun(s: State, c: ChannelId)
    requires Ready(s, Close(c)) && s.channels[c].nodeUuid.None?
    ensures Reaches(Locked(), s, Regions(s, Close(c)), Handle(s, Close(c)))
  {
    var gone := With(s, c, s.channels[c].(reported := false));
    var end := At(gone.(control := s.control - {c}), c, Done);
    UnresolvedExitStep(s, c);
    assert At(gone, c, Exiting) == With(s, c, s.channels[c].(phase := Exiting, reported := false));
    UnresolvedCleanup(gone, c);
    CleanControlStep(gone, c);
    assert end == Handle(s, Close(c));
    ThreeSteps(Locked(), s, At(gone, c, Exiting), At(gone, c, Unlisted), end, [Exit(c), CleanIndex(c), CleanControl(c)]);
  }

  lemma CleanIndexStep(s: State, c: ChannelId, u: Uuid)
    requires c in s.channels && s.channels[c].phase == Exiting && s.channels[c].nodeUuid == Some(u)
    ensures Step(s, CleanIndex(c), At(s.(index :=
      if u in s.index && s.index[u] == c then s.index - {u} else s.index), c, Unindexed(u)))
  {
  }

  lemma CleanRegistryStep(s: State, c: ChannelId, u: Uuid)
    requires c in s.channels
    ensures Step(At(s, c, Unindexed(u)), CleanRegistry(c), At(s.(registry := s.registry - {u}), c, Unlisted))
  {
  }

  lemma ExitStep(s: State, c: ChannelId, u: Uuid)
    requires Ready(s, Close(c)) && ChannelInv(s.channels[c], s.bindings) && s.channels[c].nodeUuid == Some(u)
    ensures Step(s, Exit(c), With(s, c, s.channels[c].(phase := Exiting, reported := false)).(queue := Handle(s, Close(c)).queue))
  {
  }

  lemma CleanupIsLockRun(s: State, c: ChannelId, u: Uuid)
    requires c in s.channels && s.channels[c].phase == Exiting && s.channels[c].nodeUuid == Some(u)
    ensures Reaches(Locked(), s, [CleanIndex(c), CleanRegistry(c), CleanControl(c)],
      At(s.(control := s.control - {c}, registry := s.registry - {u},
            index := if u in s.index && s.index[u] == c then s.index - {u} else s.index), c, Done))
  {
    var unindexed := s.(index := if u in s.index && s.index[u] == c then s.index - {u} else s.index);
    var unlisted := unindexed.(registry := s.registry - {u});
    CleanIndexStep(s, c, u);
    CleanRegistryStep(unindexed, c, u);
    CleanControlStep(unlisted, c);
    ThreeSteps(Locked(), s, At(unindexed, c, Unindexed(u)), At(unlisted, c, Unlisted),
               At(unlisted.(control := s.control - {c}), c, Done), [CleanIndex(c), CleanRegistry(c), CleanControl(c)]);
  }

  lemma CloseResolvedIsLockRun(s: State, c: ChannelId, u: Uuid)
    requires Ready(s, Close(c)) && ChannelInv(s.channels[c], s.bindings) && s.channels[c].nodeUuid == Some(u)
    ensures Reaches(Locked(), s, Regions(s, Close(c)), Handle(s, Close(c)))
  {
    var t := Handle(s, Close(c));
    var s1 := With(s, c, s.channels[c].(phase := Exiting, reported := false)).(queue := t.queue);
    ExitStep(s, c, u);
    CleanupIsLockRun(s1, c, u);
    assert s1.channels[c := t.channels[c]] == t.channels;
    Before(Locked(), s, Exit(c), s1, [CleanIndex(c), CleanRegistry(c), CleanControl(c)], t);
    assert [Exit(c)] + [CleanIndex(c), CleanRegistry(c), CleanControl(c)] == Regions(s, Close(c));
  }

  /** In every invariant state a handler does exactly what its lock regions do in order. */
  lemma HandlerIsLockRun(s: State, h: Handler)
    requires Inv(s) && Ready(s, h)
    ensures Reaches(Locked(), s, Regions(s, h), Handle(s, h))
  {
    match h
    case Open(c, d) =>
      OpenIsLockRun(s, c, d);
    case Report(c, claim, unused) =>
      ReportIsLockRun(s, c, claim, unused);
    case Close(c) =>
      if s.channels[c].nodeUuid.None? {
        CloseUnresolvedIsLockRun(s, c);
      } else {
        CloseResolvedIsLockRun(s, c, s.channels[c].nodeUuid.value);
      }
    case Sync(stored) =>
      OneStep(Locked(), s, Drain(stored), Handle(s, h));
    case Reboot(loaded) =>
      OneStep(Locked(), s, Restart(loaded), Handle(s, h));
  }

  lemma OpenIsLockRun(s: State, c: ChannelId, d: Digest)
    requires Ready(s, Open(c, d))
    ensures Reaches(Locked(), s, Regions(s, Open(c, d)), Handle(s, Open(c, d)))
  {
    var s1 := Apply(s, Handshake(c, d));
    assert Step(s1, InsertHandle(c), Handle(s, Open(c, d)));
    Two(Locked(), s, Handshake(c, d), s1, InsertHandle(c), Handle(s, Open(c, d)));
  }

  lemma HandlerKeepsInv(s: State, h: Handler)
    requires Inv(s) && Ready(s, h)
    ensures Inv(Handle(s, h))
  {
    HandlerIsLockRun(s, h);
    var actions := Regions(s, h);
    var states :| Path(Locked(), states, actions) && states[0] == s && states[|actions|] == Handle(s, h);
    forall x, a, y | a in actions && Inv(x) && Locked()(x, a, y) ensures Inv(y) {
      StepKeepsInv(x, a);
    }
    PathKeeps(Locked(), x => Inv(x), states, actions, |actions|);
  }
}
