/**
 What every run of the identity protocol keeps, and where it does not.
 */
module IdentityTheorems {
  import opened Basics
  import opened Identity
  import opened Chains

  // ---- One step keeps the invariant ----

  ghost predicate Extends(m: map<Uuid, Digest>, n: map<Uuid, Digest>) {
    forall u :: u in m ==> u in n && n[u] == m[u]
  }

  /** What a step of channel `a.id` may assume about that channel alone. */
  ghost predicate Local(s: State, a: Action) {
    && Enabled(s, a) && !a.Drain? && !a.Restart?
    && (a.Handshake? ==> a.id !in s.channels)
    && (!a.Handshake? ==> a.id in s.usedIds && ChannelInv(s.channels[a.id], s.bindings))
  }

  lemma BindingsGrow(s: State, a: Action)
    requires Enabled(s, a) && !a.Restart?
    ensures Extends(s.bindings, BindingsAfter(s, a))
  {
  }

  /** A channel only ever moves within its own invariant. */
  lemma ChannelStepKeepsChannelInv(s: State, a: Action)
    requires Local(s, a)
    ensures ChannelInv(ChannelAfter(s, a), BindingsAfter(s, a))
  {
  }

  /** ... and keeps its digest, its uuid once resolved, its handle and what it was told. */
  lemma ChannelStepKeepsIdentity(s: State, a: Action)
    requires Local(s, a) && !a.Handshake?
    ensures var before, after := s.channels[a.id], ChannelAfter(s, a);
      && after.digest == before.digest && before.told <= after.told
      && (before.inserted ==> after.inserted)
      && (Owned(before).Some? ==> Owned(after) == Owned(before))
  {
  }

  /** `t` is `s` after one step of channel `c`: the other channels stand still, no binding
      changes hands and `c` keeps a uuid it has resolved. */
  ghost predicate Moves(s: State, c: ChannelId, t: State) {
    && c in t.channels && t.channels == s.channels[c := t.channels[c]]
    && Extends(s.bindings, t.bindings)
    && ChannelInv(t.channels[c], t.bindings)
    && (c in s.channels && Owned(s.channels[c]).Some? ==> Owned(t.channels[c]) == Owned(s.channels[c]))
    && (c in s.channels && s.channels[c].inserted ==> t.channels[c].inserted)
  }

  lemma StepMoves(s: State, a: Action)
    requires Local(s, a)
    ensures Moves(s, a.id, Apply(s, a))
  {
    BindingsGrow(s, a);
    ChannelStepKeepsChannelInv(s, a);
    if !a.Handshake? {
      ChannelStepKeepsIdentity(s, a);
    }
  }

  lemma StepQueues(s: State, a: Action)
    requires Enabled(s, a) && !a.Restart? && QueueAgrees(s.queue, s.bindings)
    requires a.Publish? ==> ChannelInv(s.channels[a.id], s.bindings)
    ensures QueueAgrees(QueueAfter(s, a), s.bindings)
  {
  }

  lemma QueueMonotone(queue: seq<Event>, m: map<Uuid, Digest>, n: map<Uuid, Digest>)
    requires QueueAgrees(queue, m) && Extends(m, n)
    ensures QueueAgrees(queue, n)
  {
  }

  /** Every entry of `m` that is not in `n` names `c` under its own uuid. */
  ghost predicate AddsOnly(n: map<Uuid, ChannelId>, m: map<Uuid, ChannelId>, c: ChannelId, ch: Channel) {
    forall u :: u in m ==> (u in n && n[u] == m[u]) || (m[u] == c && Owned(ch) == Some(u))
  }

  ghost predicate Absent(m: map<Uuid, ChannelId>, c: ChannelId) {
    forall u :: u in m ==> m[u] != c
  }

  lemma StepIndexes(s: State, a: Action)
    requires Local(s, a) && IndexInv(s)
    ensures AddsOnly(s.index, IndexAfter(s, a), a.id, ChannelAfter(s, a))
    ensures IndexCleaned(ChannelAfter(s, a)) ==> Absent(IndexAfter(s, a), a.id)
  {
  }

  lemma StepLists(s: State, a: Action)
    requires Local(s, a) && RegistryInv(s)
    ensures AddsOnly(s.registry, RegistryAfter(s, a), a.id, ChannelAfter(s, a))
    ensures RegistryCleaned(ChannelAfter(s, a)) ==> Absent(RegistryAfter(s, a), a.id)
  {
  }

  lemma StepHandles(s: State, a: Action)
    requires Local(s, a) && IndexInv(s)
    ensures ControlAfter(s, a) <= s.control + (if ChannelAfter(s, a).inserted then {a.id} else {})
    ensures var ph := ChannelAfter(s, a).phase; ph.Indexed? && ph.displaced.Some? && !a.InsertHandle? ==>
      ph.displaced.value in s.channels && Owned(s.channels[ph.displaced.value]) == Some(ph.uuid)
  {
  }

  lemma MoveKeepsChannels(s: State, c: ChannelId, t: State)
    requires Moves(s, c, t) && ChannelsInv(s)
    ensures ChannelsInv(t)
  {
  }

  lemma MoveKeepsIndex(s: State, c: ChannelId, t: State)
    requires Moves(s, c, t) && IndexInv(s)
    requires AddsOnly(s.index, t.index, c, t.channels[c])
    requires IndexCleaned(t.channels[c]) ==> Absent(t.index, c)
    ensures IndexInv(t)
  {
  }

  lemma MoveKeepsRegistry(s: State, c: ChannelId, t: State)
    requires Moves(s, c, t) && RegistryInv(s)
    requires AddsOnly(s.registry, t.registry, c, t.channels[c])
    requires RegistryCleaned(t.channels[c]) ==> Absent(t.registry, c)
    ensures RegistryInv(t)
  {
  }

  lemma MoveKeepsHandles(s: State, c: ChannelId, t: State)
    requires Moves(s, c, t) && DisplacedInv(s) && HandlesInv(s) && t.usedIds == s.usedIds + {c}
    requires t.control <= s.control + (if t.channels[c].inserted then {c} else {})
    requires var ph := t.channels[c].phase; ph.Indexed? && ph.displaced.Some? ==>
      ph.displaced.value in s.channels && Owned(s.channels[ph.displaced.value]) == Some(ph.uuid)
    ensures DisplacedInv(t) && HandlesInv(t)
  {
  }

  /** The parts of a channel step, put together. */
  lemma StepParts(s: State, a: Action)
    requires Inv(s) && Local(s, a)
    ensures var t := Apply(s, a);
      && Moves(s, a.id, t) && QueueInv(t)
      && AddsOnly(s.index, t.index, a.id, t.channels[a.id])
      && (IndexCleaned(t.channels[a.id]) ==> Absent(t.index, a.id))
      && AddsOnly(s.registry, t.registry, a.id, t.channels[a.id])
      && (RegistryCleaned(t.channels[a.id]) ==> Absent(t.registry, a.id))
  {
    StepMoves(s, a);
    StepQueues(s, a);
    QueueMonotone(QueueAfter(s, a), s.bindings, BindingsAfter(s, a));
    StepIndexes(s, a);
    StepLists(s, a);
  }

  lemma HandleParts(s: State, a: Action)
    requires Inv(s) && Local(s, a)
    ensures var t := Apply(s, a); t.usedIds == s.usedIds + {a.id} && DisplacedInv(t) && HandlesInv(t)
  {
    var t := Apply(s, a);
    StepMoves(s, a);
    StepHandles(s, a);
    assert t.usedIds == s.usedIds + {a.id};
    if a.InsertHandle? {
      assert t.channels[a.id].phase == s.channels[a.id].phase;
    }
    MoveKeepsHandles(s, a.id, t);
  }

  lemma ChannelStepKeepsInv(s: State, a: Action)
    requires Inv(s) && Local(s, a)
    ensures Inv(Apply(s, a))
  {
    var t := Apply(s, a);
    StepParts(s, a);
    HandleParts(s, a);
    MoveKeepsChannels(s, a.id, t);
    MoveKeepsIndex(s, a.id, t);
    MoveKeepsRegistry(s, a.id, t);
  }

  lemma DrainKeepsInv(s: State, a: Action)
    requires Inv(s) && Enabled(s, a)
    requires a.Drain? || a.Restart?
    ensures Inv(Apply(s, a))
  {
  }

  lemma StepKeepsInv(s: State, a: Action)
    requires Inv(s) && Enabled(s, a)
    ensures Inv(Apply(s, a))
  {
    if a.Drain? || a.Restart? {
      DrainKeepsInv(s, a);
    } else {
      assert Local(s, a);
      ChannelStepKeepsInv(s, a);
    }
  }

  // ---- Whole runs ----

  lemma StepAt(r: Run, i: nat)
    requires IsRun(r) && i < |r.actions|
    ensures Step(r.states[i], r.actions[i], r.states[i + 1])
  {
    assert Locked()(r.states[i], r.actions[i], r.states[i + 1]);
  }

  /** Every state of every run satisfies the invariant, whatever the restarts read. */
  lemma RunKeepsInv(r: Run, i: nat)
    requires IsRun(r) && i < |r.states|
    ensures Inv(r.states[i])
  {
    forall s, a, t | a in r.actions && Inv(s) && Locked()(s, a, t) ensures Inv(t) {
      StepKeepsInv(s, a);
    }
    PathKeeps(Locked(), s => Inv(s), r.states, r.actions, i);
  }

  /** Within one server lifetime no binding changes hands; a restart rebinds exactly the rows, or
      nothing if it cannot read them. */
  lemma StepKeepsBindings(s: State, a: Action)
    requires Enabled(s, a)
    ensures !a.Restart? ==> Extends(s.bindings, Apply(s, a).bindings)
    ensures a.Restart? ==> Apply(s, a).bindings == if a.loaded then Owners(s.rows) else map[]
  {
  }

  lemma StepKeepsRowsInv(s: State, a: Action)
    requires Enabled(s, a) && QueueInv(s) && RowsInv(s)
    ensures RowsInv(Apply(s, a)) <==> (a == Restart(false) ==> s.rows == map[])
  {
    if a.Restart? {
      RestartAgreesIff(s, a.loaded);
    } else {
      BindingsGrow(s, a);
    }
  }

  lemma {:induction false} RunKeepsRowsInv(r: Run, i: nat)
    requires IsRun(r) && RestartsLoad(r) && i < |r.states|
    ensures RowsInv(r.states[i])
  {
    if i > 0 {
      RunKeepsRowsInv(r, i - 1);
      RunKeepsInv(r, i - 1);
      StepAt(r, i - 1);
      StepKeepsRowsInv(r.states[i - 1], r.actions[i - 1]);
    }
  }

  lemma StepKeepsRows(s: State, a: Action, u: Uuid)
    requires Enabled(s, a) && QueueInv(s) && RowsInv(s) && u in s.rows
    ensures u in RowsAfter(s, a) && RowsAfter(s, a)[u].digest == s.rows[u].digest
  {
  }

  lemma RowStaysOwned(r: Run, i: nat, u: Uuid)
    requires IsRun(r) && RestartsLoad(r) && i < |r.actions| && u in r.states[i].rows
    ensures u in r.states[i + 1].rows && r.states[i + 1].rows[u].digest == r.states[i].rows[u].digest
  {
    StepAt(r, i);
    RunKeepsInv(r, i);
    RunKeepsRowsInv(r, i);
    StepKeepsRows(r.states[i], r.actions[i], u);
  }

  /** A uuid whose row has reached the database keeps the same owning digest forever,
      across any number of restarts that do not forget it. */
  lemma {:induction false} RowsKeepTheirOwner(r: Run, i: nat, j: nat, u: Uuid)
    requires IsRun(r) && RestartsLoad(r) && i <= j < |r.states|
    requires u in r.states[i].rows
    ensures u in r.states[j].rows && r.states[j].rows[u].digest == r.states[i].rows[u].digest
    ensures u in r.states[j].bindings && r.states[j].bindings[u] == r.states[i].rows[u].digest
    decreases j - i
  {
    RunKeepsRowsInv(r, j);
    if i < j {
      RowsKeepTheirOwner(r, i, j - 1, u);
      RowStaysOwned(r, j - 1, u);
    }
  }

  /** Once a row exists, only channels with its digest ever resolve, serve or are listed under
      its uuid, whatever clients of other digests claim. */
  lemma OnlyTheOwnerResolves(r: Run, i: nat, j: nat, u: Uuid, c: ChannelId)
    requires IsRun(r) && RestartsLoad(r) && i <= j < |r.states|
    requires u in r.states[i].rows && c in r.states[j].channels
    requires var s := r.states[j]; Owned(s.channels[c]) == Some(u) || Lookup(s.index, u) == Some(c) || Lookup(s.registry, u) == Some(c)
    ensures r.states[j].channels[c].digest == r.states[i].rows[u].digest
  {
    RowsKeepTheirOwner(r, i, j, u);
    RunKeepsInv(r, j);
    assert ChannelInv(r.states[j].channels[c], r.states[j].bindings);
  }

  /** A machine that claims its stored uuid again, after any number of restarts, is known by it
      exactly when it comes with the digest of the row; then no binding changes and it is told
      nothing, and otherwise it is told a new uuid. */
  lemma StoredClaimIsHonouredIff(r: Run, i: nat, j: nat, u: Uuid, c: ChannelId, unused: Uuid)
    requires IsRun(r) && RestartsLoad(r) && i <= j < |r.states| && u in r.states[i].rows
    requires Enabled(r.states[j], Resolve(c, unused))
    requires r.states[j].channels[c].nodeUuid.None? && r.states[j].channels[c].phase.claim == Some(u)
    ensures var s, t := r.states[j], Apply(r.states[j], Resolve(c, unused));
      && (t.channels[c].phase == Resolved(u, false) <==> s.channels[c].digest == r.states[i].rows[u].digest)
      && (t.channels[c].phase == Resolved(u, false) <==> t.bindings == s.bindings)
      && (t.channels[c].phase != Resolved(u, false) ==> t.channels[c].phase == Resolved(unused, true))
  {
    RowsKeepTheirOwner(r, i, j, u);
    var s := r.states[j];
    var ch := s.channels[c];
    ClaimOfBound(s.bindings, ch.digest, u, ch.phase.online, unused);
  }

  lemma ClaimOfBound(bindings: map<Uuid, Digest>, digest: Digest, u: Uuid, online: set<Uuid>, unused: Uuid)
    requires u in bindings && unused !in bindings
    ensures var r := ResolveClaim(bindings, digest, Some(u), online, unused);
      && (bindings[u] == digest ==> r == Resolution(bindings, u, false))
      && (bindings[u] != digest ==> r.uuid == unused && r.assign && r.bindings != bindings)
  {
  }

  /** What is promised to a client without a claim: an offline uuid of its digest if there is one, and
      a new uuid if all of them are online. */
  ghost predicate PromiseKept(bindings: map<Uuid, Digest>, digest: Digest, online: set<Uuid>, given: Uuid) {
    if exists u :: u in bindings && bindings[u] == digest && u !in online
    then given in bindings && bindings[given] == digest && given !in online
    else given !in bindings
  }

  /** The promise is kept exactly when all uuids of the digest are online or it has just one. */
  lemma PromiseKeptIff(bindings: map<Uuid, Digest>, digest: Digest, online: set<Uuid>, unused: Uuid)
    requires unused !in bindings
    ensures PromiseKept(bindings, digest, online, ResolveClaim(bindings, digest, None, online, unused).uuid) <==>
      (forall u :: u in bindings && bindings[u] == digest ==> u in online) || exists u :: SoleBinding(bindings, digest, u)
  {
    var r := ResolveClaim(bindings, digest, None, online, unused);
    if u :| SoleBinding(bindings, digest, u) {
      assert forall v :: v in bindings && bindings[v] == digest ==> v == u;
    }
  }

  /** A client without a claim whose digest owns two uuids is told a new one, even if both of them
      are offline. */
  lemma TwoUuidsMeanANewOne(bindings: map<Uuid, Digest>, digest: Digest, u: Uuid, v: Uuid, online: set<Uuid>, unused: Uuid)
    requires u != v && u in bindings && v in bindings && bindings[u] == bindings[v] == digest && unused !in bindings
    ensures ResolveClaim(bindings, digest, None, online, unused) == Resolution(bindings[unused := digest], unused, true)
  {
    assert forall w :: SoleBinding(bindings, digest, w) ==> w == u && w == v;
  }

  lemma StepKeepsIdentity(s: State, a: Action, c: ChannelId)
    requires Inv(s) && Enabled(s, a) && c in s.usedIds && c in ChannelsAfter(s, a)
    ensures c in s.channels
    ensures var before, after := s.channels[c], ChannelsAfter(s, a)[c];
      && after.digest == before.digest && before.told <= after.told
      && (Owned(before).Some? ==> Owned(after) == Owned(before))
  {
    if !a.Drain? && !a.Restart? && a.id == c {
      assert Local(s, a);
      ChannelStepKeepsIdentity(s, a);
    }
  }

  /** `after` is a later state of the channel `before`. */
  ghost predicate SameIdentity(before: Channel, after: Channel) {
    after.digest == before.digest && before.told <= after.told && (Owned(before).Some? ==> Owned(after) == Owned(before))
  }

  lemma IdentityAt(r: Run, i: nat, c: ChannelId)
    requires IsRun(r) && i < |r.actions| && c in r.states[i].usedIds && c in r.states[i + 1].channels
    ensures c in r.states[i].channels && SameIdentity(r.states[i].channels[c], r.states[i + 1].channels[c])
  {
    StepAt(r, i);
    RunKeepsInv(r, i);
    StepKeepsIdentity(r.states[i], r.actions[i], c);
  }

  lemma {:induction false} IdentityLasts(r: Run, i: nat, j: nat, c: ChannelId)
    requires IsRun(r) && i <= j < |r.states|
    requires c in r.states[i].channels && c in r.states[i].usedIds && c in r.states[j].channels
    ensures SameIdentity(r.states[i].channels[c], r.states[j].channels[c])
    decreases j - i
  {
    if i < j {
      UsedIdsGrow(r, i, j - 1, c);
      IdentityAt(r, j - 1, c);
      IdentityLasts(r, i, j - 1, c);
    }
  }

  /** A resolved channel keeps its uuid and its digest for life, and over that whole life it
      is sent at most one AssignNodeUuid, which names the uuid it keeps. */
  lemma ChannelsKeepTheirIdentity(r: Run, i: nat, j: nat, c: ChannelId)
    requires IsRun(r) && i <= j < |r.states|
    requires c in r.states[i].channels && c in r.states[j].channels
    ensures var before, after := r.states[i].channels[c], r.states[j].channels[c];
      && after.digest == before.digest
      && before.told <= after.told && |after.told| <= 1
      && (after.told != [] ==> Owned(after) == Some(after.told[0]))
      && (Owned(before).Some? ==> Owned(after) == Owned(before))
  {
    RunKeepsInv(r, i);
    RunKeepsInv(r, j);
    IdentityLasts(r, i, j, c);
    assert ChannelInv(r.states[j].channels[c], r.states[j].bindings);
  }

  lemma {:induction false} UsedIdsGrow(r: Run, i: nat, j: nat, c: ChannelId)
    requires IsRun(r) && i <= j < |r.states| && c in r.states[i].usedIds
    ensures c in r.states[j].usedIds
    decreases j - i
  {
    if i < j {
      UsedIdsGrow(r, i, j - 1, c);
      StepAt(r, j - 1);
    }
  }

  /** The branch that drops a previous uuid's registry entry is never taken. */
  lemma NoSecondUuid(r: Run, i: nat, c: ChannelId)
    requires IsRun(r) && i < |r.states|
    requires c in r.states[i].channels && r.states[i].channels[c].phase.Announced?
    ensures var ch := r.states[i].channels[c]; ch.nodeUuid.Some? ==> ch.nodeUuid.value == ch.phase.uuid
    ensures RegistryAfter(r.states[i], DropOld(c)) == r.states[i].registry
  {
    RunKeepsInv(r, i);
    assert ChannelInv(r.states[i].channels[c], r.states[i].bindings);
  }

  /** Two uuids never share a serving channel, and every serving or listed channel is a
      live one that resolved that uuid with the digest the uuid is bound to. */
  lemma IndexIsInjective(r: Run, i: nat, u: Uuid, v: Uuid)
    requires IsRun(r) && i < |r.states|
    requires u in r.states[i].index && v in r.states[i].index
    ensures r.states[i].index[u] == r.states[i].index[v] ==> u == v
    ensures r.states[i].index[u] in r.states[i].channels
    ensures var s := r.states[i]; var ch := s.channels[s.index[u]];
      !IndexCleaned(ch) && Owned(ch) == Some(u) && u in s.bindings && s.bindings[u] == ch.digest
  {
    RunKeepsInv(r, i);
    assert ChannelInv(r.states[i].channels[r.states[i].index[u]], r.states[i].bindings);
  }

  lemma IndexUntouched(s: State, a: Action)
    requires Enabled(s, a) && !a.ClaimIndex? && !a.CleanIndex? && !a.Restart?
    ensures IndexAfter(s, a) == s.index
  {
  }

  /** A serving channel loses its index entry only to its own cleanup, to a restart, or to
      another channel of the same digest that resolved the same uuid: the cleanup of a
      superseded channel never takes it. */
  lemma IndexHandover(r: Run, i: nat, u: Uuid)
    requires IsRun(r) && i < |r.actions| && u in r.states[i].index
    requires Lookup(r.states[i + 1].index, u) != Some(r.states[i].index[u])
    ensures var s, a := r.states[i], r.actions[i];
      var c := s.index[u];
      || a.Restart?
      || a == CleanIndex(c)
      || (a.ClaimIndex? && a.id != c && c in s.channels && a.id in s.channels
          && Owned(s.channels[a.id]) == Some(u) && s.channels[a.id].digest == s.channels[c].digest)
  {
    var s, a := r.states[i], r.actions[i];
    RunKeepsInv(r, i);
    StepAt(r, i);
    if a.ClaimIndex? {
      assert ChannelInv(s.channels[a.id], s.bindings);
      assert ChannelInv(s.channels[s.index[u]], s.bindings);
    } else if !a.CleanIndex? && !a.Restart? {
      IndexUntouched(s, a);
    }
  }

  lemma HandlesUntouched(s: State, a: Action)
    requires Enabled(s, a) && !a.Evict? && !a.CleanControl? && !a.Restart?
    ensures s.control <= ControlAfter(s, a)
  {
  }

  /** A stored handle is dropped only by its own cleanup, by a restart, or by a channel that
      took over the same uuid with the same digest. */
  lemma HandleHandover(r: Run, i: nat, c: ChannelId)
    requires IsRun(r) && i < |r.actions|
    requires c in r.states[i].control && c !in r.states[i + 1].control
    ensures var s, a := r.states[i], r.actions[i];
      || a.Restart?
      || a == CleanControl(c)
      || (a.Evict? && a.id != c && c in s.channels && a.id in s.channels && Owned(s.channels[c]).Some?
          && Owned(s.channels[c]) == Owned(s.channels[a.id])
          && s.channels[a.id].digest == s.channels[c].digest)
  {
    var s, a := r.states[i], r.actions[i];
    RunKeepsInv(r, i);
    StepAt(r, i);
    if a.Evict? {
      assert ChannelInv(s.channels[a.id], s.bindings);
      assert ChannelInv(s.channels[c], s.bindings);
    } else if !a.CleanControl? && !a.Restart? {
      HandlesUntouched(s, a);
    }
  }

  /** A restart leaves the rows and the bindings in agreement exactly when the rows were
      read or there were none. */
  lemma RestartAgreesIff(s: State, loaded: bool)
    ensures RowsInv(Apply(s, Restart(loaded))) <==> loaded || s.rows == map[]
  {
  }
}
