/**
 Node identity over the control channels, at lock granularity.

 Every control channel is a task of its own; the tasks meet in four shared maps
 (`bindings`, `index`, `registry`, `control`), in the bounded event queue towards
 the database and in the database itself.  One `Action` is one lock-protected
 region of the server (or one local step between two regions), so a `Run` is any
 interleaving of any number of channels, event drains and server restarts.

 Fresh v4 uuids and random channel ids are choices of unused names.  A uuid
 claim is taken after the text check (trim and syntax) of the report handler.
 */
module Identity {
  import opened Basics
  import opened Chains

  datatype Uuid = Uuid(text: string)
  datatype Digest = Digest(hex: string)

  /** Where a channel task stands between two of its lock regions. */
  datatype Phase =
    | Idle                                                      // in the select loop
    | Snapshotted(claim: Option<Uuid>, online: set<Uuid>)       // online uuids copied
    | Resolved(uuid: Uuid, assign: bool)                        // binding lock released
    | Announced(uuid: Uuid)                                     // AssignNodeUuid sent if due
    | Settled(uuid: Uuid)                                       // entry of an older uuid dropped
    | Indexed(uuid: Uuid, displaced: Option<ChannelId>)         // index lock released
    | Evicted(uuid: Uuid)                                       // displaced channel unhooked
    | Listed(uuid: Uuid)                                        // registry entry written
    | Exiting                                                   // run loop left
    | Unindexed(uuid: Uuid)                                     // cleanup: index done
    | Unlisted                                                  // cleanup: registry done
    | Done

  /** One channel task.  `nodeUuid` is also the slot the cleanup task reads, `reported`
      says that a hostname is known, `inserted` that the handshake has stored the handle. */
  datatype Channel = Channel(
    digest: Digest, phase: Phase, nodeUuid: Option<Uuid>, reported: bool,
    told: seq<Uuid>, inserted: bool)

  datatype Event = Connected(uuid: Uuid, digest: Digest) | Disconnected(uuid: Uuid)

  datatype Row = Row(digest: Digest, online: bool)

  /** `registry` maps a uuid to the channel whose senders its entry holds. */
  datatype State = State(
    bindings: map<Uuid, Digest>,
    index: map<Uuid, ChannelId>,
    registry: map<Uuid, ChannelId>,
    control: set<ChannelId>,
    channels: map<ChannelId, Channel>,
    queue: seq<Event>,
    rows: map<Uuid, Row>,
    usedIds: set<ChannelId>)

  datatype Action =
    | Handshake(id: ChannelId, digest: Digest)
    | InsertHandle(id: ChannelId)
    | Snapshot(id: ChannelId, claim: Option<Uuid>)
    | Resolve(id: ChannelId, unused: Uuid)
    | Announce(id: ChannelId)
    | DropOld(id: ChannelId)
    | ClaimIndex(id: ChannelId)
    | Evict(id: ChannelId)
    | List(id: ChannelId)
    | Publish(id: ChannelId)
    | Exit(id: ChannelId)
    | CleanIndex(id: ChannelId)
    | CleanRegistry(id: ChannelId)
    | CleanControl(id: ChannelId)
    | Drain(stored: bool)
    | Restart(loaded: bool)

  function Empty(): State {
    State(map[], map[], map[], {}, map[], [], map[], {})
  }

  // ---- Identity resolution under the binding lock ----

  /** `uuid` is the one and only uuid bound to `digest`. */
  ghost predicate SoleBinding(bindings: map<Uuid, Digest>, digest: Digest, uuid: Uuid) {
    && uuid in bindings && bindings[uuid] == digest
    && forall v :: v in bindings && bindings[v] == digest ==> v == uuid
  }

  datatype Resolution = Resolution(bindings: map<Uuid, Digest>, uuid: Uuid, assign: bool)

  ghost function ResolveClaim(
    bindings: map<Uuid, Digest>, digest: Digest, claim: Option<Uuid>, online: set<Uuid>, unused: Uuid)
    : (r: Resolution)
    requires unused !in bindings
    // the resolved uuid belongs to the asking digest and no binding changes hands
    ensures r.uuid in r.bindings && r.bindings[r.uuid] == digest
    ensures forall u :: u in bindings ==> u in r.bindings && r.bindings[u] == bindings[u]
    // and at most that one uuid is newly bound
    ensures r.bindings.Keys == bindings.Keys + {r.uuid}
    // a client keeps its claim exactly when nobody else owns it
    ensures claim.Some? ==>
      (r.uuid == claim.value && !r.assign <==> (claim.value in bindings ==> bindings[claim.value] == digest))
    // a client without a claim is always told its uuid: its sole offline one or a new one
    ensures claim.None? ==> r.assign
    ensures claim.None? && r.uuid in bindings ==> SoleBinding(bindings, digest, r.uuid) && r.uuid !in online
    ensures claim.None? ==>
      (r.uuid in bindings <==> exists u :: SoleBinding(bindings, digest, u) && u !in online)
    ensures claim.None? && r.uuid !in bindings ==> r.uuid == unused
  {
    match claim
    case Some(c) =>
      if c in bindings then
        if bindings[c] == digest then Resolution(bindings, c, false)
        else Resolution(bindings[unused := digest], unused, true)
      else Resolution(bindings[c := digest], c, false)
    case None =>
      if exists u :: SoleBinding(bindings, digest, u) && u !in online then
        var u :| SoleBinding(bindings, digest, u) && u !in online;
        Resolution(bindings, u, true)
      else Resolution(bindings[unused := digest], unused, true)
  }

  // ---- Steps ----

  ghost predicate Enabled(s: State, a: Action) {
    match a
    case Handshake(c, _) => c !in s.usedIds
    case InsertHandle(c) => c in s.channels && !s.channels[c].inserted
    case Snapshot(c, _) => c in s.channels && s.channels[c].phase.Idle?
    case Resolve(c, unused) => c in s.channels && s.channels[c].phase.Snapshotted? && unused !in s.bindings
    case Announce(c) => c in s.channels && s.channels[c].phase.Resolved?
    case DropOld(c) => c in s.channels && s.channels[c].phase.Announced?
    case ClaimIndex(c) => c in s.channels && s.channels[c].phase.Settled?
    case Evict(c) => c in s.channels && s.channels[c].phase.Indexed?
    case List(c) => c in s.channels && s.channels[c].phase.Evicted?
    case Publish(c) => c in s.channels && s.channels[c].phase.Listed?
    case Exit(c) => c in s.channels && s.channels[c].phase.Idle?
    case CleanIndex(c) => c in s.channels && s.channels[c].phase.Exiting?
    case CleanRegistry(c) => c in s.channels && s.channels[c].phase.Unindexed?
    case CleanControl(c) => c in s.channels && s.channels[c].phase.Unlisted?
    case Drain(_) => s.queue != []
    case Restart(_) => true
  }

  function Lookup(m: map<Uuid, ChannelId>, u: Uuid): Option<ChannelId> {
    if u in m then Some(m[u]) else None
  }

  function Offline(rows: map<Uuid, Row>): map<Uuid, Row> {
    map u | u in rows :: rows[u].(online := false)
  }

  function Owners(rows: map<Uuid, Row>): map<Uuid, Digest> {
    map u | u in rows :: rows[u].digest
  }

  function Record(rows: map<Uuid, Row>, e: Event): map<Uuid, Row> {
    match e
    case Connected(u, d) => rows[u := Row(d, true)]
    case Disconnected(u) => if u in rows then rows[u := rows[u].(online := false)] else rows
  }

  /** What the resolving channel settles on: the uuid it already has, or a claim decision. */
  ghost function Resolving(s: State, ch: Channel, claim: Option<Uuid>, online: set<Uuid>, unused: Uuid): (r: Resolution)
    requires unused !in s.bindings
  {
    if ch.nodeUuid.Some? then Resolution(s.bindings, ch.nodeUuid.value, false)
    else ResolveClaim(s.bindings, ch.digest, claim, online, unused)
  }

  // The effect of a step on each part of the state.

  ghost function BindingsAfter(s: State, a: Action): map<Uuid, Digest>
    requires Enabled(s, a)
  {
    match a
    case Resolve(c, unused) =>
      Resolving(s, s.channels[c], s.channels[c].phase.claim, s.channels[c].phase.online, unused).bindings
    case Restart(loaded) => if loaded then Owners(s.rows) else map[]
    case _ => s.bindings
  }

  ghost function IndexAfter(s: State, a: Action): map<Uuid, ChannelId>
    requires Enabled(s, a)
  {
    match a
    case ClaimIndex(c) => s.index[s.channels[c].phase.uuid := c]
    case CleanIndex(c) =>
      var own := s.channels[c].nodeUuid;
      if own.Some? && Lookup(s.index, own.value) == Some(c) then s.index - {own.value} else s.index
    case Restart(_) => map[]
    case _ => s.index
  }

  ghost function RegistryAfter(s: State, a: Action): map<Uuid, ChannelId>
    requires Enabled(s, a)
  {
    match a
    case DropOld(c) =>
      var ch := s.channels[c];
      if ch.nodeUuid.Some? && ch.nodeUuid.value != ch.phase.uuid then s.registry - {ch.nodeUuid.value} else s.registry
    case List(c) => s.registry[s.channels[c].phase.uuid := c]
    case CleanRegistry(c) => s.registry - {s.channels[c].phase.uuid}
    case Restart(_) => map[]
    case _ => s.registry
  }

  ghost function ControlAfter(s: State, a: Action): set<ChannelId>
    requires Enabled(s, a)
  {
    match a
    case InsertHandle(c) => s.control + {c}
    case Evict(c) =>
      var victim := s.channels[c].phase.displaced;
      if victim.Some? && victim.value != c then s.control - {victim.value} else s.control
    case CleanControl(c) => s.control - {c}
    case Restart(_) => {}
    case _ => s.control
  }

  ghost function QueueAfter(s: State, a: Action): seq<Event>
    requires Enabled(s, a)
  {
    match a
    case Publish(c) => s.queue + [Connected(s.channels[c].phase.uuid, s.channels[c].digest)]
    case Exit(c) =>
      var ch := s.channels[c];
      if ch.reported && ch.nodeUuid.Some? then s.queue + [Disconnected(ch.nodeUuid.value)] else s.queue
    case Drain(_) => s.queue[1..]
    case Restart(_) => []
    case _ => s.queue
  }

  ghost function RowsAfter(s: State, a: Action): map<Uuid, Row>
    requires Enabled(s, a)
  {
    match a
    case Drain(stored) => if stored then Record(s.rows, s.queue[0]) else s.rows
    case Restart(_) => Offline(s.rows)
    case _ => s.rows
  }

  /** The acting channel after its step. */
  ghost function ChannelAfter(s: State, a: Action): Channel
    requires Enabled(s, a) && !a.Drain? && !a.Restart?
  {
    match a
    case Handshake(_, d) => Channel(d, Idle, None, false, [], false)
    case InsertHandle(c) => s.channels[c].(inserted := true)
    case Snapshot(c, claim) => s.channels[c].(phase := Snapshotted(claim, s.registry.Keys))
    case Resolve(c, unused) =>
      var ch := s.channels[c];
      var r := Resolving(s, ch, ch.phase.claim, ch.phase.online, unused);
      ch.(phase := Resolved(r.uuid, r.assign))
    case Announce(c) =>
      var ch := s.channels[c];
      ch.(phase := Announced(ch.phase.uuid), told := if ch.phase.assign then ch.told + [ch.phase.uuid] else ch.told)
    case DropOld(c) => s.channels[c].(phase := Settled(s.channels[c].phase.uuid))
    case ClaimIndex(c) =>
      var u := s.channels[c].phase.uuid;
      s.channels[c].(phase := Indexed(u, Lookup(s.index, u)))
    case Evict(c) => s.channels[c].(phase := Evicted(s.channels[c].phase.uuid))
    case List(c) => s.channels[c].(phase := Listed(s.channels[c].phase.uuid))
    case Publish(c) => s.channels[c].(phase := Idle, nodeUuid := Some(s.channels[c].phase.uuid), reported := true)
    case Exit(c) => s.channels[c].(phase := Exiting, reported := false)
    case CleanIndex(c) =>
      var own := s.channels[c].nodeUuid;
      s.channels[c].(phase := if own.Some? then Unindexed(own.value) else Unlisted)
    case CleanRegistry(c) => s.channels[c].(phase := Unlisted)
    case CleanControl(c) => s.channels[c].(phase := Done)
  }

  ghost function ChannelsAfter(s: State, a: Action): map<ChannelId, Channel>
    requires Enabled(s, a)
  {
    if a.Drain? then s.channels else if a.Restart? then map[] else s.channels[a.id := ChannelAfter(s, a)]
  }

  ghost function Apply(s: State, a: Action): State
    requires Enabled(s, a)
  {
    State(BindingsAfter(s, a), IndexAfter(s, a), RegistryAfter(s, a), ControlAfter(s, a), ChannelsAfter(s, a),
          QueueAfter(s, a), RowsAfter(s, a), if a.Handshake? then s.usedIds + {a.id} else s.usedIds)
  }

  ghost predicate Step(s: State, a: Action, t: State) {
    Enabled(s, a) && t == Apply(s, a)
  }

  // ---- Runs ----

  datatype Run = Run(states: seq<State>, actions: seq<Action>)

  /** The lock-level step relation. */
  ghost function Locked(): (State, Action, State) -> bool {
    (s, a, t) => Step(s, a, t)
  }

  ghost predicate IsRun(r: Run) {
    Path(Locked(), r.states, r.actions) && r.states[0] == Empty()
  }

  /** No restart forgot an owner: none fell back to an empty binding map because the rows could
      not be read, unless there were no rows. */
  ghost predicate RestartsLoad(r: Run)
    requires IsRun(r)
  {
    forall i :: 0 <= i < |r.actions| && r.actions[i] == Restart(false) ==> r.states[i].rows == map[]
  }

  // ---- The inductive invariant ----

  /** The uuid a channel has resolved to, from the moment the binding lock is released. */
  function Owned(ch: Channel): Option<Uuid> {
    match ch.phase
    case Resolved(u, _) => Some(u)
    case Announced(u) => Some(u)
    case Settled(u) => Some(u)
    case Indexed(u, _) => Some(u)
    case Evicted(u) => Some(u)
    case Listed(u) => Some(u)
    case _ => ch.nodeUuid
  }

  /** The cleanup task has released the index entry (or found it taken). */
  predicate IndexCleaned(ch: Channel) {
    ch.phase.Unindexed? || ch.phase.Unlisted? || ch.phase.Done?
  }

  predicate RegistryCleaned(ch: Channel) {
    ch.phase.Unlisted? || ch.phase.Done?
  }

  predicate ChannelInv(ch: Channel, bindings: map<Uuid, Digest>) {
    && (Owned(ch).Some? ==> Owned(ch).value in bindings && bindings[Owned(ch).value] == ch.digest)
    && (ch.nodeUuid.Some? ==> Owned(ch) == ch.nodeUuid)
    && |ch.told| <= 1
    && (ch.told != [] ==> Owned(ch) == Some(ch.told[0]))
    && (ch.phase.Resolved? && ch.phase.assign ==> ch.told == [])
    && (ch.reported ==> ch.nodeUuid.Some?)
    && (ch.phase.Unindexed? ==> ch.nodeUuid == Some(ch.phase.uuid))
  }

  ghost predicate ChannelsInv(s: State) {
    forall c :: c in s.channels ==> ChannelInv(s.channels[c], s.bindings)
  }

  ghost predicate QueueAgrees(queue: seq<Event>, bindings: map<Uuid, Digest>) {
    forall i :: 0 <= i < |queue| && queue[i].Connected? ==>
      queue[i].uuid in bindings && bindings[queue[i].uuid] == queue[i].digest
  }

  ghost predicate QueueInv(s: State) {
    QueueAgrees(s.queue, s.bindings)
  }

  /** Every stored row agrees with the bindings; a restart that cannot read the rows ends this. */
  ghost predicate RowsInv(s: State) {
    forall u :: u in s.rows ==> u in s.bindings && s.bindings[u] == s.rows[u].digest
  }

  /** The index names channels that resolved the uuid and have not cleaned up. */
  ghost predicate IndexInv(s: State) {
    forall u :: u in s.index ==>
      && s.index[u] in s.channels
      && Owned(s.channels[s.index[u]]) == Some(u)
      && !IndexCleaned(s.channels[s.index[u]])
  }

  ghost predicate RegistryInv(s: State) {
    forall u :: u in s.registry ==>
      && s.registry[u] in s.channels
      && Owned(s.channels[s.registry[u]]) == Some(u)
      && !RegistryCleaned(s.channels[s.registry[u]])
  }

  /** A channel that another one is about to evict resolved the same uuid. */
  ghost predicate DisplacedInv(s: State) {
    forall c :: c in s.channels && s.channels[c].phase.Indexed? && s.channels[c].phase.displaced.Some? ==>
      var victim := s.channels[c].phase.displaced.value;
      victim in s.channels && Owned(s.channels[victim]) == Some(s.channels[c].phase.uuid)
  }

  ghost predicate HandlesInv(s: State) {
    && s.channels.Keys <= s.usedIds
    && forall c :: c in s.control ==> c in s.channels && s.channels[c].inserted
  }

  /** What every step keeps, restarts of either kind included. */
  ghost predicate Inv(s: State) {
    && ChannelsInv(s) && QueueInv(s)
    && IndexInv(s) && RegistryInv(s) && DisplacedInv(s) && HandlesInv(s)
  }
}
