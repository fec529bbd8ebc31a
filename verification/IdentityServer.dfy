/**
 The server's shared state as an object, with the message handlers as they update it.
 `View` is the abstract state, and each method is proved against the handler it implements.
 */
module IdentityServer {
  import opened Basics
  import opened Identity
  import opened IdentityHandlers

  class Server {
    var bindings: map<Uuid, Digest>
    var index: map<Uuid, ChannelId>
    var registry: map<Uuid, ChannelId>
    var control: set<ChannelId>
    var channels: map<ChannelId, Channel>
    var queue: seq<Event>
    var rows: map<Uuid, Row>
    ghost var usedIds: set<ChannelId>

    ghost function View(): (s: State)
      reads this
    {
      State(bindings, index, registry, control, channels, queue, rows, usedIds)
    }

    constructor ()
      ensures View() == Empty()
    {
      bindings, index, registry, control := map[], map[], map[], {};
      channels, queue, rows, usedIds := map[], [], map[], {};
    }

    /** A client passed authentication on a connection with a new channel id. */
    method OnHandshake(c: ChannelId, digest: Digest)
      requires c !in usedIds
      modifies this
      ensures View() == Handle(old(View()), Open(c, digest))
    {
      channels := channels[c := Channel(digest, Idle, None, false, [], true)];
      usedIds := usedIds + {c};
      control := control + {c};
    }

    /** The decision made under the binding lock. */
    method ResolveUnderLock(digest: Digest, claim: Option<Uuid>, online: set<Uuid>, unused: Uuid)
      returns (uuid: Uuid, assign: bool)
      requires unused !in bindings
      modifies this`bindings
      ensures Resolution(bindings, uuid, assign) == ResolveClaim(old(bindings), digest, claim, online, unused)
    {
      if claim.Some? {
        var wanted := claim.value;
        if wanted !in bindings {
          bindings := bindings[wanted := digest];
          return wanted, false;
        }
        if bindings[wanted] == digest {
          return wanted, false;
        }
        bindings := bindings[unused := digest];
        return unused, true;
      }
      var bound := BoundTo(digest);
      ghost var second := if |bound| > 1 then bound[1] else unused;
      if |bound| == 1 && bound[0] !in online {
        assert SoleBinding(bindings, digest, bound[0]);
        return bound[0], true;
      }
      assert forall u :: SoleBinding(bindings, digest, u) ==> |bound| == 1 && bound[0] == u by {
        forall u | SoleBinding(bindings, digest, u)
          ensures |bound| == 1 && bound[0] == u
        {
          assert u in bound;
          assert bound[0] in bound && (|bound| > 1 ==> second in bound);
        }
      }
      bindings := bindings[unused := digest];
      return unused, true;
    }

    /** The uuids bound to a digest, in the map's own order. */
    method BoundTo(digest: Digest) returns (bound: seq<Uuid>)
      ensures forall u :: u in bound <==> u in bindings && bindings[u] == digest
      ensures forall i, j :: 0 <= i < j < |bound| ==> bound[i] != bound[j]
    {
      bound := [];
      var rest := bindings.Keys;
      while rest != {}
        invariant rest <= bindings.Keys
        invariant forall u :: u in bound <==> u in bindings && u !in rest && bindings[u] == digest
        invariant forall i, j :: 0 <= i < j < |bound| ==> bound[i] != bound[j]
        decreases rest
      {
        var u :| u in rest;
        rest := rest - {u};
        if bindings[u] == digest {
          bound := bound + [u];
        }
      }
    }

    /** Channel `c` takes over the index entry of its uuid and unhooks the channel it displaces. */
    method EvictPrevious(c: ChannelId, uuid: Uuid)
      modifies this`index, this`control
      ensures index == old(index)[uuid := c]
      ensures control == old(control) - (if uuid in old(index) && old(index)[uuid] != c then {old(index)[uuid]} else {})
    {
      var displaced := Lookup(index, uuid);
      index := index[uuid := c];
      if displaced.Some? && displaced.value != c {
        control := control - {displaced.value};
      }
    }

    /** A ReportNodeStatus message on channel `c`. */
    method OnReport(c: ChannelId, claim: Option<Uuid>, unused: Uuid)
      requires c in channels && channels[c].phase.Idle? && unused !in bindings
      modifies this
      ensures View() == Handle(old(View()), Report(c, claim, unused))
    {
      var ch := channels[c];
      var online := registry.Keys;
      var uuid, assign;
      if ch.nodeUuid.Some? {
        uuid, assign := ch.nodeUuid.value, false;
      } else {
        uuid, assign := ResolveUnderLock(ch.digest, claim, online, unused);
      }
      if assign {
        ch := ch.(told := ch.told + [uuid]);
      }
      // The source would drop the entry of a previous, different uuid here; there never is one.
      assert ch.nodeUuid.Some? ==> ch.nodeUuid.value == uuid;
      EvictPrevious(c, uuid);
      registry := registry[uuid := c];
      channels := channels[c := ch.(nodeUuid := Some(uuid), reported := true)];
      queue := queue + [Connected(uuid, ch.digest)];
    }

    /** Channel `c` leaves its loop and cleans up after itself. */
    method OnExit(c: ChannelId)
      requires c in channels && channels[c].phase.Idle?
      modifies this
      ensures View() == Handle(old(View()), Close(c))
    {
      var ch := channels[c];
      if ch.reported && ch.nodeUuid.Some? {
        queue := queue + [Disconnected(ch.nodeUuid.value)];
      }
      if ch.nodeUuid.Some? {
        var uuid := ch.nodeUuid.value;
        if Lookup(index, uuid) == Some(c) {
          index := index - {uuid};
        }
        registry := registry - {uuid};
      }
      control := control - {c};
      channels := channels[c := ch.(phase := Done, reported := false)];
    }

    /** The event loop takes one update; the database may fail to open. */
    method OnUpdate(stored: bool)
      requires queue != []
      modifies this
      ensures View() == Handle(old(View()), Sync(stored))
    {
      var update := queue[0];
      queue := queue[1..];
      if stored {
        match update
        case Connected(uuid, digest) =>
          rows := rows[uuid := Row(digest, true)];
        case Disconnected(uuid) =>
          if uuid in rows {
            rows := rows[uuid := rows[uuid].(online := false)];
          }
      }
    }

    /** The event loop catches up with every queued update, the database being reachable. */
    method CatchUp()
      modifies this
      ensures queue == [] && rows == RecordAll(old(rows), old(queue))
      ensures bindings == old(bindings) && index == old(index) && registry == old(registry)
      ensures control == old(control) && channels == old(channels) && usedIds == old(usedIds)
    {
      while queue != []
        invariant RecordAll(rows, queue) == RecordAll(old(rows), old(queue))
        invariant bindings == old(bindings) && index == old(index) && registry == old(registry)
        invariant control == old(control) && channels == old(channels) && usedIds == old(usedIds)
        decreases |queue|
      {
        ghost var before := View();
        OnUpdate(true);
        assert View() == Apply(before, Drain(true));
      }
    }

    /** The process starts again: every task and queued update is gone, all nodes are offline,
        and the bindings are read back from the rows, or stay empty if that fails. */
    method OnRestart(loaded: bool)
      modifies this
      ensures View() == Handle(old(View()), Reboot(loaded))
    {
      RebootForm(View(), loaded);
      rows := Offline(rows);
      index, registry, control, channels, queue := map[], map[], {}, map[], [];
      bindings := map[];
      if loaded {
        LoadBindings();
      }
    }

    /** The bindings are rebuilt from the rows, row by row. */
    method LoadBindings()
      requires bindings == map[]
      modifies this`bindings
      ensures bindings == Owners(rows)
    {
      var rest := rows.Keys;
      while rest != {}
        invariant rest <= rows.Keys
        invariant bindings == map u | u in rows && u !in rest :: rows[u].digest
        decreases rest
      {
        var u :| u in rest;
        rest := rest - {u};
        bindings := bindings[u := rows[u].digest];
      }
    }
  }

  /** Marking rows offline first leaves their owners alone. */
  lemma RebootForm(s: State, loaded: bool)
    ensures var rows := Offline(s.rows);
      Handle(s, Reboot(loaded)) ==
        State(if loaded then Owners(rows) else map[], map[], map[], {}, map[], [], rows, s.usedIds)
  {
    assert Owners(Offline(s.rows)) == Owners(s.rows);
  }

  /** The rows after a whole queue of updates. */
  function RecordAll(rows: map<Uuid, Row>, queue: seq<Event>): map<Uuid, Row>
    decreases |queue|
  {
    if queue == [] then rows else RecordAll(Record(rows, queue[0]), queue[1..])
  }

  /** A caught-up database shows, for every uuid, what its last update said. */
  lemma {:induction false} LastUpdateWins(rows: map<Uuid, Row>, queue: seq<Event>, u: Uuid)
    ensures var after := RecordAll(rows, queue);
      && ((u in after) <==> (u in rows || exists i :: 0 <= i < |queue| && queue[i].Connected? && queue[i].uuid == u))
      && forall i :: 0 <= i < |queue| && queue[i].uuid == u && (forall j :: i < j < |queue| ==> queue[j].uuid != u) ==>
           (u in after ==> after[u].online == queue[i].Connected?)
           && (queue[i].Connected? ==> u in after && after[u].digest == queue[i].digest)
    decreases |queue|
  {
    if queue != [] {
      var e := queue[0];
      var next := Record(rows, e);
      var tail := queue[1..];
      LastUpdateWins(next, tail, u);
      var after := RecordAll(rows, queue);
      assert forall i :: 0 <= i < |tail| ==> tail[i] == queue[i + 1];
      if forall j :: 0 < j < |queue| ==> queue[j].uuid != u {
        Untouched(next, tail, u);
      }
    }
  }

  lemma {:induction false} Untouched(rows: map<Uuid, Row>, queue: seq<Event>, u: Uuid)
    requires forall i :: 0 <= i < |queue| ==> queue[i].uuid != u
    ensures u in RecordAll(rows, queue) <==> u in rows
    ensures u in rows ==> RecordAll(rows, queue)[u] == rows[u]
    decreases |queue|
  {
    if queue != [] {
      Untouched(Record(rows, queue[0]), queue[1..], u);
    }
  }
}
