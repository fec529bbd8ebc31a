/**
 The two handshakes: how a control channel gets its session key and how a data channel finds
 its control channel by it.  The digest function is a parameter; where a result needs it to
 tell inputs apart, it is asked to be free of collisions on just those inputs.
 */
module Sessions {
  import opened Basics
  import opened MultiMap
  import opened Chains

  type Hash = Bytes -> Bytes

  ghost predicate NoCollision(h: Hash, inputs: set<Bytes>) {
    forall a, b :: a in inputs && b in inputs && h(a) == h(b) ==> a == b
  }

  /** What both sides derive from the token and the nonce of the connection. */
  function SessionKey(h: Hash, token: Bytes, nonce: Bytes): Bytes {
    h(token + nonce)
  }

  datatype Ack = Accepted | AuthFailed

  /** `nonces` remembers the nonce of every channel ever accepted; `handles` is the control-channel
      map as a set of (channel id, session key, channel) triples. */
  datatype Gate = Gate(nonces: map<ChannelId, Bytes>, handles: set<(ChannelId, Bytes, ChannelId)>)

  datatype Event =
    | Connect(id: ChannelId, nonce: Bytes, clientToken: Bytes)
    | Unhook(id: ChannelId)

  /** Channel ids and nonces are random: each connection gets new ones. */
  ghost predicate Possible(g: Gate, e: Event) {
    match e
    case Connect(id, nonce, _) => id !in g.nonces && forall c :: c in g.nonces ==> g.nonces[c] != nonce
    case Unhook(_) => true
  }

  function Verdict(h: Hash, token: Bytes, nonce: Bytes, clientToken: Bytes): Ack {
    if SessionKey(h, clientToken, nonce) == SessionKey(h, token, nonce) then Accepted else AuthFailed
  }

  ghost function Step(h: Hash, token: Bytes, g: Gate, e: Event): Gate {
    match e
    case Connect(id, nonce, clientToken) =>
      if Verdict(h, token, nonce, clientToken) == Accepted
      then Gate(g.nonces[id := nonce], After(g.handles, Put(id, SessionKey(h, token, nonce), id))) else g
    case Unhook(id) => g.(handles := After(g.handles, Take1(id)))
  }

  /** A client passes exactly when it holds the server's token. */
  lemma AcceptedIff(h: Hash, token: Bytes, nonce: Bytes, clientToken: Bytes)
    requires NoCollision(h, {token + nonce, clientToken + nonce})
    ensures Verdict(h, token, nonce, clientToken) == Accepted <==> clientToken == token
  {
    if clientToken + nonce == token + nonce {
      assert |clientToken| == |token|;
      assert clientToken == (clientToken + nonce)[..|clientToken|];
      assert token == (token + nonce)[..|token|];
    }
  }

  ghost function Inputs(token: Bytes, g: Gate): set<Bytes> {
    set c | c in g.nonces :: token + g.nonces[c]
  }

  /** Every stored handle sits under the key of its own channel, and nonces do not repeat. */
  ghost predicate Inv(h: Hash, token: Bytes, g: Gate) {
    && (forall t :: t in g.handles ==> t.2 == t.0 && t.0 in g.nonces && t.1 == SessionKey(h, token, g.nonces[t.0]))
    && (forall c, d :: c in g.nonces && d in g.nonces && g.nonces[c] == g.nonces[d] ==> c == d)
  }

  lemma KeysDiffer(h: Hash, token: Bytes, g: Gate, c: ChannelId, d: ChannelId)
    requires Inv(h, token, g) && NoCollision(h, Inputs(token, g))
    requires c in g.nonces && d in g.nonces && c != d
    ensures SessionKey(h, token, g.nonces[c]) != SessionKey(h, token, g.nonces[d])
  {
    var a, b := token + g.nonces[c], token + g.nonces[d];
    assert a in Inputs(token, g) && b in Inputs(token, g);
    assert g.nonces[c] == a[|token|..] && g.nonces[d] == b[|token|..];
  }

  /** Storing the handle of a newly accepted channel never collides with a stored one. */
  lemma InsertNeverCollides(h: Hash, token: Bytes, g: Gate, id: ChannelId, nonce: Bytes)
    requires Inv(h, token, g) && Possible(g, Connect(id, nonce, token))
    requires NoCollision(h, Inputs(token, g.(nonces := g.nonces[id := nonce])))
    ensures Answer(g.handles, Put(id, SessionKey(h, token, nonce), id)) == Stored(true)
  {
    var next := g.(nonces := g.nonces[id := nonce]);
    forall t | t in g.handles ensures t.0 != id && t.1 != SessionKey(h, token, nonce) {
      KeysDiffer(h, token, next, t.0, id);
    }
  }

  lemma StepKeepsInv(h: Hash, token: Bytes, g: Gate, e: Event)
    requires Inv(h, token, g) && Possible(g, e)
    ensures Inv(h, token, Step(h, token, g, e))
  {
  }

  ghost function Steps(h: Hash, token: Bytes): (Gate, Event, Gate) -> bool {
    (g, e, t) => Possible(g, e) && t == Step(h, token, g, e)
  }

  ghost predicate IsRun(h: Hash, token: Bytes, states: seq<Gate>, events: seq<Event>) {
    Path(Steps(h, token), states, events) && states[0] == Gate(map[], {})
  }

  lemma RunKeepsInv(h: Hash, token: Bytes, states: seq<Gate>, events: seq<Event>, i: nat)
    requires IsRun(h, token, states, events) && i < |states|
    ensures Inv(h, token, states[i])
  {
    forall g, e, t | e in events && Inv(h, token, g) && Steps(h, token)(g, e, t) ensures Inv(h, token, t) {
      StepKeepsInv(h, token, g, e);
    }
    PathKeeps(Steps(h, token), g => Inv(h, token, g), states, events, i);
  }

  /** In every reachable state no two channels share a session key, and a data channel whose
      client derived its key from the shared token and channel c's nonce is handed to c as long as
      c's handle is stored, and otherwise to nobody. */
  lemma StreamsReachTheirChannel(h: Hash, token: Bytes, states: seq<Gate>, events: seq<Event>, i: nat, c: ChannelId)
    requires IsRun(h, token, states, events) && i < |states|
    requires NoCollision(h, Inputs(token, states[i])) && c in states[i].nonces
    ensures var g := states[i]; var key := SessionKey(h, token, g.nonces[c]);
      && Get2(g.handles, key) == (if Has1(g.handles, c) then Some(c) else None)
      && forall d :: d in g.nonces && d != c ==> SessionKey(h, token, g.nonces[d]) != key
  {
    RunKeepsInv(h, token, states, events, i);
    var g := states[i];
    var key := SessionKey(h, token, g.nonces[c]);
    forall d | d in g.nonces && d != c ensures SessionKey(h, token, g.nonces[d]) != key {
      KeysDiffer(h, token, g, c, d);
    }
    if Has1(g.handles, c) {
      var t :| t in g.handles && t.0 == c;
      assert t.1 == key;
    }
    assert forall t :: t in g.handles && t.1 == key ==> t.0 == c && t.2 == c;
  }

  // ---- The handshakes over the concrete map ----

  class Acceptor {
    const token: Bytes
    const handles: MultiMap<ChannelId, Bytes, ChannelId>

    constructor (token: Bytes)
      ensures this.token == token && fresh(handles) && handles.Valid() && handles.Triples() == {} && handles.made == {}
    {
      this.token := token;
      this.handles := new MultiMap<ChannelId, Bytes, ChannelId>();
    }

    /** The server's side of the control handshake: derive the key, compare, store the handle. */
    method ControlHandshake(h: Hash, id: ChannelId, nonce: Bytes, auth: Bytes) returns (ack: Ack)
      requires handles.Valid()
      modifies handles, handles.made
      ensures handles.Valid()
      ensures ack == Accepted <==> auth == h(token + nonce)
      ensures handles.Triples() ==
        if ack == Accepted then After(old(handles.Triples()), Put(id, SessionKey(h, token, nonce), id))
        else old(handles.Triples())
    {
      var concat := token + nonce;
      var sessionKey := h(concat);
      if sessionKey != auth {
        return AuthFailed;
      }
      var stored := handles.Insert(id, sessionKey, id);
      ack := Accepted;
    }

    /** A data channel presents a session key and is handed to the channel stored under it. */
    method DataHandshake(key: Bytes) returns (r: Option<ChannelId>)
      requires handles.Valid()
      ensures r == Get2(handles.Triples(), key)
    {
      r := handles.Lookup2(key);
    }
  }
}
