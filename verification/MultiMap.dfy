/**
 The two-key map over raw boxes.

 `Cell` is a heap box holding (k1, k2, v).  Its fields may only be read and it may only be
 freed while it is live, so a read through a stale key pointer or a second free would be a
 failed precondition.  A hash index is a bucket list of slots (key pointer, item pointer);
 a lookup may read the key behind any slot of the index.
 */
module MultiMap {
  import opened Basics

  class Cell<K1(==), K2(==), V> {
    const k1: K1
    const k2: K2
    const v: V
    ghost var frees: nat

    constructor (k1: K1, k2: K2, v: V)
      ensures this.k1 == k1 && this.k2 == k2 && this.v == v && frees == 0
    {
      this.k1, this.k2, this.v, this.frees := k1, k2, v, 0;
    }

    method First() returns (k: K1)
      requires frees == 0
      ensures k == k1
    {
      k := k1;
    }

    method Second() returns (k: K2)
      requires frees == 0
      ensures k == k2
    {
      k := k2;
    }

    method Value() returns (x: V)
      requires frees == 0
      ensures x == v
    {
      x := v;
    }

    method Free()
      requires frees == 0
      modifies this
      ensures frees == 1
    {
      frees := frees + 1;
    }
  }

  datatype Slot<!K1(==), !K2(==), !V> = Slot(key: Cell<K1, K2, V>, item: Cell<K1, K2, V>)

  // ---- The abstract map: a set of triples ----

  ghost predicate Unique<K1, K2, V>(s: set<(K1, K2, V)>) {
    && (forall t, u :: t in s && u in s && t.0 == u.0 ==> t == u)
    && (forall t, u :: t in s && u in s && t.1 == u.1 ==> t == u)
  }

  ghost predicate Has1<K1, K2, V>(s: set<(K1, K2, V)>, k: K1) {
    exists t :: t in s && t.0 == k
  }

  ghost predicate Has2<K1, K2, V>(s: set<(K1, K2, V)>, k: K2) {
    exists t :: t in s && t.1 == k
  }

  ghost function Get1<K1, K2, V>(s: set<(K1, K2, V)>, k: K1): Option<V> {
    if Has1(s, k) then var t :| t in s && t.0 == k; Some(t.2) else None
  }

  ghost function Get2<K1, K2, V>(s: set<(K1, K2, V)>, k: K2): Option<V> {
    if Has2(s, k) then var t :| t in s && t.1 == k; Some(t.2) else None
  }

  datatype Op<K1, K2, V> =
    | Put(k1: K1, k2: K2, v: V)
    | Look1(k1: K1)
    | Look2(k2: K2)
    | Take1(k1: K1)
    | Take2(k2: K2)

  /** `Stored` says whether an insertion took place; the other operations return a value or none. */
  datatype Reply<V> = Stored(ok: bool) | Found(value: Option<V>)

  ghost function After<K1, K2, V>(s: set<(K1, K2, V)>, op: Op<K1, K2, V>): (r: set<(K1, K2, V)>)
    ensures Unique(s) ==> Unique(r)
  {
    match op
    case Put(k1, k2, v) => if Has1(s, k1) || Has2(s, k2) then s else s + {(k1, k2, v)}
    case Look1(_) => s
    case Look2(_) => s
    case Take1(k) => set t | t in s && t.0 != k
    case Take2(k) => set t | t in s && t.1 != k
  }

  ghost function Answer<K1, K2, V>(s: set<(K1, K2, V)>, op: Op<K1, K2, V>): Reply<V> {
    match op
    case Put(k1, k2, v) => Stored(!Has1(s, k1) && !Has2(s, k2))
    case Look1(k) => Found(Get1(s, k))
    case Look2(k) => Found(Get2(s, k))
    case Take1(k) => Found(Get1(s, k))
    case Take2(k) => Found(Get2(s, k))
  }

  /** Removing one item by its first or by its second key gives the same value and leaves the
      same map, and afterwards neither key is taken: the item can be put back. */
  lemma RemovalsAgree<K1, K2, V>(s: set<(K1, K2, V)>, t: (K1, K2, V))
    requires Unique(s) && t in s
    ensures Answer(s, Take1(t.0)) == Answer(s, Take2(t.1)) == Found(Some(t.2))
    ensures After(s, Take1(t.0)) == After(s, Take2(t.1)) == s - {t}
    ensures Answer(After(s, Take1(t.0)), Put(t.0, t.1, t.2)) == Stored(true)
    ensures After(After(s, Take1(t.0)), Put(t.0, t.1, t.2)) == s
  {
  }

  // ---- The concrete map ----

  ghost function Boxes<K1, K2, V>(m: seq<Slot<K1, K2, V>>): set<Cell<K1, K2, V>> {
    set i | 0 <= i < |m| :: m[i].item
  }

  ghost predicate Keyed1<K1, K2, V>(m: seq<Slot<K1, K2, V>>) {
    && (forall i :: 0 <= i < |m| ==> m[i].key == m[i].item)
    && (forall i, j :: 0 <= i < j < |m| ==> m[i].item.k1 != m[j].item.k1)
  }

  ghost predicate Keyed2<K1, K2, V>(m: seq<Slot<K1, K2, V>>) {
    && (forall i :: 0 <= i < |m| ==> m[i].key == m[i].item)
    && (forall i, j :: 0 <= i < j < |m| ==> m[i].item.k2 != m[j].item.k2)
  }

  lemma BoxesOfAppend<K1, K2, V>(m: seq<Slot<K1, K2, V>>, c: Cell<K1, K2, V>)
    ensures Boxes(m + [Slot(c, c)]) == Boxes(m) + {c}
  {
    var n := m + [Slot(c, c)];
    assert forall i :: 0 <= i < |m| ==> n[i] == m[i];
    assert n[|m|].item == c;
    assert forall b :: b in Boxes(m) ==> b in Boxes(n) by {
      forall b | b in Boxes(m) ensures b in Boxes(n) {
        var i :| 0 <= i < |m| && m[i].item == b;
        assert n[i].item == b;
      }
    }
  }

  function Without<T>(m: seq<T>, i: nat): seq<T>
    requires i < |m|
  {
    m[..i] + m[i + 1..]
  }

  lemma BoxesOfWithout<K1, K2, V>(m: seq<Slot<K1, K2, V>>, i: nat)
    requires i < |m| && forall j, k :: 0 <= j < k < |m| ==> m[j].item != m[k].item
    ensures Boxes(Without(m, i)) == Boxes(m) - {m[i].item}
  {
    var n := Without(m, i);
    assert forall j :: 0 <= j < |n| ==> n[j] == if j < i then m[j] else m[j + 1];
    forall b | b in Boxes(m) && b != m[i].item ensures b in Boxes(n) {
      var j :| 0 <= j < |m| && m[j].item == b;
      assert n[if j < i then j else j - 1].item == b;
    }
  }

  class MultiMap<K1(==), K2(==), V> {
    var map1: seq<Slot<K1, K2, V>>
    var map2: seq<Slot<K1, K2, V>>
    ghost var made: set<Cell<K1, K2, V>>  // every box this map ever allocated

    /** Both indexes hold exactly the boxes not yet freed, each under its own keys. */
    ghost predicate Valid()
      reads this, made
    {
      && Keyed1(map1) && Keyed2(map2)
      && Boxes(map1) == Live() && Boxes(map2) == Live()
      && forall c :: c in made ==> c.frees <= 1
    }

    ghost function Live(): set<Cell<K1, K2, V>>
      reads this, made
    {
      set c | c in made && c.frees == 0
    }

    ghost function Triples(): set<(K1, K2, V)>
      reads this, made
    {
      set c | c in Live() :: (c.k1, c.k2, c.v)
    }

    constructor ()
      ensures Valid() && Triples() == {} && made == {}
    {
      map1, map2, made := [], [], {};
    }

    static method Find1(m: seq<Slot<K1, K2, V>>, k: K1) returns (r: Option<nat>)
      requires forall i :: 0 <= i < |m| ==> m[i].key.frees == 0
      ensures r.Some? ==> r.value < |m| && m[r.value].key.k1 == k
      ensures r.None? ==> forall i :: 0 <= i < |m| ==> m[i].key.k1 != k
    {
      for i := 0 to |m|
        invariant forall j :: 0 <= j < i ==> m[j].key.k1 != k
      {
        var here := m[i].key.First();
        if here == k {
          return Some(i);
        }
      }
      return None;
    }

    static method Find2(m: seq<Slot<K1, K2, V>>, k: K2) returns (r: Option<nat>)
      requires forall i :: 0 <= i < |m| ==> m[i].key.frees == 0
      ensures r.Some? ==> r.value < |m| && m[r.value].key.k2 == k
      ensures r.None? ==> forall i :: 0 <= i < |m| ==> m[i].key.k2 != k
    {
      for i := 0 to |m|
        invariant forall j :: 0 <= j < i ==> m[j].key.k2 != k
      {
        var here := m[i].key.Second();
        if here == k {
          return Some(i);
        }
      }
      return None;
    }

    /** In a valid map every slot of either index points to a live box of ours. */
    lemma SlotsLive()
      requires Valid()
      ensures forall i :: 0 <= i < |map1| ==> map1[i].item in made && map1[i].key.frees == 0
      ensures forall i :: 0 <= i < |map2| ==> map2[i].item in made && map2[i].key.frees == 0
    {
      forall i | 0 <= i < |map1| ensures map1[i].item in made && map1[i].key.frees == 0 {
        assert map1[i].item in Boxes(map1);
      }
      forall i | 0 <= i < |map2| ensures map2[i].item in made && map2[i].key.frees == 0 {
        assert map2[i].item in Boxes(map2);
      }
    }

    /** The triples have unique first and unique second keys. */
    lemma KeysUnique()
      requires Valid()
      ensures Unique(Triples())
    {
    }

    /** Either key is present. */
    method IsTaken(k1: K1, k2: K2) returns (taken: bool)
      requires Valid()
      ensures taken <==> Has1(Triples(), k1) || Has2(Triples(), k2)
      ensures !taken ==> forall i :: 0 <= i < |map1| ==> map1[i].key.k1 != k1
      ensures !taken ==> forall i :: 0 <= i < |map2| ==> map2[i].key.k2 != k2
    {
      SlotsLive();
      var at1 := Find1(map1, k1);
      var at2 := Find2(map2, k2);
      FoundMeansHas(at1, k1, at2, k2);
      taken := at1.Some? || at2.Some?;
    }

    method Insert(k1: K1, k2: K2, v: V) returns (r: Result<(), (K1, K2, V)>)
      requires Valid()
      modifies this
      ensures Valid() && old(made) <= made && fresh(made - old(made))
      ensures r.Err? <==> Has1(old(Triples()), k1) || Has2(old(Triples()), k2)
      ensures r.Err? ==> r.error == (k1, k2, v)
      ensures |made| == |old(made)| + if r.Ok? then 1 else 0
      ensures Triples() == After(old(Triples()), Put(k1, k2, v))
    {
      var taken := IsTaken(k1, k2);
      if taken {
        return Err((k1, k2, v));
      }
      ghost var item := Store(k1, k2, v);
      r := Ok(());
    }

    /** Allocates a box and hooks it into both indexes. */
    method Store(k1: K1, k2: K2, v: V) returns (ghost item: Cell<K1, K2, V>)
      requires Valid()
      requires forall i :: 0 <= i < |map1| ==> map1[i].key.k1 != k1
      requires forall i :: 0 <= i < |map2| ==> map2[i].key.k2 != k2
      modifies this
      ensures Valid() && fresh(item) && made == old(made) + {item} && Live() == old(Live()) + {item}
      ensures item.k1 == k1 && item.k2 == k2 && item.v == v
      ensures Triples() == old(Triples()) + {(k1, k2, v)}
    {
      var box := new Cell(k1, k2, v);
      BoxesOfAppend(map1, box);
      BoxesOfAppend(map2, box);
      map1 := map1 + [Slot(box, box)];
      map2 := map2 + [Slot(box, box)];
      made := made + {box};
      assert Live() == old(Live()) + {box};
      assert (box.k1, box.k2, box.v) in Triples();
      item := box;
    }

    /** What a search of the indexes says about the triples. */
    lemma FoundMeansHas(at1: Option<nat>, k1: K1, at2: Option<nat>, k2: K2)
      requires Valid()
      requires at1.Some? ==> at1.value < |map1| && map1[at1.value].key.k1 == k1
      requires at1.None? ==> forall i :: 0 <= i < |map1| ==> map1[i].key.k1 != k1
      requires at2.Some? ==> at2.value < |map2| && map2[at2.value].key.k2 == k2
      requires at2.None? ==> forall i :: 0 <= i < |map2| ==> map2[i].key.k2 != k2
      ensures Has1(Triples(), k1) <==> at1.Some?
      ensures Has2(Triples(), k2) <==> at2.Some?
    {
      if at1.Some? {
        var c := map1[at1.value].item;
        assert c in Boxes(map1);
        assert (c.k1, c.k2, c.v) in Triples();
      }
      if at2.Some? {
        var c := map2[at2.value].item;
        assert c in Boxes(map2);
        assert (c.k1, c.k2, c.v) in Triples();
      }
    }
  
    /** A box found in an index holds the answer to the lookup. */
    lemma FoundMeansGet1(i: nat, k: K1)
      requires Valid() && i < |map1| && map1[i].item.k1 == k
      ensures Get1(Triples(), k) == Some(map1[i].item.v)
      ensures forall c :: c in Live() && c.k1 == k ==> c == map1[i].item
    {
      var c := map1[i].item;
      assert c in Boxes(map1);
      assert (c.k1, c.k2, c.v) in Triples();
      KeysUnique();
      forall d | d in Live() && d.k1 == k ensures d == c {
        assert d in Boxes(map1);
      }
    }

    lemma FoundMeansGet2(i: nat, k: K2)
      requires Valid() && i < |map2| && map2[i].item.k2 == k
      ensures Get2(Triples(), k) == Some(map2[i].item.v)
      ensures forall c :: c in Live() && c.k2 == k ==> c == map2[i].item
    {
      var c := map2[i].item;
      assert c in Boxes(map2);
      assert (c.k1, c.k2, c.v) in Triples();
      KeysUnique();
      forall d | d in Live() && d.k2 == k ensures d == c {
        assert d in Boxes(map2);
      }
    }

    lemma MissingMeansNone1(k: K1)
      requires Valid() && forall i :: 0 <= i < |map1| ==> map1[i].key.k1 != k
      ensures Get1(Triples(), k) == None && After(Triples(), Take1(k)) == Triples()
    {
    }

    lemma MissingMeansNone2(k: K2)
      requires Valid() && forall i :: 0 <= i < |map2| ==> map2[i].key.k2 != k
      ensures Get2(Triples(), k) == None && After(Triples(), Take2(k)) == Triples()
    {
    }

    method Lookup1(k: K1) returns (r: Option<V>)
      requires Valid()
      ensures r == Get1(Triples(), k)
    {
      SlotsLive();
      var at := Find1(map1, k);
      if at.None? {
        MissingMeansNone1(k);
        return None;
      }
      FoundMeansGet1(at.value, k);
      var x := map1[at.value].item.Value();
      r := Some(x);
    }

    method Lookup2(k: K2) returns (r: Option<V>)
      requires Valid()
      ensures r == Get2(Triples(), k)
    {
      SlotsLive();
      var at := Find2(map2, k);
      if at.None? {
        MissingMeansNone2(k);
        return None;
      }
      FoundMeansGet2(at.value, k);
      var x := map2[at.value].item.Value();
      r := Some(x);
    }

    /** Unhooking one live box from both indexes and freeing it keeps the map valid. */
    twostate lemma Unhooked(new i: nat, new j: nat, c: Cell<K1, K2, V>)
      requires old(Valid()) && i < |old(map1)| && j < |old(map2)|
      requires old(map1)[i].item == c && old(map2)[j].item == c
      requires map1 == Without(old(map1), i) && map2 == Without(old(map2), j) && made == old(made)
      requires c.frees == 1 && forall d :: d in made && d != c ==> d.frees == old(d.frees)
      ensures Valid() && Live() == old(Live()) - {c}
    {
      assert c in old(Boxes(map1));
      BoxesOfWithout(old(map1), i);
      BoxesOfWithout(old(map2), j);
    }

    method Remove1(k: K1) returns (r: Option<V>)
      requires Valid()
      modifies this`map1, this`map2, made
      ensures Valid()
      ensures r == Get1(old(Triples()), k)
      ensures Triples() == After(old(Triples()), Take1(k))
    {
      SlotsLive();
      var at := Find1(map1, k);
      if at.None? {
        MissingMeansNone1(k);
        return None;
      }
      FoundMeansGet1(at.value, k);
      var item := map1[at.value].item;
      map1 := Without(map1, at.value);
      var k2 := item.Second();
      var other := Find2(map2, k2);
      assert item in old(Boxes(map2));
      assert other.Some? && map2[other.value].item == item by {
        var j :| 0 <= j < |map2| && map2[j].item == item;
        assert map2[j].key.k2 == k2;
      }
      map2 := Without(map2, other.value);
      var x := item.Value();
      item.Free();
      Unhooked(at.value, other.value, item);
      r := Some(x);
    }

    method Remove2(k: K2) returns (r: Option<V>)
      requires Valid()
      modifies this`map1, this`map2, made
      ensures Valid()
      ensures r == Get2(old(Triples()), k)
      ensures Triples() == After(old(Triples()), Take2(k))
    {
      SlotsLive();
      var at := Find2(map2, k);
      if at.None? {
        MissingMeansNone2(k);
        return None;
      }
      FoundMeansGet2(at.value, k);
      var item := map2[at.value].item;
      map2 := Without(map2, at.value);
      var k1 := item.First();
      var other := Find1(map1, k1);
      assert item in old(Boxes(map1));
      assert other.Some? && map1[other.value].item == item by {
        var j :| 0 <= j < |map1| && map1[j].item == item;
        assert map1[j].key.k1 == k1;
      }
      map1 := Without(map1, other.value);
      var x := item.Value();
      item.Free();
      Unhooked(other.value, at.value, item);
      r := Some(x);
    }

    /** Dropping the map frees what is left; every box it ever made has then been freed once. */
    method Drop()
      requires Valid()
      modifies this`map1, this`map2, made
      ensures map1 == [] && map2 == []
      ensures forall c :: c in made ==> c.frees == 1
    {
      SlotsLive();
      map1 := [];
      var drained := map2;
      map2 := [];
      for i := 0 to |drained|
        invariant map1 == [] && map2 == []
        invariant forall j :: 0 <= j < i ==> drained[j].item.frees == 1
        invariant forall j :: i <= j < |drained| ==> drained[j].item.frees == 0
        invariant forall c :: c in made && c !in old(Live()) ==> c.frees == 1
      {
        drained[i].item.Free();
      }
      forall c | c in made && c in old(Live()) ensures c.frees == 1 {
        assert c in Boxes(drained);
      }
    }
  }

  // ---- Whole lifetimes ----

  /** The content of the abstract map after a sequence of operations from empty. */
  ghost function Content<K1, K2, V>(ops: seq<Op<K1, K2, V>>): set<(K1, K2, V)> {
    if ops == [] then {} else After(Content(ops[..|ops| - 1]), ops[|ops| - 1])
  }

  /** The replies of the abstract map along the way. */
  ghost function Replies<K1, K2, V>(ops: seq<Op<K1, K2, V>>): seq<Reply<V>> {
    if ops == [] then []
    else var before := ops[..|ops| - 1]; Replies(before) + [Answer(Content(before), ops[|ops| - 1])]
  }

  lemma NextReply<K1, K2, V>(ops: seq<Op<K1, K2, V>>, i: nat, done: seq<Reply<V>>, reply: Reply<V>)
    requires i < |ops|
    ensures Content(ops[..i + 1]) == After(Content(ops[..i]), ops[i])
    ensures Replies(ops[..i + 1]) == Replies(ops[..i]) + [Answer(Content(ops[..i]), ops[i])]
    ensures Allocations(done + [reply]) == Allocations(done) + Allocations([reply])
  {
    assert ops[..i + 1][..i] == ops[..i];
    assert (done + [reply])[..|done|] == done;
  }

  /** How many insertions among the replies took place. */
  ghost function Allocations<V>(replies: seq<Reply<V>>): nat {
    if replies == [] then 0
    else Allocations(replies[..|replies| - 1]) + if replies[|replies| - 1] == Stored(true) then 1 else 0
  }

  method Perform<K1(==), K2(==), V>(m: MultiMap<K1, K2, V>, op: Op<K1, K2, V>) returns (reply: Reply<V>)
    requires m.Valid()
    modifies m, m.made
    ensures m.Valid() && old(m.made) <= m.made && fresh(m.made - old(m.made))
    ensures |m.made| == |old(m.made)| + Allocations([reply])
    ensures reply == Answer(old(m.Triples()), op)
    ensures m.Triples() == After(old(m.Triples()), op)
  {
    match op
    case Put(k1, k2, v) =>
      var r := m.Insert(k1, k2, v);
      reply := Stored(r.Ok?);
    case Look1(k) =>
      var r := m.Lookup1(k);
      reply := Found(r);
    case Look2(k) =>
      var r := m.Lookup2(k);
      reply := Found(r);
    case Take1(k) =>
      var r := m.Remove1(k);
      reply := Found(r);
    case Take2(k) =>
      var r := m.Remove2(k);
      reply := Found(r);
  }

  /** A map that is created, used for any sequence of operations and dropped answers every
      operation as the set of triples does, and each box it allocated is freed exactly once. */
  method Lifetime<K1(==), K2(==), V>(ops: seq<Op<K1, K2, V>>)
    returns (replies: seq<Reply<V>>, ghost boxes: set<Cell<K1, K2, V>>)
    ensures replies == Replies(ops)
    ensures |boxes| == Allocations(replies)
    ensures forall c :: c in boxes ==> fresh(c) && c.frees == 1
  {
    var m := new MultiMap<K1, K2, V>();
    replies := [];
    var i := 0;
    while i < |ops|
      invariant i <= |ops| && m.Valid() && fresh(m) && fresh(m.made)
      invariant |m.made| == Allocations(replies)
      invariant m.Triples() == Content(ops[..i]) && replies == Replies(ops[..i])
    {
      var reply := Perform(m, ops[i]);
      NextReply(ops, i, replies, reply);
      replies := replies + [reply];
      i := i + 1;
    }
    assert ops[..i] == ops;
    boxes := m.made;
    m.Drop();
  }
}
