/**
 The chained hash table: a finite map through every insert, update, remove
 and resize, on a prime number of buckets that grows with the load.
 */
module HashTable {
  import opened Primes

  datatype Option<+T> = None | Some(value: T)

  datatype Item<K, V> = Item(key: K, value: V)

  // -------------------------------------------------------------------
  // Chains
  // -------------------------------------------------------------------

  function Find<K(==), V>(c: seq<Item<K, V>>, k: K): Option<V> {
    if c == [] then None else if c[0].key == k then Some(c[0].value) else Find(c[1..], k)
  }

  ghost predicate Distinct<K, V>(c: seq<Item<K, V>>) {
    forall i, j :: 0 <= i < j < |c| ==> c[i].key != c[j].key
  }

  ghost predicate Absent<K, V>(c: seq<Item<K, V>>, k: K) {
    forall i :: 0 <= i < |c| ==> c[i].key != k
  }

  lemma {:induction false} FindAbsent<K, V>(c: seq<Item<K, V>>, k: K)
    ensures Find(c, k) == None <==> Absent(c, k)
  {
    if c != [] {
      FindAbsent(c[1..], k);
      assert forall i :: 1 <= i < |c| ==> c[i] == c[1..][i - 1];
    }
  }

  lemma {:induction false} FindAt<K, V>(c: seq<Item<K, V>>, i: nat)
    requires Distinct(c) && i < |c|
    ensures Find(c, c[i].key) == Some(c[i].value)
  {
    if i > 0 {
      assert Distinct(c[1..]) && c[1..][i - 1] == c[i];
      FindAt(c[1..], i - 1);
    }
  }

  lemma {:induction false} FindConcat<K, V>(a: seq<Item<K, V>>, b: seq<Item<K, V>>, k: K)
    ensures Find(a + b, k) == if Find(a, k).Some? then Find(a, k) else Find(b, k)
  {
    if a == [] {
      assert a + b == b;
    } else {
      assert (a + b)[0] == a[0] && (a + b)[1..] == a[1..] + b;
      FindConcat(a[1..], b, k);
    }
  }

  /** Changing the value of one item. */
  lemma {:induction false} FindUpdated<K, V>(c: seq<Item<K, V>>, i: nat, v: V, k: K)
    requires Distinct(c) && i < |c|
    ensures Distinct(c[i := Item(c[i].key, v)])
    ensures Find(c[i := Item(c[i].key, v)], k) == if k == c[i].key then Some(v) else Find(c, k)
  {
    var d := c[i := Item(c[i].key, v)];
    if i == 0 {
      assert d[1..] == c[1..];
    } else {
      assert d[1..] == c[1..][i - 1 := Item(c[i].key, v)];
      FindUpdated(c[1..], i - 1, v, k);
    }
  }

  /** Taking one item out. */
  lemma {:induction false} FindRemoved<K, V>(c: seq<Item<K, V>>, i: nat, k: K)
    requires Distinct(c) && i < |c|
    ensures Distinct(c[..i] + c[i + 1..])
    ensures Find(c[..i] + c[i + 1..], k) == if k == c[i].key then None else Find(c, k)
  {
    assert c == c[..i] + ([c[i]] + c[i + 1..]);
    FindConcat(c[..i], [c[i]] + c[i + 1..], k);
    FindConcat(c[..i], c[i + 1..], k);
    FindConcat([c[i]], c[i + 1..], k);
    if k == c[i].key {
      FindAbsent(c[..i], k);
      FindAbsent(c[i + 1..], k);
    } else {
      FindAbsent([c[i]], k);
    }
  }

  // -------------------------------------------------------------------
  // Bucket arrays as values
  // -------------------------------------------------------------------

  type Buckets<K, V> = seq<seq<Item<K, V>>>

  ghost predicate ChainOk<K(!new), V>(c: seq<Item<K, V>>, hash: K -> nat, b: nat, n: nat)
    requires n > 0
  {
    Distinct(c) && forall i :: 0 <= i < |c| ==> hash(c[i].key) % n == b
  }

  ghost predicate Sound<K(!new), V>(bs: Buckets<K, V>, hash: K -> nat) {
    |bs| > 0 && forall b :: 0 <= b < |bs| ==> ChainOk(bs[b], hash, b, |bs|)
  }

  function Lookup<K(==), V>(bs: Buckets<K, V>, hash: K -> nat, k: K): Option<V>
    requires |bs| > 0
  {
    Find(bs[hash(k) % |bs|], k)
  }

  ghost predicate Represents<K(!new), V>(bs: Buckets<K, V>, hash: K -> nat, m: map<K, V>)
    requires |bs| > 0
  {
    forall k :: Lookup(bs, hash, k) == if k in m then Some(m[k]) else None
  }

  /** All items, bucket by bucket. */
  function Flat<K, V>(bs: Buckets<K, V>): seq<Item<K, V>> {
    if bs == [] then [] else bs[0] + Flat(bs[1..])
  }

  lemma {:induction false} FlatConcat<K, V>(a: Buckets<K, V>, b: Buckets<K, V>)
    ensures Flat(a + b) == Flat(a) + Flat(b)
  {
    if a == [] {
      assert a + b == b;
    } else {
      assert (a + b)[0] == a[0] && (a + b)[1..] == a[1..] + b;
      FlatConcat(a[1..], b);
    }
  }

  lemma {:induction false} FlatSnoc<K, V>(bs: Buckets<K, V>, i: nat)
    requires i < |bs|
    ensures Flat(bs[..i + 1]) == Flat(bs[..i]) + bs[i]
  {
    assert bs[..i + 1] == bs[..i] + [bs[i]];
    FlatConcat(bs[..i], [bs[i]]);
    assert [bs[i]][1..] == [];
    assert Flat([bs[i]]) == bs[i] + [];
  }

  /** A key is found among the items exactly where its bucket has it. */
  lemma {:induction false} FlatFind<K(!new), V>(bs: Buckets<K, V>, hash: K -> nat, i: nat, k: K)
    requires Sound(bs, hash) && i <= |bs|
    ensures Find(Flat(bs[..i]), k) == if hash(k) % |bs| < i then Lookup(bs, hash, k) else None
  {
    if i > 0 {
      FlatFind(bs, hash, i - 1, k);
      FlatSnoc(bs, i - 1);
      FindConcat(Flat(bs[..i - 1]), bs[i - 1], k);
      assert ChainOk(bs[i - 1], hash, i - 1, |bs|);
      if hash(k) % |bs| != i - 1 { FindAbsent(bs[i - 1], k); }
    }
  }

  /** No key twice. */
  lemma {:induction false} FlatDistinct<K(!new), V>(bs: Buckets<K, V>, hash: K -> nat, i: nat)
    requires Sound(bs, hash) && i <= |bs|
    ensures Distinct(Flat(bs[..i]))
  {
    if i > 0 {
      FlatDistinct(bs, hash, i - 1);
      FlatSnoc(bs, i - 1);
      var a, c := Flat(bs[..i - 1]), bs[i - 1];
      assert ChainOk(c, hash, i - 1, |bs|);
      forall p | 0 <= p < |c|
        ensures Absent(a, c[p].key)
      {
        FlatFind(bs, hash, i - 1, c[p].key);
        FindAbsent(a, c[p].key);
      }
      DistinctConcat(a, c);
    }
  }

  lemma {:induction false} DistinctConcat<K, V>(a: seq<Item<K, V>>, c: seq<Item<K, V>>)
    requires Distinct(a) && Distinct(c) && forall p :: 0 <= p < |c| ==> Absent(a, c[p].key)
    ensures Distinct(a + c)
  {
    var t := a + c;
    forall i, j | 0 <= i < j < |t|
      ensures t[i].key != t[j].key
    {
      if i < |a| <= j {
        var p := j - |a|;
        assert Absent(a, c[p].key);
      }
    }
  }

  /** The items of a table are the entries of its map, each once. */
  lemma {:induction false} FlatExact<K(!new), V>(bs: Buckets<K, V>, hash: K -> nat, m: map<K, V>)
    requires Sound(bs, hash) && Represents(bs, hash, m)
    ensures Distinct(Flat(bs))
    ensures forall k :: Find(Flat(bs), k) == if k in m then Some(m[k]) else None
  {
    assert bs[..|bs|] == bs;
    FlatDistinct(bs, hash, |bs|);
    forall k
      ensures Find(Flat(bs), k) == if k in m then Some(m[k]) else None
    {
      FlatFind(bs, hash, |bs|, k);
    }
  }

  /** Replacing the chain of one bucket. */
  lemma {:induction false} ChainReplaced<K(!new), V>(bs: Buckets<K, V>, hash: K -> nat, b: nat, c: seq<Item<K, V>>)
    requires Sound(bs, hash) && b < |bs| && ChainOk(c, hash, b, |bs|)
    ensures Sound(bs[b := c], hash)
  {
  }

  lemma {:induction false} FrontOk<K(!new), V>(c: seq<Item<K, V>>, hash: K -> nat, b: nat, n: nat, e: Item<K, V>)
    requires n > 0 && ChainOk(c, hash, b, n) && hash(e.key) % n == b && Absent(c, e.key)
    ensures ChainOk([e] + c, hash, b, n)
  {
    var t := [e] + c;
    forall i, j | 0 <= i < j < |t|
      ensures t[i].key != t[j].key
    {
      assert t[j] == c[j - 1];
    }
  }

  /** An item put in front of its bucket. */
  lemma {:induction false} PutFront<K(!new), V>(bs: Buckets<K, V>, hash: K -> nat, m: map<K, V>, e: Item<K, V>)
    requires Sound(bs, hash) && Represents(bs, hash, m) && e.key !in m
    ensures var b := hash(e.key) % |bs|;
            Sound(bs[b := [e] + bs[b]], hash) && Represents(bs[b := [e] + bs[b]], hash, m[e.key := e.value])
  {
    var b := hash(e.key) % |bs|;
    var next := bs[b := [e] + bs[b]];
    FindAbsent(bs[b], e.key);
    assert Lookup(bs, hash, e.key) == None;
    FrontOk(bs[b], hash, b, |bs|, e);
    ChainReplaced(bs, hash, b, [e] + bs[b]);
    forall k
      ensures Lookup(next, hash, k) == if k in m[e.key := e.value] then Some(m[e.key := e.value][k]) else None
    {
      assert Lookup(bs, hash, k) == if k in m then Some(m[k]) else None;
      assert ([e] + bs[b])[1..] == bs[b];
    }
  }

  lemma {:induction false} PutValue<K(!new), V>(bs: Buckets<K, V>, hash: K -> nat, m: map<K, V>, b: nat, i: nat, v: V)
    requires Sound(bs, hash) && Represents(bs, hash, m) && b < |bs| && i < |bs[b]|
    ensures var key := bs[b][i].key;
            var next := bs[b := bs[b][i := Item(key, v)]];
            key in m && Sound(next, hash) && Represents(next, hash, m[key := v])
  {
    var c := bs[b];
    var key := c[i].key;
    var next := bs[b := c[i := Item(key, v)]];
    assert ChainOk(c, hash, b, |bs|);
    FindAt(c, i);
    assert Lookup(bs, hash, key).Some?;
    FindUpdated(c, i, v, key);
    ChainReplaced(bs, hash, b, c[i := Item(key, v)]);
    forall k
      ensures Lookup(next, hash, k) == if k in m[key := v] then Some(m[key := v][k]) else None
    {
      assert Lookup(bs, hash, k) == if k in m then Some(m[k]) else None;
      FindUpdated(c, i, v, k);
    }
  }

  lemma {:induction false} TakeOut<K(!new), V>(bs: Buckets<K, V>, hash: K -> nat, m: map<K, V>, b: nat, i: nat)
    requires Sound(bs, hash) && Represents(bs, hash, m) && b < |bs| && i < |bs[b]|
    ensures var key := bs[b][i].key;
            var next := bs[b := bs[b][..i] + bs[b][i + 1..]];
            key in m && m[key] == bs[b][i].value && Sound(next, hash) && Represents(next, hash, m - {key})
  {
    var c := bs[b];
    var key := c[i].key;
    var rest := c[..i] + c[i + 1..];
    var next := bs[b := rest];
    assert ChainOk(c, hash, b, |bs|);
    FindAt(c, i);
    assert Lookup(bs, hash, key) == Some(c[i].value);
    FindRemoved(c, i, key);
    ChainReplaced(bs, hash, b, rest);
    forall k
      ensures Lookup(next, hash, k) == if k in m - {key} then Some((m - {key})[k]) else None
    {
      assert Lookup(bs, hash, k) == if k in m then Some(m[k]) else None;
      FindRemoved(c, i, k);
    }
  }

  /** What the chain of a key says about the map. */
  lemma {:induction false} KeyIs<K(!new), V>(bs: Buckets<K, V>, hash: K -> nat, m: map<K, V>, k: K, i: nat)
    requires Sound(bs, hash) && Represents(bs, hash, m)
    requires var c := bs[hash(k) % |bs|]; i <= |c| && (if i < |c| then c[i].key == k else Absent(c, k))
    ensures var c := bs[hash(k) % |bs|];
            (k in m <==> i < |c|) && (i < |c| ==> m[k] == c[i].value)
  {
    var b := hash(k) % |bs|;
    assert Lookup(bs, hash, k) == if k in m then Some(m[k]) else None;
    assert ChainOk(bs[b], hash, b, |bs|);
    if i < |bs[b]| { FindAt(bs[b], i); } else { FindAbsent(bs[b], k); }
  }

  lemma {:induction false} NothingIn<K(!new), V>(bs: Buckets<K, V>, hash: K -> nat)
    requires |bs| > 0 && forall b :: 0 <= b < |bs| ==> bs[b] == []
    ensures Sound(bs, hash) && Represents(bs, hash, map[])
  {
  }

  lemma {:induction false} SizeAdded<K, V>(m: map<K, V>, k: K, v: V)
    ensures |m[k := v]| == |m| + if k in m then 0 else 1
  {
    assert m[k := v].Keys == m.Keys + {k};
    assert |m| == |m.Keys| && |m[k := v]| == |m[k := v].Keys|;
  }

  lemma {:induction false} SizeRemoved<K, V>(m: map<K, V>, k: K)
    requires k in m
    ensures |m - {k}| == |m| - 1
  {
    assert (m - {k}).Keys == m.Keys - {k};
    assert |m| == |m.Keys| && |m - {k}| == |(m - {k}).Keys|;
  }

  /** The map of a list of items. */
  function AsMap<K, V>(c: seq<Item<K, V>>): map<K, V> {
    if c == [] then map[] else var n := |c| - 1; AsMap(c[..n])[c[n].key := c[n].value]
  }

  lemma {:induction false} AsMapFind<K(!new), V>(c: seq<Item<K, V>>, k: K)
    requires Distinct(c)
    ensures Find(c, k) == if k in AsMap(c) then Some(AsMap(c)[k]) else None
  {
    if c != [] {
      var n := |c| - 1;
      assert c == c[..n] + [c[n]] && Distinct(c[..n]);
      AsMapFind(c[..n], k);
      FindConcat(c[..n], [c[n]], k);
      if k == c[n].key { FindAbsent(c[..n], k); } else { FindAbsent([c[n]], k); }
    }
  }

  lemma {:induction false} SameMap<K(!new), V>(c: seq<Item<K, V>>, m: map<K, V>)
    requires Distinct(c) && forall k :: Find(c, k) == if k in m then Some(m[k]) else None
    ensures AsMap(c) == m
  {
    forall k
      ensures k in AsMap(c) <==> k in m
      ensures k in m ==> AsMap(c)[k] == m[k]
    {
      AsMapFind(c, k);
      assert Find(c, k) == if k in m then Some(m[k]) else None;
    }
  }

  // -------------------------------------------------------------------
  // The table
  // -------------------------------------------------------------------

  datatype Status = Inserted | Updated | Exists

  /** Where a key is in a chain; the chain's length if nowhere. */
  method Position<K(==), V>(c: seq<Item<K, V>>, key: K) returns (i: nat)
    ensures i <= |c| && (i < |c| ==> c[i].key == key) && (i == |c| ==> Absent(c, key))
  {
    i := 0;
    while i < |c| && c[i].key != key
      invariant i <= |c| && forall j :: 0 <= j < i ==> c[j].key != key
    {
      i := i + 1;
    }
  }

  class Table<K(==, !new), V> {
    var buckets: array<seq<Item<K, V>>>
    var nentries: nat
    const hash: K -> nat
    ghost var contents: map<K, V>

    ghost predicate Holds()
      reads this, buckets
    {
      && Prime(buckets.Length) && Sound(buckets[..], hash) && Represents(buckets[..], hash, contents)
      && nentries == |contents|
    }

    ghost predicate Valid()
      reads this, buckets
    {
      Holds() && 4 * nentries <= 3 * buckets.Length + 4
    }

    constructor (initial: nat, hash: K -> nat)
      ensures Valid() && contents == map[] && this.hash == hash && fresh(buckets)
      ensures buckets.Length >= initial && (initial == 0 ==> buckets.Length == 11)
    {
      var n := NextPrime(if initial == 0 then 11 else initial);
      buckets := new seq<Item<K, V>>[n](_ => []);
      nentries := 0;
      this.hash := hash;
      contents := map[];
      new;
      NothingIn(buckets[..], hash);
      if initial == 0 { EleventhPrime(); }
    }

    /** ll_hash_resize */
    method Resize(wanted: nat)
      requires Holds()
      modifies this`buckets
      ensures Holds() && contents == old(contents) && nentries == old(nentries)
      ensures fresh(buckets) && buckets.Length >= wanted
      ensures forall q :: wanted <= q < buckets.Length ==> !Prime(q)
    {
      hide Sound, Represents;
      var n := NextPrime(wanted);
      var moved := new seq<Item<K, V>>[n](_ => []);
      NothingIn(moved[..], hash);
      ghost var bs := buckets[..];
      FlatExact(bs, hash, contents);
      SameMap(Flat(bs), contents);
      assert bs[..0] == [];
      var i := 0;
      while i < buckets.Length
        invariant buckets == old(buckets) && 0 <= i <= buckets.Length && buckets[..] == bs
        invariant Sound(moved[..], hash) && Represents(moved[..], hash, AsMap(Flat(bs[..i])))
      {
        MoveChain(moved, buckets[i], Flat(bs[..i]), bs, i);
        FlatSnoc(bs, i);
        i := i + 1;
      }
      assert bs[..|bs|] == bs;
      buckets := moved;
    }

    /** The inner loop of resize: one chain, from its front. */
    method MoveChain(moved: array<seq<Item<K, V>>>, chain: seq<Item<K, V>>,
                     ghost done: seq<Item<K, V>>, ghost bs: Buckets<K, V>, ghost i: nat)
      requires i < |bs| && chain == bs[i] && done == Flat(bs[..i])
      requires Distinct(Flat(bs)) && moved != buckets
      requires Sound(moved[..], hash) && Represents(moved[..], hash, AsMap(done))
      modifies moved
      ensures Sound(moved[..], hash) && Represents(moved[..], hash, AsMap(done + chain))
    {
      var j := 0;
      assert done + chain[..0] == done;
      while j < |chain|
        invariant 0 <= j <= |chain|
        invariant Sound(moved[..], hash) && Represents(moved[..], hash, AsMap(done + chain[..j]))
      {
        var e := chain[j];
        var b := hash(e.key) % moved.Length;
        NotYet(bs, i, j);
        AsMapSnoc(done + chain[..j], e);
        assert done + chain[..j + 1] == (done + chain[..j]) + [e];
        PutFront(moved[..], hash, AsMap(done + chain[..j]), e);
        ghost var was := moved[..];
        moved[b] := [e] + moved[b];
        assert moved[..] == was[b := [e] + was[b]];
        j := j + 1;
      }
      assert chain[..|chain|] == chain;
    }

    /** ll_hash_maybe_grow: the load is compared before inserting */
    method MaybeGrow()
      requires Valid()
      modifies this`buckets
      ensures Holds() && contents == old(contents) && nentries == old(nentries)
      ensures 4 * (nentries + 1) <= 3 * buckets.Length + 4
      ensures buckets == old(buckets) || fresh(buckets)
    {
      if 4 * nentries <= 3 * buckets.Length {
        return;
      }
      Resize(buckets.Length * 2);
    }

    /** ll_hash_insert */
    method Insert(key: K, value: V, update: bool) returns (status: Status)
      requires Valid()
      modifies this, buckets
      ensures Valid() && (buckets == old(buckets) || fresh(buckets))
      ensures status == if key !in old(contents) then Inserted else if update then Updated else Exists
      ensures contents == if status == Exists then old(contents) else old(contents)[key := value]
    {
      hide Sound, Represents;
      MaybeGrow();
      var b := hash(key) % buckets.Length;
      ghost var bs := buckets[..];
      var i := Position(buckets[b], key);
      KeyIs(bs, hash, contents, key, i);
      if i < |buckets[b]| {
        PutValue(bs, hash, contents, b, i, value);
        if !update {
          return Exists;
        }
        buckets[b] := buckets[b][i := Item(key, value)];
        assert buckets[..] == bs[b := bs[b][i := Item(key, value)]];
        SizeAdded(contents, key, value);
        contents := contents[key := value];
        return Updated;
      }
      PutFront(bs, hash, contents, Item(key, value));
      buckets[b] := [Item(key, value)] + buckets[b];
      assert buckets[..] == bs[b := [Item(key, value)] + bs[b]];
      SizeAdded(contents, key, value);
      nentries := nentries + 1;
      contents := contents[key := value];
      return Inserted;
    }

    /** ll_hash_search, and ll_hash_contains for whether it is there */
    method Search(key: K) returns (r: Option<V>)
      requires Valid()
      ensures r == if key in contents then Some(contents[key]) else None
    {
      var c := buckets[hash(key) % buckets.Length];
      var i := Position(c, key);
      KeyIs(buckets[..], hash, contents, key, i);
      if i < |c| {
        return Some(c[i].value);
      }
      return None;
    }

    /** ll_hash_remove */
    method Remove(key: K) returns (r: Option<V>)
      requires Valid()
      modifies this, buckets
      ensures Valid() && buckets == old(buckets)
      ensures r == if key in old(contents) then Some(old(contents)[key]) else None
      ensures contents == old(contents) - {key}
    {
      hide Sound, Represents;
      var b := hash(key) % buckets.Length;
      var c := buckets[b];
      ghost var bs := buckets[..];
      var i := Position(c, key);
      KeyIs(bs, hash, contents, key, i);
      if i < |c| {
        TakeOut(bs, hash, contents, b, i);
        buckets[b] := c[..i] + c[i + 1..];
        assert buckets[..] == bs[b := c[..i] + c[i + 1..]];
        SizeRemoved(contents, key);
        nentries := nentries - 1;
        contents := contents - {key};
        return Some(c[i].value);
      }
      assert contents - {key} == contents;
      return None;
    }
  }

  lemma {:induction false} EleventhPrime()
    ensures Prime(11)
  {
    assert forall d :: 2 <= d < 11 ==> 11 % d != 0;
  }

  /** The next item of a chain is not among those moved before it. */
  lemma {:induction false} NotYet<K(!new), V>(bs: Buckets<K, V>, i: nat, j: nat)
    requires i < |bs| && j < |bs[i]| && Distinct(Flat(bs))
    ensures bs[i][j].key !in AsMap(Flat(bs[..i]) + bs[i][..j])
  {
    var before := Flat(bs[..i]) + bs[i][..j];
    assert bs == bs[..i] + bs[i..];
    FlatConcat(bs[..i], bs[i..]);
    assert Flat(bs[i..]) == bs[i] + Flat(bs[i..][1..]);
    var all := Flat(bs);
    var p := |Flat(bs[..i])| + j;
    assert all[p] == bs[i][j] && before == all[..p];
    assert Distinct(before);
    AsMapFind(before, bs[i][j].key);
    FindAbsent(before, bs[i][j].key);
  }

  lemma {:induction false} AsMapSnoc<K, V>(c: seq<Item<K, V>>, e: Item<K, V>)
    ensures AsMap(c + [e]) == AsMap(c)[e.key := e.value]
  {
    assert (c + [e])[..|c|] == c;
  }

  // -------------------------------------------------------------------
  // The iterator
  // -------------------------------------------------------------------

  class Iter<K(==, !new), V> {
    const table: Table<K, V>
    var bucket: nat
    /** The chain from the current entry on; empty for no entry. */
    var rest: seq<Item<K, V>>

    ghost predicate Valid()
      reads this, table
    {
      bucket <= table.buckets.Length
    }

    /** What is still to come. */
    ghost function Remaining(): seq<Item<K, V>>
      requires Valid()
      reads this, table, table.buckets
    {
      (if rest == [] then [] else rest[1..]) + Flat(table.buckets[bucket..])
    }

    /** ll_hash_iter_init: every entry is to come, once. */
    constructor (table: Table<K, V>)
      requires table.Valid()
      ensures Valid() && this.table == table
      ensures Remaining() == Flat(table.buckets[..]) && Distinct(Remaining()) && AsMap(Remaining()) == table.contents
    {
      this.table := table;
      bucket := 0;
      rest := [];
      new;
      assert table.buckets[0..] == table.buckets[..];
      FlatExact(table.buckets[..], table.hash, table.contents);
      SameMap(Flat(table.buckets[..]), table.contents);
    }

    /** ll_hash_iter_next */
    method Next() returns (r: Option<Item<K, V>>)
      requires Valid()
      modifies this
      ensures Valid()
      ensures if old(Remaining()) == [] then r == None && Remaining() == []
              else r == Some(old(Remaining())[0]) && Remaining() == old(Remaining())[1..]
    {
      if rest != [] {
        rest := rest[1..];
      }
      while rest == []
        invariant Valid() && rest + Flat(table.buckets[bucket..]) == old(Remaining())
        decreases table.buckets.Length - bucket
      {
        if bucket >= table.buckets.Length {
          return None;
        }
        assert table.buckets[bucket..][1..] == table.buckets[bucket + 1..];
        rest := table.buckets[bucket];
        bucket := bucket + 1;
      }
      return Some(rest[0]);
    }
  }
}
