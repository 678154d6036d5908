/**
 The intrusive binary heap: an array of entries that know their own position,
 so that one can be taken out from anywhere.
 */
module Heap {

  // -------------------------------------------------------------------
  // Order on sequences
  // -------------------------------------------------------------------

  datatype Option<+T> = None | Some(value: T)

  type Compare<!T> = (T, T) -> int

  /** What qsort-style comparators promise. */
  ghost predicate TotalPreorder<T(!new)>(cmp: Compare<T>) {
    && (forall a, b :: cmp(a, b) <= 0 <==> cmp(b, a) >= 0)
    && (forall a, b, c :: cmp(a, b) <= 0 && cmp(b, c) <= 0 ==> cmp(a, c) <= 0)
  }

  lemma {:induction false} Trans<T(!new)>(cmp: Compare<T>, a: T, b: T, c: T)
    requires TotalPreorder(cmp) && cmp(a, b) <= 0 && cmp(b, c) <= 0
    ensures cmp(a, c) <= 0
  {
  }

  function Parent(k: nat): nat { if k == 0 then 0 else (k - 1) / 2 }

  predicate InOrder<T>(s: seq<T>, cmp: Compare<T>, k: nat)
    requires k < |s|
  {
    k == 0 || cmp(s[Parent(k)], s[k]) <= 0
  }

  ghost predicate Ordered<T>(s: seq<T>, cmp: Compare<T>) {
    forall k :: 0 <= k < |s| ==> InOrder(s, cmp, k)
  }

  /** The children of i are not below i's parent. */
  ghost predicate Bridged<T>(s: seq<T>, cmp: Compare<T>, i: nat)
    requires i < |s|
  {
    i > 0 ==> forall k :: 0 < k < |s| && Parent(k) == i ==> cmp(s[Parent(i)], s[k]) <= 0
  }

  /** In order but perhaps at i itself. */
  ghost predicate UpTo<T>(s: seq<T>, cmp: Compare<T>, i: nat) {
    && i < |s| && Bridged(s, cmp, i)
    && forall k :: 0 <= k < |s| && k != i ==> InOrder(s, cmp, k)
  }

  /** In order but perhaps at i's children, and at i unless `up`. */
  ghost predicate DownTo<T>(s: seq<T>, cmp: Compare<T>, i: nat, up: bool) {
    && i < |s| && Bridged(s, cmp, i) && (up ==> InOrder(s, cmp, i))
    && forall k :: 0 < k < |s| && k != i && Parent(k) != i ==> InOrder(s, cmp, k)
  }

  function Swapped<T>(s: seq<T>, i: nat, j: nat): (r: seq<T>)
    requires i < |s| && j < |s|
    ensures |r| == |s|
  {
    s[i := s[j]][j := s[i]]
  }

  lemma {:induction false} UpStep<T(!new)>(s: seq<T>, cmp: Compare<T>, i: nat)
    requires TotalPreorder(cmp) && UpTo(s, cmp, i) && i > 0 && cmp(s[Parent(i)], s[i]) > 0
    ensures UpTo(Swapped(s, i, Parent(i)), cmp, Parent(i))
  {
    var p := Parent(i);
    var t := Swapped(s, i, p);
    assert cmp(s[i], s[p]) <= 0;
    forall k | 0 <= k < |t| && k != p
      ensures InOrder(t, cmp, k)
    {
      assert k != i ==> InOrder(s, cmp, k);
      if k != i && Parent(k) == p && k > 0 {
        assert cmp(s[p], s[k]) <= 0 && cmp(s[i], s[k]) <= 0;
      }
    }
    if p > 0 {
      assert InOrder(s, cmp, p);
      forall k | 0 < k < |t| && Parent(k) == p
        ensures cmp(t[Parent(p)], t[k]) <= 0
      {
        assert k != i ==> InOrder(s, cmp, k);
      }
    }
  }

  lemma {:induction false} UpDone<T>(s: seq<T>, cmp: Compare<T>, i: nat)
    requires UpTo(s, cmp, i) && InOrder(s, cmp, i)
    ensures Ordered(s, cmp)
  {
  }

  /** c is the child sift-down swaps with. */
  ghost predicate SmallestChild<T>(s: seq<T>, cmp: Compare<T>, i: nat, c: nat) {
    && i < c < |s| && Parent(c) == i && cmp(s[c], s[i]) < 0
    && forall k :: 0 < k < |s| && Parent(k) == i ==> cmp(s[c], s[k]) <= 0
  }

  lemma {:induction false} DownStep<T(!new)>(s: seq<T>, cmp: Compare<T>, i: nat, up: bool, c: nat)
    requires TotalPreorder(cmp) && DownTo(s, cmp, i, up) && SmallestChild(s, cmp, i, c)
    ensures DownTo(Swapped(s, i, c), cmp, c, true) && InOrder(Swapped(s, i, c), cmp, i)
  {
    var t := Swapped(s, i, c);
    assert InOrder(t, cmp, i) by {
      if i > 0 { assert cmp(s[Parent(i)], s[c]) <= 0; }
    }
    assert InOrder(t, cmp, c);
    forall k | 0 < k < |t| && k != c && Parent(k) != c
      ensures InOrder(t, cmp, k)
    {
      if k != i && Parent(k) != i { assert InOrder(s, cmp, k); }
    }
    forall k | 0 < k < |t| && Parent(k) == c
      ensures cmp(t[Parent(c)], t[k]) <= 0
    {
      assert k != i && k != c && Parent(k) != i;
      assert InOrder(s, cmp, k);
    }
  }

  ghost predicate NoSmallerChild<T>(s: seq<T>, cmp: Compare<T>, i: nat)
    requires i < |s|
  {
    forall k :: 0 < k < |s| && Parent(k) == i ==> cmp(s[i], s[k]) <= 0
  }

  lemma {:induction false} DownDone<T>(s: seq<T>, cmp: Compare<T>, i: nat, up: bool)
    requires DownTo(s, cmp, i, up) && NoSmallerChild(s, cmp, i)
    ensures UpTo(s, cmp, i) && (up ==> Ordered(s, cmp))
  {
    forall k | 0 <= k < |s| && k != i
      ensures InOrder(s, cmp, k)
    {
    }
  }

  /** The root is a minimum. */
  lemma {:induction false} RootIsLeast<T(!new)>(s: seq<T>, cmp: Compare<T>, k: nat)
    requires TotalPreorder(cmp) && Ordered(s, cmp) && k < |s|
    ensures cmp(s[0], s[k]) <= 0
    decreases k
  {
    if k == 0 {
      assert cmp(s[0], s[0]) <= 0 <==> cmp(s[0], s[0]) >= 0;
    } else {
      RootIsLeast(s, cmp, Parent(k));
      assert InOrder(s, cmp, k);
    }
  }

  /** Replacing one element by the last and dropping it. */
  lemma {:induction false} Replaced<T(!new)>(s: seq<T>, cmp: Compare<T>, i: nat)
    requires TotalPreorder(cmp) && Ordered(s, cmp) && i < |s| - 1
    ensures DownTo(s[..|s| - 1][i := s[|s| - 1]], cmp, i, i == 0)
  {
    hide TotalPreorder;
    var n := |s| - 1;
    var t := s[..n][i := s[n]];
    assert forall k :: 0 <= k < n && k != i ==> t[k] == s[k];
    forall k | 0 < k < |t| && k != i && Parent(k) != i
      ensures InOrder(t, cmp, k)
    {
      assert InOrder(s, cmp, k);
    }
    if i > 0 {
      forall k | 0 < k < |t| && Parent(k) == i
        ensures cmp(t[Parent(i)], t[k]) <= 0
      {
        assert InOrder(s, cmp, k) && InOrder(s, cmp, i);
        Trans(cmp, s[Parent(i)], s[i], s[k]);
      }
    }
  }

  // -------------------------------------------------------------------
  // The heap
  // -------------------------------------------------------------------

  class Entry<T(0)> {
    var idx: int
    var owner: T

    constructor (owner: T)
      ensures idx == -1 && this.owner == owner
    {
      idx := -1;
      this.owner := owner;
    }
  }

  class BinaryHeap<T(0, !new)> {
    var data: array<Entry?<T>>
    var size: nat
    const cmp: Compare<T>
    /** The entries held, and their owners position by position. */
    ghost var members: set<Entry<T>>
    ghost var keys: seq<T>

    /** Members know their positions, and nobody else is in the array. */
    ghost predicate Shape()
      reads this, data, members
    {
      && size <= data.Length && |keys| == size
      && (forall i :: 0 <= i < size ==>
            data[i] != null && data[i] in members && data[i].idx == i && data[i].owner == keys[i])
      && (forall e :: e in members ==> 0 <= e.idx < size && data[e.idx] == e)
    }

    ghost predicate Valid()
      reads this, data, members
    {
      Shape() && TotalPreorder(cmp) && Ordered(keys, cmp)
    }

    constructor (cmp: Compare<T>)
      requires TotalPreorder(cmp)
      ensures Valid() && members == {} && this.cmp == cmp && fresh(data)
    {
      data := new Entry?<T>[0];
      size := 0;
      keys := [];
      members := {};
      this.cmp := cmp;
    }

    /** ll_heap_swap */
    method Swap(i: nat, j: nat)
      requires Shape() && i < size && j < size && i != j
      modifies data, this`keys, members`idx
      ensures Shape() && keys == Swapped(old(keys), i, j)
    {
      assert data[i] != data[j];
      var tmp := data[i];
      data[i] := data[j];
      data[j] := tmp;
      data[i].idx := i;
      data[j].idx := j;
      keys := Swapped(keys, i, j);
    }

    /** ll_heap_sift_up */
    method SiftUp(at: nat) returns (moved: bool)
      requires Shape() && TotalPreorder(cmp) && UpTo(keys, cmp, at)
      modifies data, this`keys, members`idx
      ensures Valid()
      ensures moved <==> !InOrder(old(keys), cmp, at)
      ensures !moved ==> keys == old(keys)
    {
      hide TotalPreorder, UpTo, Swapped, Ordered;
      UpInside(keys, cmp, at);
      moved := false;
      var i: nat := at;
      while i > 0
        invariant i < size && Shape() && UpTo(keys, cmp, i)
        invariant !moved ==> i == at && keys == old(keys)
        invariant moved ==> !InOrder(old(keys), cmp, at)
        decreases i
      {
        var parent: nat := (i - 1) / 2;
        assert parent == Parent(i) < size;
        if cmp(data[parent].owner, data[i].owner) <= 0 {
          break;
        }
        UpStep(keys, cmp, i);
        Swap(i, parent);
        moved := true;
        i := parent;
      }
      UpDone(keys, cmp, i);
    }

    /** The child sift-down would move up, or i. */
    method Smallest(i: nat) returns (c: nat)
      requires Shape() && TotalPreorder(cmp) && i < size
      ensures if c == i then NoSmallerChild(keys, cmp, i) else SmallestChild(keys, cmp, i, c)
    {
      var left, right := 2 * i + 1, 2 * i + 2;
      c := i;
      if left < size && cmp(data[left].owner, data[c].owner) < 0 {
        c := left;
      }
      if right < size && cmp(data[right].owner, data[c].owner) < 0 {
        c := right;
      }
      SmallestOf(keys, cmp, i, c);
    }

    /** ll_heap_sift_down; `up` says that i is in order with its parent */
    method SiftDown(at: nat, ghost up: bool) returns (moved: bool)
      requires Shape() && TotalPreorder(cmp) && DownTo(keys, cmp, at, up)
      modifies data, this`keys, members`idx
      ensures Shape() && UpTo(keys, cmp, at) && (up || moved ==> Ordered(keys, cmp))
      ensures !moved ==> keys == old(keys)
    {
      hide TotalPreorder, DownTo, UpTo, SmallestChild, NoSmallerChild, Ordered, Swapped;
      DownInside(keys, cmp, at, up);
      moved := false;
      var i: nat := at;
      var c := Smallest(i);
      while c != i
        invariant Shape() && i < size && DownTo(keys, cmp, i, up || moved)
        invariant if c == i then NoSmallerChild(keys, cmp, i) else SmallestChild(keys, cmp, i, c)
        invariant !moved ==> i == at && keys == old(keys)
        decreases size - i
      {
        ChildInside(keys, cmp, i, c);
        DownStep(keys, cmp, i, up || moved, c);
        Swap(i, c);
        moved := true;
        i := c;
        c := Smallest(i);
      }
      DownDone(keys, cmp, i, up || moved);
      if moved { OrderedIsUp(keys, cmp, at); }
    }

    /** The realloc of ll_heap_push: twice the room, or 64 */
    method Grow()
      requires Valid() && size == data.Length
      modifies this`data
      ensures Valid() && fresh(data) && size < data.Length
    {
      var cap := if data.Length == 0 then 64 else data.Length * 2;
      var more := new Entry?<T>[cap];
      var i := 0;
      while i < size
        invariant data == old(data) && 0 <= i <= size && forall k :: 0 <= k < i ==> more[k] == data[k]
      {
        more[i] := data[i];
        i := i + 1;
      }
      data := more;
    }

    /** ll_heap_push */
    method Push(e: Entry<T>, owner: T)
      requires Valid() && e !in members
      modifies this, data, e, members`idx
      ensures Valid() && members == old(members) + {e} && e.owner == owner
      ensures data == old(data) || fresh(data)
    {
      if size == data.Length {
        Grow();
      }
      e.owner := owner;
      e.idx := size;
      data[size] := e;
      size := size + 1;
      Appended(keys, cmp, owner);
      keys := keys + [owner];
      members := members + {e};
      var moved := SiftUp(size - 1);
    }

    /** What pop and remove do before they sift: the last entry takes i's place. */
    method Fill(i: nat)
      requires Valid() && i < size
      modifies this, data, members`idx
      ensures Shape() && data == old(data) && size == old(size) - 1
      ensures members == old(members) - {old(data[i])} && old(data[i]).idx == -1
      ensures if i == size then Ordered(keys, cmp) else DownTo(keys, cmp, i, i == 0)
    {
      hide TotalPreorder, Ordered, DownTo;
      var e := data[i];
      assert forall k :: 0 <= k < size && k != i ==> data[k] != e;
      e.idx := -1;
      size := size - 1;
      members := members - {e};
      if i < size {
        Replaced(keys, cmp, i);
        data[i] := data[size];
        data[i].idx := i;
        keys := keys[..size][i := keys[size]];
      } else {
        Shortened(keys, cmp);
        keys := keys[..size];
      }
    }

    /** ll_heap_pop: a minimum leaves */
    method Pop() returns (r: Option<T>)
      requires Valid()
      modifies this, data, members`idx
      ensures Valid() && data == old(data)
      ensures r.None? <==> old(members) == {}
      ensures r.None? ==> members == old(members)
      ensures r.Some? ==>
                exists e :: e in old(members) && r.value == old(e.owner) && members == old(members) - {e} && e.idx == -1
      ensures r.Some? ==> forall x :: x in old(members) ==> cmp(r.value, old(x.owner)) <= 0
    {
      if size == 0 {
        return None;
      }
      var e := data[0];
      var owner := e.owner;
      forall x | x in members
        ensures cmp(owner, x.owner) <= 0
      {
        RootIsLeast(keys, cmp, x.idx);
      }
      Fill(0);
      if size > 0 {
        var moved := SiftDown(0, true);
      }
      return Some(owner);
    }

    /** ll_heap_remove: from anywhere; at most one of the two sifts moves anything */
    method Remove(e: Entry<T>) returns (down: bool, up: bool)
      requires Valid() && (e.idx >= 0 ==> e in members)
      modifies this, data, members`idx
      ensures Valid() && data == old(data) && e.idx < 0 && !(down && up)
      ensures members == if old(e.idx) < 0 then old(members) else old(members) - {e}
    {
      down, up := false, false;
      var i := e.idx;
      if i < 0 {
        return;
      }
      Fill(i);
      if i == size {
        return;
      }
      down := SiftDown(i, i == 0);
      if down { OrderedIsUp(keys, cmp, i); }
      up := SiftUp(i);
    }
  }

  lemma {:induction false} UpInside<T>(s: seq<T>, cmp: Compare<T>, i: nat)
    requires UpTo(s, cmp, i)
    ensures i < |s|
  {
  }

  lemma {:induction false} DownInside<T>(s: seq<T>, cmp: Compare<T>, i: nat, up: bool)
    requires DownTo(s, cmp, i, up)
    ensures i < |s|
  {
  }

  lemma {:induction false} ChildInside<T>(s: seq<T>, cmp: Compare<T>, i: nat, c: nat)
    requires SmallestChild(s, cmp, i, c)
    ensures i < c < |s|
  {
  }

  lemma {:induction false} Appended<T>(s: seq<T>, cmp: Compare<T>, x: T)
    requires Ordered(s, cmp)
    ensures UpTo(s + [x], cmp, |s|)
  {
    var t := s + [x];
    forall k | 0 <= k < |s|
      ensures InOrder(t, cmp, k)
    {
      assert InOrder(s, cmp, k);
    }
  }

  lemma {:induction false} Shortened<T>(s: seq<T>, cmp: Compare<T>)
    requires s != [] && Ordered(s, cmp)
    ensures Ordered(s[..|s| - 1], cmp)
  {
    var t := s[..|s| - 1];
    forall k | 0 <= k < |t|
      ensures InOrder(t, cmp, k)
    {
      assert InOrder(s, cmp, k);
    }
  }

  lemma {:induction false} SmallestOf<T(!new)>(s: seq<T>, cmp: Compare<T>, i: nat, c: nat)
    requires TotalPreorder(cmp) && i < |s|
    requires var l, r := 2 * i + 1, 2 * i + 2;
             var m := if l < |s| && cmp(s[l], s[i]) < 0 then l else i;
             c == if r < |s| && cmp(s[r], s[m]) < 0 then r else m
    ensures if c == i then NoSmallerChild(s, cmp, i) else SmallestChild(s, cmp, i, c)
  {
    var l, r := 2 * i + 1, 2 * i + 2;
    assert forall k :: 0 < k && Parent(k) == i ==> k == l || k == r;
    assert forall k :: 0 <= k < |s| ==> cmp(s[k], s[k]) <= 0;
  }

  lemma {:induction false} OrderedIsUp<T(!new)>(s: seq<T>, cmp: Compare<T>, i: nat)
    requires TotalPreorder(cmp) && Ordered(s, cmp) && i < |s|
    ensures UpTo(s, cmp, i) && InOrder(s, cmp, i)
  {
    if i > 0 {
      forall k | 0 < k < |s| && Parent(k) == i
        ensures cmp(s[Parent(i)], s[k]) <= 0
      {
        assert InOrder(s, cmp, k) && InOrder(s, cmp, i);
      }
    }
  }
}
