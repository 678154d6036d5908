/**
 What a list of machine names stands for.
 */
module MachineLists {
  import opened ManifestText
  import N = Names

  // -------------------------------------------------------------------
  // The words of a text
  // -------------------------------------------------------------------

  predicate Solid(s: string, lo: nat, hi: nat) {
    lo <= hi <= |s| && forall i :: lo <= i < hi ==> s[i] != ' ' && s[i] != '\t' && s[i] != ','
  }

  predicate Gap(s: string, i: int) {
    !(0 <= i < |s|) || s[i] == ' ' || s[i] == '\t' || s[i] == ','
  }

  /** s[lo..hi] stands alone between blanks, tabs and commas. */
  predicate WordAt(s: string, lo: nat, hi: nat) {
    lo < hi && Solid(s, lo, hi) && Gap(s, lo - 1) && Gap(s, hi)
  }

  lemma {:induction false} WordStops(s: string)
    ensures Solid(s, 0, N.WordLength(s)) && Gap(s, N.WordLength(s))
    ensures s != "" && !N.IsSeparator(s[0]) ==> N.WordLength(s) > 0
  {
    if s != "" && !N.IsSeparator(s[0]) {
      WordStops(s[1..]);
      var n := N.WordLength(s[1..]);
      assert forall i :: 0 <= i < n ==> s[i + 1] == s[1..][i];
      assert n < |s[1..]| ==> s[n + 1] == s[1..][n];
    }
  }

  lemma {:induction false} SolidLater(s: string, k: nat, lo: nat, hi: nat)
    requires k <= lo <= hi <= |s|
    ensures Solid(s, lo, hi) <==> Solid(s[k..], lo - k, hi - k)
  {
    var t := s[k..];
    if Solid(s, lo, hi) {
      forall i | lo - k <= i < hi - k
        ensures t[i] != ' ' && t[i] != '\t' && t[i] != ','
      {
        assert t[i] == s[i + k];
      }
    }
    if Solid(t, lo - k, hi - k) {
      forall i | lo <= i < hi
        ensures s[i] != ' ' && s[i] != '\t' && s[i] != ','
      {
        assert s[i] == t[i - k];
      }
    }
  }

  lemma {:induction false} GapLater(s: string, k: nat, i: int)
    requires k <= i <= |s|
    ensures Gap(s, i) <==> Gap(s[k..], i - k)
  {
    if i < |s| { assert s[i] == s[k..][i - k]; }
  }

  lemma {:induction false} PartLater(s: string, k: nat, lo: nat, hi: nat)
    requires k <= lo <= hi <= |s|
    ensures s[lo..hi] == s[k..][lo - k..hi - k]
  {
  }

  /** Word for word, wherever a later part of the text begins. */
  lemma {:induction false} WordLater(s: string, k: nat, lo: nat, hi: nat)
    requires k <= lo && WordAt(s, lo, hi)
    ensures WordAt(s[k..], lo - k, hi - k) && s[lo..hi] == s[k..][lo - k..hi - k]
  {
    SolidLater(s, k, lo, hi);
    GapLater(s, k, hi);
    PartLater(s, k, lo, hi);
    if k < lo { GapLater(s, k, lo - 1); }
  }

  lemma {:induction false} WordEarlier(s: string, k: nat, lo: nat, hi: nat)
    requires k <= |s| && WordAt(s[k..], lo, hi) && (lo > 0 || Gap(s, k - 1))
    ensures WordAt(s, lo + k, hi + k) && s[lo + k..hi + k] == s[k..][lo..hi]
  {
    SolidLater(s, k, lo + k, hi + k);
    GapLater(s, k, hi + k);
    PartLater(s, k, lo + k, hi + k);
    if lo > 0 { GapLater(s, k, lo + k - 1); }
  }

  /** The words are the stretches without separators. */
  lemma {:induction false} WordsExact(s: string, w: string)
    ensures w in N.Words(s) <==> exists lo: nat, hi: nat :: WordAt(s, lo, hi) && s[lo..hi] == w
  {
    if w in N.Words(s) {
      var lo, hi := WordIsThere(s, w);
    }
    if lo: nat, hi: nat :| WordAt(s, lo, hi) && s[lo..hi] == w {
      WordIsFound(s, lo, hi);
    }
  }

  lemma {:induction false} WordIsThere(s: string, w: string) returns (lo: nat, hi: nat)
    requires w in N.Words(s)
    ensures WordAt(s, lo, hi) && s[lo..hi] == w
    decreases |s|
  {
    if N.IsSeparator(s[0]) {
      lo, hi := WordIsThere(s[1..], w);
      WordEarlier(s, 1, lo, hi);
      lo, hi := lo + 1, hi + 1;
    } else {
      var n := N.WordLength(s);
      WordStops(s);
      if w == s[..n] {
        lo, hi := 0, n;
      } else {
        lo, hi := WordIsThere(s[n..], w);
        GapLater(s, n, n);
        WordEarlier(s, n, lo, hi);
        lo, hi := lo + n, hi + n;
      }
    }
  }

  lemma {:induction false} WordIsFound(s: string, lo: nat, hi: nat)
    requires WordAt(s, lo, hi)
    ensures s[lo..hi] in N.Words(s)
    decreases |s|
  {
    if N.IsSeparator(s[0]) {
      WordLater(s, 1, lo, hi);
      WordIsFound(s[1..], lo - 1, hi - 1);
    } else {
      var n := N.WordLength(s);
      WordStops(s);
      if lo == 0 {
        assert hi == n;
      } else {
        assert n <= lo;
        WordLater(s, n, lo, hi);
        WordIsFound(s[n..], lo - n, hi - n);
      }
    }
  }

  // -------------------------------------------------------------------
  // The machines
  // -------------------------------------------------------------------

  /** w stands for the host: itself, or a group that lists it. */
  predicate StandsFor(groups: Groups, w: string, name: string) {
    if w in groups then name in groups[w] else name == w
  }

  lemma {:induction false} FlattenedExact(groups: Groups, ws: seq<string>, name: string)
    ensures name in Flattened(groups, ws) <==> exists i :: 0 <= i < |ws| && StandsFor(groups, ws[i], name)
  {
    if ws != [] {
      FlattenedExact(groups, ws[1..], name);
      assert forall i :: 0 < i < |ws| ==> ws[i] == ws[1..][i - 1];
      if i :| 0 <= i < |ws[1..]| && StandsFor(groups, ws[1..][i], name) { assert StandsFor(groups, ws[i + 1], name); }
      if i :| 0 <= i < |ws| && StandsFor(groups, ws[i], name) {
        if i > 0 { assert StandsFor(groups, ws[1..][i - 1], name); }
      }
    }
  }

  lemma {:induction false} OnceExact(ws: seq<string>)
    ensures forall w :: w in Once(ws) <==> w in ws
    ensures forall i, k :: 0 <= i < k < |Once(ws)| ==> Once(ws)[i] != Once(ws)[k]
  {
    if ws != [] {
      OnceExact(ws[..|ws| - 1]);
      assert ws == ws[..|ws| - 1] + [ws[|ws| - 1]];
    }
  }

  /** A list names a host exactly if a word of it is the host's name, or the
      name of a group that lists it; and no host twice. */
  lemma {:induction false} MachinesExact(groups: Groups, text: string, h: N.HostId)
    ensures h in Machines(groups, text) <==> exists lo: nat, hi: nat :: WordAt(text, lo, hi) && StandsFor(groups, text[lo..hi], h.name)
    ensures forall i, k :: 0 <= i < k < |Machines(groups, text)| ==> Machines(groups, text)[i] != Machines(groups, text)[k]
  {
    var ws := N.Words(text);
    FlattenedExact(groups, ws, h.name);
    OnceExact(Flattened(groups, ws));
    var names := Once(Flattened(groups, ws));
    assert h in Machines(groups, text) <==> h.name in names by {
      if h.name in names {
        var i :| 0 <= i < |names| && names[i] == h.name;
        assert Machines(groups, text)[i] == h;
      }
    }
    hide N.Words, Once, Flattened, Machines;
    if i :| 0 <= i < |ws| && StandsFor(groups, ws[i], h.name) {
      WordsExact(text, ws[i]);
    }
    if lo: nat, hi: nat :| WordAt(text, lo, hi) && StandsFor(groups, text[lo..hi], h.name) {
      WordsExact(text, text[lo..hi]);
      var i :| 0 <= i < |ws| && ws[i] == text[lo..hi];
    }
  }
}
