/**
 The parser accepts exactly the texts of the grammar, reads each the one way
 it can be read, and the compiled code computes the Boolean meaning.
 */
module DependencyProofs {
  import opened Dependency

  // -------------------------------------------------------------------
  // Soundness
  // -------------------------------------------------------------------

  lemma {:induction false} SkipStops(s: string, p: nat)
    requires p <= |s|
    ensures Blank(s, p, Skip(s, p)) && !IsSpace(At(s, Skip(s, p)))
    decreases |s| - p
  {
    if p < |s| && IsSpace(s[p]) { SkipStops(s, p + 1); }
  }

  lemma {:induction false} SkipDigitsStops(s: string, p: nat)
    requires p <= |s|
    ensures Digits(s, p, SkipDigits(s, p))
    decreases |s| - p
  {
    if p < |s| && IsDigit(s[p]) { SkipDigitsStops(s, p + 1); }
  }

  lemma {:induction false} NumberSound(s: string, p: nat)
    requires p <= |s|
    ensures var r := ParseNumber(s, p); r.Number? ==> NumberAt(s, p, r.next, r.value)
  {
    SkipDigitsStops(s, p);
    if p < |s| { SkipDigitsStops(s, p + 1); }
  }

  lemma {:induction false} ArgumentSound(s: string, p: nat, k: Kind, known: int -> bool)
    requires p <= |s|
    ensures var r := ParseArgument(s, p, k, known);
            r.Ok? ==> r.tree.Leaf? && r.tree.kind == k && known(r.tree.job) && ArgumentAt(s, p, r.next, r.tree.job)
  {
    var r := ParseArgument(s, p, k, known);
    if r.Ok? {
      var a := Skip(s, p);
      var b := Skip(s, a + 1);
      var num := ParseNumber(s, b);
      SkipStops(s, p);
      SkipStops(s, a + 1);
      NumberSound(s, b);
      SkipStops(s, num.next);
      assert Parenthesised(s, p, a, b, num.next, r.next - 1, r.next, num.value);
    }
  }

  lemma {:induction false} CallSound(s: string, p: nat, known: int -> bool)
    requires p <= |s|
    ensures var r := ParseCall(s, p, known);
            r.Ok? ==> CallAt(s, p, r.next, r.tree) && AllKnown(r.tree, known)
  {
    if WordAt(s, p, Done) {
      ArgumentSound(s, p + 4, Done, known);
    } else if WordAt(s, p, Exit) {
      ArgumentSound(s, p + 4, Exit, known);
    } else if WordAt(s, p, Ended) {
      ArgumentSound(s, p + 5, Ended, known);
    }
  }

  lemma {:induction false} FactorSound(s: string, p: nat, known: int -> bool, d: nat)
    requires p <= |s|
    ensures var r := ParseFactor(s, p, known);
            r.Ok? && r.depth <= d ==> FactorAt(s, p, r.next, r.tree, d) && AllKnown(r.tree, known)
    decreases |s| - p, 0
  {
    var r := ParseFactor(s, p, known);
    var q := Skip(s, p);
    SkipStops(s, p);
    if r.Ok? && r.depth <= d {
      if At(s, q) == '!' {
        FactorSound(s, q + 1, known, d);
      } else if At(s, q) == '(' {
        ExprSound(s, q + 1, known, d - 1);
      } else {
        CallSound(s, q, known);
      }
      assert Blank(s, p, q) && q < r.next && FactorHere(s, p, q, r.next, r.tree, d);
    }
  }

  lemma {:induction false} TermSound(s: string, p: nat, known: int -> bool, d: nat)
    requires p <= |s|
    ensures var r := ParseTerm(s, p, known);
            r.Ok? && r.depth <= d ==> TermAt(s, p, r.next, r.tree, d) && AllKnown(r.tree, known)
    ensures var r := ParseTerm(s, p, known); r.Ok? ==> !IsSpace(At(s, r.next))
    decreases |s| - p, 1
  {
    var f := ParseFactor(s, p, known);
    FactorSound(s, p, known, d);
    if f.Ok? {
      var q := Skip(s, f.next);
      SkipStops(s, f.next);
      if f.depth <= d {
        assert FactorAt(s, p, f.next, f.tree, d) && Blank(s, f.next, q);
        assert PaddedAt(s, p, q, f.tree, d);
      }
      TermLoopSound(s, p, q, f.tree, f.depth, known, d);
    }
  }

  lemma {:induction false} TermGrows(s: string, lo: nat, p: nat, m: nat, q: nat, l: Tree, r: Tree, d: nat)
    requires lo < p && p + 2 <= m <= q && TermAt(s, lo, p, l, d)
    requires At(s, p) == '&' && At(s, p + 1) == '&' && FactorAt(s, p + 2, m, r, d) && Blank(s, m, q)
    ensures TermAt(s, lo, q, And(l, r), d)
  {
    assert PaddedAt(s, p + 2, q, r, d);
  }

  lemma {:induction false} TermLoopSound(s: string, lo: nat, p: nat, acc: Tree, depth: nat, known: int -> bool, d: nat)
    requires lo < p <= |s| && !IsSpace(At(s, p))
    requires depth <= d ==> TermAt(s, lo, p, acc, d) && AllKnown(acc, known)
    ensures var r := TermLoop(s, p, acc, depth, known);
            r.Ok? && r.depth <= d ==> TermAt(s, lo, r.next, r.tree, d) && AllKnown(r.tree, known)
    ensures var r := TermLoop(s, p, acc, depth, known); r.Ok? ==> !IsSpace(At(s, r.next))
    decreases |s| - p, 0
  {
    if At(s, p) == '&' && At(s, p + 1) == '&' {
      var f := ParseFactor(s, p + 2, known);
      FactorSound(s, p + 2, known, d);
      if f.Ok? {
        var q := Skip(s, f.next);
        SkipStops(s, f.next);
        if Max(depth, f.depth) <= d { TermGrows(s, lo, p, f.next, q, acc, f.tree, d); }
        TermLoopSound(s, lo, q, And(acc, f.tree), Max(depth, f.depth), known, d);
      }
    }
  }

  lemma {:induction false} ExprSound(s: string, p: nat, known: int -> bool, d: nat)
    requires p <= |s|
    ensures var r := ParseExpr(s, p, known);
            r.Ok? && r.depth <= d ==> ExprAt(s, p, r.next, r.tree, d) && AllKnown(r.tree, known)
    decreases |s| - p, 2
  {
    var t := ParseTerm(s, p, known);
    TermSound(s, p, known, d);
    if t.Ok? { ExprLoopSound(s, p, t.next, t.tree, t.depth, known, d); }
  }

  lemma {:induction false} ExprLoopSound(s: string, lo: nat, p: nat, acc: Tree, depth: nat, known: int -> bool, d: nat)
    requires lo < p <= |s|
    requires depth <= d ==> ExprAt(s, lo, p, acc, d) && AllKnown(acc, known)
    ensures var r := ExprLoop(s, p, acc, depth, known);
            r.Ok? && r.depth <= d ==> ExprAt(s, lo, r.next, r.tree, d) && AllKnown(r.tree, known)
    decreases |s| - p, 0
  {
    if At(s, p) == '|' && At(s, p + 1) == '|' {
      var t := ParseTerm(s, p + 2, known);
      TermSound(s, p + 2, known, d);
      if t.Ok? {
        if Max(depth, t.depth) <= d { assert ExprAt(s, lo, t.next, Or(acc, t.tree), d); }
        ExprLoopSound(s, lo, t.next, Or(acc, t.tree), Max(depth, t.depth), known, d);
      }
    }
  }

  // -------------------------------------------------------------------
  // Completeness
  // -------------------------------------------------------------------

  lemma {:induction false} SkipTo(s: string, lo: nat, m: nat)
    requires Blank(s, lo, m) && !IsSpace(At(s, m))
    ensures Skip(s, lo) == m
    decreases m - lo
  {
    if lo < m { SkipTo(s, lo + 1, m); }
  }

  lemma {:induction false} SkipDigitsTo(s: string, lo: nat, m: nat)
    requires Digits(s, lo, m) && !IsDigit(At(s, m))
    ensures SkipDigits(s, lo) == m
    decreases m - lo
  {
    if lo < m { SkipDigitsTo(s, lo + 1, m); }
  }

  lemma {:induction false} NumberComplete(s: string, lo: nat, hi: nat, n: int)
    requires NumberAt(s, lo, hi, n) && !IsDigit(At(s, hi))
    ensures ParseNumber(s, lo) == Number(n, hi)
  {
    var from := if s[lo] == '-' || s[lo] == '+' then lo + 1 else lo;
    SkipDigitsTo(s, from, hi);
  }

  lemma {:induction false} CloseComplete(s: string, c: nat, d: nat, k: Kind, n: int, known: int -> bool)
    requires Blank(s, c, d) && d < |s| && s[d] == ')' && known(n)
    ensures ParseClose(s, c, k, n, known) == Ok(Leaf(k, n), d + 1, 0)
    ensures !IsDigit(s[c])
  {
    SkipTo(s, c, d);
    assert c == d || IsSpace(s[c]);
  }

  lemma {:induction false} NumberStart(s: string, b: nat, c: nat, n: int)
    requires NumberAt(s, b, c, n)
    ensures !IsSpace(At(s, b))
  {
  }

  lemma {:induction false} OpenComplete(s: string, lo: nat, a: nat, b: nat, c: nat, k: Kind, n: int, known: int -> bool)
    requires Blank(s, lo, a) && a < |s| && s[a] == '(' && Blank(s, a + 1, b) && !IsSpace(At(s, b)) && c <= |s|
    requires ParseNumber(s, b) == Number(n, c)
    ensures ParseArgument(s, lo, k, known) == ParseClose(s, c, k, n, known)
  {
    SkipTo(s, lo, a);
    SkipTo(s, a + 1, b);
  }

  lemma {:induction false} ArgumentComplete(s: string, lo: nat, hi: nat, k: Kind, n: int, known: int -> bool)
    requires lo <= |s| && ArgumentAt(s, lo, hi, n) && known(n)
    ensures ParseArgument(s, lo, k, known) == Ok(Leaf(k, n), hi, 0)
  {
    var a: nat, b: nat, c: nat, d: nat :| Parenthesised(s, lo, a, b, c, d, hi, n);
    CloseComplete(s, c, d, k, n, known);
    NumberComplete(s, b, c, n);
    NumberStart(s, b, c, n);
    OpenComplete(s, lo, a, b, c, k, n, known);
  }

  lemma {:induction false} CallComplete(s: string, lo: nat, hi: nat, t: Tree, known: int -> bool)
    requires lo <= |s| && CallAt(s, lo, hi, t) && AllKnown(t, known)
    ensures lo < |s| && !IsSpace(s[lo]) && s[lo] !in {'!', '('}
    ensures ParseCall(s, lo, known) == Ok(t, hi, 0)
  {
    ArgumentComplete(s, lo + WordLength(t.kind), hi, t.kind, t.job, known);
  }

  /** What parse_factor does once it has skipped blanks. */
  lemma {:induction false} FactorByCase(s: string, lo: nat, m: nat, known: int -> bool)
    requires Blank(s, lo, m) && m < |s| && !IsSpace(s[m])
    ensures var r := ParseFactor(s, lo, known);
            if s[m] == '!' then
              var f := ParseFactor(s, m + 1, known);
              f.Ok? ==> r == Ok(Not(f.tree), f.next, f.depth)
            else if s[m] == '(' then
              var e := ParseExpr(s, m + 1, known);
              e.Ok? && At(s, e.next) == ')' ==> r == Ok(e.tree, e.next + 1, e.depth + 1)
            else r == ParseCall(s, m, known)
  {
    SkipTo(s, lo, m);
  }

  /** The parser reads t, stops at hi, and met at most d nested groups. */
  ghost predicate Reads(r: Parsed, t: Tree, hi: nat, d: nat) {
    r.Ok? && r.tree == t && r.next == hi && r.depth <= d
  }

  /** The parser reads a factor of the grammar and stops right behind it. */
  lemma {:induction false} FactorComplete(s: string, lo: nat, hi: nat, t: Tree, known: int -> bool, d: nat)
    requires FactorAt(s, lo, hi, t, d) && AllKnown(t, known)
    ensures Reads(ParseFactor(s, lo, known), t, hi, d)
    decreases hi - lo, 1
  {
    var m: nat :| Blank(s, lo, m) && m < hi && FactorHere(s, lo, m, hi, t, d);
    if CallAt(s, m, hi, t) {
      CallComplete(s, m, hi, t, known);
    } else if s[m] == '!' {
      FactorComplete(s, m + 1, hi, t.arg, known, d);
    } else {
      ExprComplete(s, m + 1, hi - 1, t, known, d - 1);
    }
    FactorByCase(s, lo, m, known);
  }

  lemma {:induction false} PaddedComplete(s: string, lo: nat, hi: nat, t: Tree, known: int -> bool, d: nat)
    requires PaddedAt(s, lo, hi, t, d) && AllKnown(t, known) && !IsSpace(At(s, hi))
    ensures var f := ParseFactor(s, lo, known);
            f.Ok? && f.tree == t && Skip(s, f.next) == hi && f.depth <= d
    decreases hi - lo, 2
  {
    var m :| lo <= m <= hi && FactorAt(s, lo, m, t, d) && Blank(s, m, hi);
    FactorComplete(s, lo, m, t, known, d);
    SkipTo(s, m, hi);
  }

  ghost predicate Twice(s: string, p: nat, c: char) {
    At(s, p) == c && At(s, p + 1) == c
  }

  /** Reading from lo, the loop of parse_term comes by position hi with t. */
  ghost predicate TermPasses(s: string, lo: nat, hi: nat, t: Tree, known: int -> bool, d: nat)
    requires lo <= |s| && hi <= |s|
  {
    exists b: nat :: b <= d && ParseTerm(s, lo, known) == TermLoop(s, hi, t, b, known)
  }

  lemma {:induction false} TermStarts(s: string, lo: nat, hi: nat, t: Tree, known: int -> bool, d: nat)
    requires lo <= hi <= |s|
    requires var f := ParseFactor(s, lo, known); f.Ok? && f.tree == t && Skip(s, f.next) == hi && f.depth <= d
    ensures TermPasses(s, lo, hi, t, known, d)
  {
    assert ParseTerm(s, lo, known) == TermLoop(s, hi, t, ParseFactor(s, lo, known).depth, known);
  }

  lemma {:induction false} TermContinues(s: string, lo: nat, m: nat, hi: nat, l: Tree, r: Tree, known: int -> bool, d: nat)
    requires lo <= m && m + 2 <= hi <= |s| && Twice(s, m, '&') && TermPasses(s, lo, m, l, known, d)
    requires var f := ParseFactor(s, m + 2, known); f.Ok? && f.tree == r && Skip(s, f.next) == hi && f.depth <= d
    ensures TermPasses(s, lo, hi, And(l, r), known, d)
  {
    var b: nat :| b <= d && ParseTerm(s, lo, known) == TermLoop(s, m, l, b, known);
    TermLoopStep(s, m, hi, l, r, b, known);
  }

  lemma {:induction false} TermLoopStep(s: string, m: nat, hi: nat, l: Tree, r: Tree, b: nat, known: int -> bool)
    requires m + 2 <= hi <= |s| && Twice(s, m, '&')
    requires var f := ParseFactor(s, m + 2, known); f.Ok? && f.tree == r && Skip(s, f.next) == hi
    ensures TermLoop(s, m, l, b, known) == TermLoop(s, hi, And(l, r), Max(b, ParseFactor(s, m + 2, known).depth), known)
  {
  }

  lemma {:induction false} TermReached(s: string, lo: nat, hi: nat, t: Tree, known: int -> bool, d: nat)
    requires TermAt(s, lo, hi, t, d) && lo <= hi <= |s| && AllKnown(t, known) && !IsSpace(At(s, hi))
    ensures TermPasses(s, lo, hi, t, known, d)
    decreases hi - lo, 3
  {
    if PaddedAt(s, lo, hi, t, d) {
      PaddedComplete(s, lo, hi, t, known, d);
      TermStarts(s, lo, hi, t, known, d);
    } else {
      var m :| lo <= m && m + 2 <= hi <= |s| && s[m] == '&' && s[m + 1] == '&'
               && TermAt(s, lo, m, t.l, d) && PaddedAt(s, m + 2, hi, t.r, d);
      TermReached(s, lo, m, t.l, known, d);
      PaddedComplete(s, m + 2, hi, t.r, known, d);
      TermContinues(s, lo, m, hi, t.l, t.r, known, d);
    }
  }

  lemma {:induction false} TermComplete(s: string, lo: nat, hi: nat, t: Tree, known: int -> bool, d: nat)
    requires TermAt(s, lo, hi, t, d) && lo <= hi <= |s| && AllKnown(t, known)
    requires !IsSpace(At(s, hi)) && !Twice(s, hi, '&')
    ensures Reads(ParseTerm(s, lo, known), t, hi, d)
    decreases hi - lo, 4
  {
    TermReached(s, lo, hi, t, known, d);
  }

  ghost predicate ExprPasses(s: string, lo: nat, hi: nat, t: Tree, known: int -> bool, d: nat)
    requires lo <= |s| && hi <= |s|
  {
    exists b: nat :: b <= d && ParseExpr(s, lo, known) == ExprLoop(s, hi, t, b, known)
  }

  lemma {:induction false} ExprStarts(s: string, lo: nat, hi: nat, t: Tree, known: int -> bool, d: nat)
    requires lo <= hi <= |s| && Reads(ParseTerm(s, lo, known), t, hi, d)
    ensures ExprPasses(s, lo, hi, t, known, d)
  {
    assert ParseExpr(s, lo, known) == ExprLoop(s, hi, t, ParseTerm(s, lo, known).depth, known);
  }

  lemma {:induction false} ExprContinues(s: string, lo: nat, m: nat, hi: nat, l: Tree, r: Tree, known: int -> bool, d: nat)
    requires lo <= m && m + 2 <= hi <= |s| && Twice(s, m, '|') && ExprPasses(s, lo, m, l, known, d)
    requires Reads(ParseTerm(s, m + 2, known), r, hi, d)
    ensures ExprPasses(s, lo, hi, Or(l, r), known, d)
  {
    var b: nat :| b <= d && ParseExpr(s, lo, known) == ExprLoop(s, m, l, b, known);
    var u := ParseTerm(s, m + 2, known);
    assert ExprLoop(s, m, l, b, known) == ExprLoop(s, hi, Or(l, r), Max(b, u.depth), known);
  }

  lemma {:induction false} ExprReached(s: string, lo: nat, hi: nat, t: Tree, known: int -> bool, d: nat)
    requires ExprAt(s, lo, hi, t, d) && lo <= hi <= |s| && AllKnown(t, known)
    requires !IsSpace(At(s, hi)) && !Twice(s, hi, '&')
    ensures ExprPasses(s, lo, hi, t, known, d)
    decreases hi - lo, 5
  {
    if TermAt(s, lo, hi, t, d) {
      TermComplete(s, lo, hi, t, known, d);
      ExprStarts(s, lo, hi, t, known, d);
    } else {
      var m :| lo <= m && m + 2 <= hi <= |s| && s[m] == '|' && s[m + 1] == '|'
               && ExprAt(s, lo, m, t.l, d) && TermAt(s, m + 2, hi, t.r, d);
      ExprReached(s, lo, m, t.l, known, d);
      TermComplete(s, m + 2, hi, t.r, known, d);
      ExprContinues(s, lo, m, hi, t.l, t.r, known, d);
    }
  }

  lemma {:induction false} ExprComplete(s: string, lo: nat, hi: nat, t: Tree, known: int -> bool, d: nat)
    requires ExprAt(s, lo, hi, t, d) && lo <= hi <= |s| && AllKnown(t, known)
    requires !IsSpace(At(s, hi)) && !Twice(s, hi, '&') && !Twice(s, hi, '|')
    ensures Reads(ParseExpr(s, lo, known), t, hi, d)
    decreases hi - lo, 6
  {
    ExprReached(s, lo, hi, t, known, d);
  }

  // -------------------------------------------------------------------
  // The language of dep_parse
  // -------------------------------------------------------------------

  /** dep_parse succeeds exactly on the texts of the grammar whose jobs are all
      known, with the one condition the text denotes, and its recursion goes
      exactly as deep as the text nests groups. */
  lemma {:induction false} ParseExact(s: string, known: int -> bool, t: Tree, d: nat)
    ensures Reads(Parse(s, known), t, |s|, d) <==> Denotes(s, t, d) && AllKnown(t, known)
  {
    if Denotes(s, t, d) && AllKnown(t, known) {
      ExprComplete(s, 0, |s|, t, known, d);
    }
    ExprSound(s, 0, known, d);
  }

  /** No text denotes two conditions: `!` binds over `&&` over `||`, and both
      operators group to the left. */
  lemma {:induction false} Unambiguous(s: string, t: Tree, u: Tree, d: nat, e: nat)
    requires Denotes(s, t, d) && Denotes(s, u, e)
    ensures t == u
  {
    AnythingKnown(t);
    AnythingKnown(u);
    ParseExact(s, AnyJob, t, d);
    ParseExact(s, AnyJob, u, e);
  }

  function AnyJob(n: int): bool { true }

  lemma {:induction false} AnythingKnown(t: Tree)
    ensures AllKnown(t, AnyJob)
  {
    match t
    case Leaf(_, _) =>
    case Not(a) => AnythingKnown(a);
    case And(l, r) =>
      AnythingKnown(l);
      AnythingKnown(r);
    case Or(l, r) =>
      AnythingKnown(l);
      AnythingKnown(r);
  }

  /** Replay parses the logged text without resolving job ids, and gets the
      same condition. */
  lemma {:induction false} ResolvingOnlyFilters(s: string, known: int -> bool)
    requires Parse(s, known).Ok?
    ensures Parse(s, AnyJob).Ok? && Parse(s, AnyJob).tree == Parse(s, known).tree
  {
    var r := Parse(s, known);
    ParseExact(s, known, r.tree, r.depth);
    AnythingKnown(r.tree);
    ParseExact(s, AnyJob, r.tree, r.depth);
  }

  // -------------------------------------------------------------------
  // Printing
  // -------------------------------------------------------------------

  function ShowNat(n: nat): (s: string)
    ensures |s| > 0
    decreases n
  {
    if n < 10 then [('0' as int + n) as char] else ShowNat(n / 10) + [('0' as int + n % 10) as char]
  }

  function ShowInt(n: int): string {
    if n < 0 then "-" + ShowNat(-n) else ShowNat(n)
  }

  function Keyword(k: Kind): string {
    match k case Done => "done" case Exit => "exit" case Ended => "ended"
  }

  function ShowLeaf(k: Kind, n: int): string {
    Keyword(k) + "(" + ShowInt(n) + ")"
  }

  /** Parentheses only where the grammar would read something else. */
  function ShowExpr(t: Tree): string
    decreases t, 3
  {
    if t.Or? then ShowPair(t) else ShowTerm(t)
  }

  function ShowTerm(t: Tree): string
    decreases t, 2
  {
    if t.And? then ShowPair(t) else ShowFactor(t)
  }

  function ShowFactor(t: Tree): string
    decreases t, 1
  {
    match t
    case Leaf(k, n) => ShowLeaf(k, n)
    case Not(a) => "!" + ShowFactor(a)
    case And(_, _) => "(" + ShowPair(t) + ")"
    case Or(_, _) => "(" + ShowPair(t) + ")"
  }

  function ShowPair(t: Tree): string
    requires t.And? || t.Or?
    decreases t, 0
  {
    if t.And? then ShowTerm(t.l) + "&&" + ShowFactor(t.r) else ShowExpr(t.l) + "||" + ShowTerm(t.r)
  }

  /** How deep the printed form nests groups, at each level of the grammar. */
  function ExprGroups(t: Tree): nat
    decreases t, 3
  {
    if t.Or? then PairGroups(t) else TermGroups(t)
  }

  function TermGroups(t: Tree): nat
    decreases t, 2
  {
    if t.And? then PairGroups(t) else FactorGroups(t)
  }

  function FactorGroups(t: Tree): nat
    decreases t, 1
  {
    match t
    case Leaf(_, _) => 0
    case Not(a) => FactorGroups(a)
    case And(_, _) => PairGroups(t) + 1
    case Or(_, _) => PairGroups(t) + 1
  }

  function PairGroups(t: Tree): nat
    requires t.And? || t.Or?
    decreases t, 0
  {
    if t.And? then Max(TermGroups(t.l), FactorGroups(t.r)) else Max(ExprGroups(t.l), TermGroups(t.r))
  }

  predicate Int64(t: Tree) {
    match t
    case Leaf(_, n) => -INT64_MAX - 1 <= n <= INT64_MAX
    case Not(a) => Int64(a)
    case And(l, r) => Int64(l) && Int64(r)
    case Or(l, r) => Int64(l) && Int64(r)
  }

  lemma {:induction false} ShowNatAt(s: string, lo: nat, n: nat)
    requires lo + |ShowNat(n)| <= |s| && s[lo..lo + |ShowNat(n)|] == ShowNat(n)
    ensures Digits(s, lo, lo + |ShowNat(n)|) && Value(s, lo, lo + |ShowNat(n)|) == n
  {
    var w := ShowNat(n);
    var hi := lo + |w|;
    assert forall i :: lo <= i < hi ==> s[i] == w[i - lo] by {
      forall i | lo <= i < hi ensures s[i] == w[i - lo] { assert s[lo..hi][i - lo] == s[i]; }
    }
    if n >= 10 {
      var v := ShowNat(n / 10);
      assert s[lo..lo + |v|] == v by { assert w[..|v|] == v; assert s[lo..lo + |v|] == s[lo..hi][..|v|]; }
      ShowNatAt(s, lo, n / 10);
    } else {
      assert Value(s, lo, lo) == 0;
    }
  }

  lemma {:induction false} ShowIntAt(s: string, lo: nat, n: int)
    requires -INT64_MAX - 1 <= n <= INT64_MAX
    requires lo + |ShowInt(n)| <= |s| && s[lo..lo + |ShowInt(n)|] == ShowInt(n)
    ensures NumberAt(s, lo, lo + |ShowInt(n)|, n)
  {
    var w := ShowInt(n);
    var hi := lo + |w|;
    assert s[lo] == s[lo..hi][0];
    if n < 0 {
      assert s[lo + 1..hi] == s[lo..hi][1..];
      ShowNatAt(s, lo + 1, -n);
    } else {
      ShowNatAt(s, lo, n);
    }
  }

  lemma {:induction false} Split(s: string, lo: nat, hi: nat, a: string, b: string)
    requires lo <= hi <= |s| && s[lo..hi] == a + b
    ensures lo + |a| + |b| == hi && s[lo..lo + |a|] == a && s[lo + |a|..hi] == b
  {
    assert s[lo..lo + |a|] == s[lo..hi][..|a|];
    assert s[lo + |a|..hi] == s[lo..hi][|a|..];
  }

  lemma {:induction false} KeywordAt(s: string, lo: nat, k: Kind)
    requires lo + |Keyword(k)| <= |s| && s[lo..lo + |Keyword(k)|] == Keyword(k)
    ensures WordAt(s, lo, k) && WordLength(k) == |Keyword(k)|
  {
    var w := Keyword(k);
    var x := s[lo..lo + |w|];
    assert x[0] == s[lo] && x[1] == s[lo + 1] && x[2] == s[lo + 2] && x[3] == s[lo + 3];
    assert k == Ended ==> x[4] == s[lo + 4];
  }

  lemma {:induction false} ShowArgumentAt(s: string, lo: nat, hi: nat, n: int)
    requires lo <= hi <= |s| && -INT64_MAX - 1 <= n <= INT64_MAX && s[lo..hi] == "(" + ShowInt(n) + ")"
    ensures ArgumentAt(s, lo, hi, n)
  {
    GroupAt(s, lo, hi, ShowInt(n));
    ShowIntAt(s, lo + 1, n);
    assert Parenthesised(s, lo, lo, lo + 1, hi - 1, hi - 1, hi, n);
  }

  lemma {:induction false} ShowLeafAt(s: string, lo: nat, hi: nat, t: Tree)
    requires lo <= hi <= |s| && t.Leaf? && Int64(t) && s[lo..hi] == ShowLeaf(t.kind, t.job)
    ensures CallAt(s, lo, hi, t)
  {
    var w, arg := Keyword(t.kind), "(" + ShowInt(t.job) + ")";
    assert ShowLeaf(t.kind, t.job) == w + arg;
    Split(s, lo, hi, w, arg);
    KeywordAt(s, lo, t.kind);
    ShowArgumentAt(s, lo + |w|, hi, t.job);
  }

  lemma {:induction false} FactorPlain(s: string, lo: nat, hi: nat, t: Tree, d: nat)
    requires lo < hi <= |s| && FactorHere(s, lo, lo, hi, t, d)
    ensures FactorAt(s, lo, hi, t, d)
  {
    assert Blank(s, lo, lo);
  }

  lemma {:induction false} GroupAt(s: string, lo: nat, hi: nat, inner: string)
    requires lo <= hi <= |s| && s[lo..hi] == "(" + inner + ")"
    ensures lo + 1 <= hi - 1 && s[lo] == '(' && s[hi - 1] == ')' && s[lo + 1..hi - 1] == inner
  {
    Split(s, lo, hi, "(" + inner, ")");
    Split(s, lo, hi - 1, "(", inner);
    assert s[lo..lo + 1][0] == '(' && s[hi - 1..hi][0] == ')';
  }

  lemma {:induction false} ShowLeafFactor(s: string, lo: nat, hi: nat, t: Tree, d: nat)
    requires lo <= hi <= |s| && t.Leaf? && Int64(t) && s[lo..hi] == ShowFactor(t)
    ensures FactorAt(s, lo, hi, t, d)
  {
    ShowLeafAt(s, lo, hi, t);
    FactorPlain(s, lo, hi, t, d);
  }

  lemma {:induction false} ShowNotFactor(s: string, lo: nat, hi: nat, t: Tree, d: nat)
    requires lo < hi <= |s| && t.Not? && s[lo] == '!' && lo + 1 < hi && FactorAt(s, lo + 1, hi, t.arg, d)
    ensures FactorAt(s, lo, hi, t, d)
  {
    FactorPlain(s, lo, hi, t, d);
  }

  lemma {:induction false} ShowGroupFactor(s: string, lo: nat, hi: nat, t: Tree, d: nat)
    requires lo + 1 <= hi - 1 && hi <= |s| && s[lo] == '(' && s[hi - 1] == ')'
    requires d > 0 && ExprAt(s, lo + 1, hi - 1, t, d - 1)
    ensures FactorAt(s, lo, hi, t, d)
  {
    FactorPlain(s, lo, hi, t, d);
  }

  lemma {:induction false} ShowFactorAt(s: string, lo: nat, hi: nat, t: Tree, d: nat)
    requires lo <= hi <= |s| && Int64(t) && s[lo..hi] == ShowFactor(t) && FactorGroups(t) <= d
    ensures FactorAt(s, lo, hi, t, d)
    decreases t, 2
  {
    match t {
      case Leaf(_, _) => ShowLeafFactor(s, lo, hi, t, d);
      case Not(_) => ShowNotAt(s, lo, hi, t, d);
      case And(_, _) => ShowGroupAt(s, lo, hi, t, d);
      case Or(_, _) => ShowGroupAt(s, lo, hi, t, d);
    }
  }

  lemma {:induction false} ShowNotAt(s: string, lo: nat, hi: nat, t: Tree, d: nat)
    requires lo <= hi <= |s| && t.Not? && Int64(t) && s[lo..hi] == ShowFactor(t) && FactorGroups(t) <= d
    ensures FactorAt(s, lo, hi, t, d)
    decreases t, 1
  {
    Split(s, lo, hi, "!", ShowFactor(t.arg));
    assert s[lo..lo + 1][0] == '!';
    ShowFactorAt(s, lo + 1, hi, t.arg, d);
    ShowNotFactor(s, lo, hi, t, d);
  }

  lemma {:induction false} ShowGroupAt(s: string, lo: nat, hi: nat, t: Tree, d: nat)
    requires lo <= hi <= |s| && (t.And? || t.Or?) && Int64(t) && s[lo..hi] == ShowFactor(t) && FactorGroups(t) <= d
    ensures FactorAt(s, lo, hi, t, d)
    decreases t, 1
  {
    GroupAt(s, lo, hi, ShowPair(t));
    hide FactorAt, TermAt, ExprAt, ShowPair;
    if t.And? { ShowAndAt(s, lo + 1, hi - 1, t, d - 1); } else { ShowOrAt(s, lo + 1, hi - 1, t, d - 1); }
    ShowGroupFactor(s, lo, hi, t, d);
  }

  lemma {:induction false} ShowAndAt(s: string, lo: nat, hi: nat, t: Tree, d: nat)
    requires lo <= hi <= |s| && Int64(t) && t.And? && s[lo..hi] == ShowPair(t) && PairGroups(t) <= d
    ensures TermAt(s, lo, hi, t, d)
    decreases t, 0
  {
    Split(s, lo, hi, ShowTerm(t.l) + "&&", ShowFactor(t.r));
    var m := lo + |ShowTerm(t.l)|;
    Split(s, lo, m + 2, ShowTerm(t.l), "&&");
    assert s[m..m + 2][0] == '&' && s[m..m + 2][1] == '&';
    ShowTermAt(s, lo, m, t.l, d);
    ShowFactorAt(s, m + 2, hi, t.r, d);
    assert FactorAt(s, m + 2, hi, t.r, d) && Blank(s, hi, hi);
    assert PaddedAt(s, m + 2, hi, t.r, d);
  }

  lemma {:induction false} ShowOrAt(s: string, lo: nat, hi: nat, t: Tree, d: nat)
    requires lo <= hi <= |s| && Int64(t) && t.Or? && s[lo..hi] == ShowPair(t) && PairGroups(t) <= d
    ensures ExprAt(s, lo, hi, t, d)
    decreases t, 0
  {
    Split(s, lo, hi, ShowExpr(t.l) + "||", ShowTerm(t.r));
    var m := lo + |ShowExpr(t.l)|;
    Split(s, lo, m + 2, ShowExpr(t.l), "||");
    assert s[m..m + 2][0] == '|' && s[m..m + 2][1] == '|';
    ShowExprAt(s, lo, m, t.l, d);
    ShowTermAt(s, m + 2, hi, t.r, d);
  }

  lemma {:induction false} ShowTermAt(s: string, lo: nat, hi: nat, t: Tree, d: nat)
    requires lo <= hi <= |s| && Int64(t) && s[lo..hi] == ShowTerm(t) && TermGroups(t) <= d
    ensures TermAt(s, lo, hi, t, d)
    decreases t, 3
  {
    if t.And? {
      ShowAndAt(s, lo, hi, t, d);
    } else {
      ShowFactorAt(s, lo, hi, t, d);
      assert FactorAt(s, lo, hi, t, d) && Blank(s, hi, hi);
      assert PaddedAt(s, lo, hi, t, d);
    }
  }

  lemma {:induction false} ShowExprAt(s: string, lo: nat, hi: nat, t: Tree, d: nat)
    requires lo <= hi <= |s| && Int64(t) && s[lo..hi] == ShowExpr(t) && ExprGroups(t) <= d
    ensures ExprAt(s, lo, hi, t, d)
    decreases t, 4
  {
    if t.Or? { ShowOrAt(s, lo, hi, t, d); } else { ShowTermAt(s, lo, hi, t, d); }
  }

  /** Every condition over 64-bit ids, printed with no more parentheses than
      needed, is read back as itself. */
  lemma {:induction false} PrintParse(t: Tree, known: int -> bool)
    requires Int64(t) && AllKnown(t, known)
    ensures Reads(Parse(ShowExpr(t), known), t, |ShowExpr(t)|, ExprGroups(t))
  {
    var s := ShowExpr(t);
    assert s[0..|s|] == s;
    ShowExprAt(s, 0, |s|, t, ExprGroups(t));
    ParseExact(s, known, t, ExprGroups(t));
  }
}
