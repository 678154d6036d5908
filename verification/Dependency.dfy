/**
 Dependency conditions: the grammar of `done(1) && !exit(2) || ended(3)`, the
 postfix code it compiles to, and what the code means.
 */
module Dependency {

  datatype Kind = Done | Exit | Ended

  /** One node of the compiled list: DEP_DONE/EXIT/ENDED carry a job id. */
  datatype Instr = Call(kind: Kind, job: int) | AndOp | OrOp | NotOp

  datatype Tree =
    | Leaf(kind: Kind, job: int)
    | Not(arg: Tree)
    | And(l: Tree, r: Tree)
    | Or(l: Tree, r: Tree)

  function Postfix(t: Tree): seq<Instr> {
    match t
    case Leaf(k, j) => [Call(k, j)]
    case Not(a) => Postfix(a) + [NotOp]
    case And(l, r) => Postfix(l) + Postfix(r) + [AndOp]
    case Or(l, r) => Postfix(l) + Postfix(r) + [OrOp]
  }

  /** The Boolean meaning of a condition. */
  function Holds(t: Tree, check: (Kind, int) -> bool): bool {
    match t
    case Leaf(k, j) => check(k, j)
    case Not(a) => !Holds(a, check)
    case And(l, r) => Holds(l, check) && Holds(r, check)
    case Or(l, r) => Holds(l, check) || Holds(r, check)
  }

  predicate AllKnown(t: Tree, known: int -> bool) {
    match t
    case Leaf(_, j) => known(j)
    case Not(a) => AllKnown(a, known)
    case And(l, r) => AllKnown(l, known) && AllKnown(r, known)
    case Or(l, r) => AllKnown(l, known) && AllKnown(r, known)
  }

  // -------------------------------------------------------------------
  // The grammar, on the range lo..hi of a text
  // -------------------------------------------------------------------

  /** isspace in the C locale: tab, newline, vertical tab, form feed, CR. */
  predicate IsSpace(c: char) {
    c == ' ' || 9 as char <= c <= 13 as char
  }

  predicate IsDigit(c: char) { '0' <= c <= '9' }

  predicate Blank(s: string, lo: nat, hi: nat) {
    lo <= hi <= |s| && forall i :: lo <= i < hi ==> IsSpace(s[i])
  }

  predicate Digits(s: string, lo: nat, hi: nat) {
    lo <= hi <= |s| && forall i :: lo <= i < hi ==> IsDigit(s[i])
  }

  function DigitValue(c: char): nat {
    if IsDigit(c) then (c - '0') as nat else 0
  }

  function Value(s: string, lo: nat, hi: nat): nat
    requires lo <= hi <= |s|
    decreases hi - lo
  {
    if lo == hi then 0 else 10 * Value(s, lo, hi - 1) + DigitValue(s[hi - 1])
  }

  const INT64_MAX := 0x7FFF_FFFF_FFFF_FFFF

  /** strtoll saturates at the ends of a 64-bit integer. */
  function Saturate(n: int): int {
    if n > INT64_MAX then INT64_MAX else if n < -INT64_MAX - 1 then -INT64_MAX - 1 else n
  }

  function Signed(negative: bool, n: nat): int {
    if negative then -(n as int) else n
  }

  /** NUMBER := ('+'|'-')? digit+ */
  predicate NumberAt(s: string, lo: nat, hi: nat, n: int) {
    && lo < hi <= |s|
    && var signed := s[lo] == '-' || s[lo] == '+';
    && var from := if signed then lo + 1 else lo;
    && from < hi && Digits(s, from, hi)
    && n == Saturate(Signed(s[lo] == '-', Value(s, from, hi)))
  }

  function WordLength(k: Kind): nat {
    if k == Ended then 5 else 4
  }

  /** The keyword of k stands at lo. */
  predicate WordAt(s: string, lo: nat, k: Kind) {
    && lo + WordLength(k) <= |s|
    && match k
       case Done => s[lo] == 'd' && s[lo + 1] == 'o' && s[lo + 2] == 'n' && s[lo + 3] == 'e'
       case Exit => s[lo] == 'e' && s[lo + 1] == 'x' && s[lo + 2] == 'i' && s[lo + 3] == 't'
       case Ended => s[lo] == 'e' && s[lo + 1] == 'n' && s[lo + 2] == 'd' && s[lo + 3] == 'e' && s[lo + 4] == 'd'
  }

  /** What follows the keyword: '(' NUMBER ')' with blanks in between */
  ghost predicate ArgumentAt(s: string, lo: nat, hi: nat, n: int) {
    exists a, b, c, d :: Parenthesised(s, lo, a, b, c, d, hi, n)
  }

  predicate Parenthesised(s: string, lo: nat, a: nat, b: nat, c: nat, d: nat, hi: nat, n: int) {
    && lo <= a < b <= c <= d < hi <= |s| && d + 1 == hi
    && Blank(s, lo, a) && s[a] == '(' && Blank(s, a + 1, b)
    && NumberAt(s, b, c, n) && Blank(s, c, d) && s[d] == ')'
  }

  /** funccall := ('done'|'exit'|'ended') '(' NUMBER ')' */
  ghost predicate CallAt(s: string, lo: nat, hi: nat, t: Tree) {
    && t.Leaf? && hi <= |s| && WordAt(s, lo, t.kind)
    && ArgumentAt(s, lo + WordLength(t.kind), hi, t.job)
  }

  // In the predicates below, grouping parentheses nest at most d deep.

  /** factor := '!' factor | '(' expr ')' | funccall, after blanks */
  ghost predicate FactorAt(s: string, lo: nat, hi: nat, t: Tree, d: nat)
    decreases hi - lo, 1
  {
    lo < hi <= |s| && exists m: nat :: Blank(s, lo, m) && m < hi && FactorHere(s, lo, m, hi, t, d)
  }

  ghost predicate FactorHere(s: string, lo: nat, m: nat, hi: nat, t: Tree, d: nat)
    requires lo <= m < hi <= |s|
    decreases hi - lo, 0
  {
    || (s[m] == '!' && t.Not? && m + 1 < hi && FactorAt(s, m + 1, hi, t.arg, d))
    || (s[m] == '(' && m + 1 < hi && s[hi - 1] == ')' && d > 0 && ExprAt(s, m + 1, hi - 1, t, d - 1))
    || CallAt(s, m, hi, t)
  }

  /** a factor and the blanks after it */
  ghost predicate PaddedAt(s: string, lo: nat, hi: nat, t: Tree, d: nat)
    decreases hi - lo, 2
  {
    lo <= hi <= |s| && exists m :: lo <= m <= hi && FactorAt(s, lo, m, t, d) && Blank(s, m, hi)
  }

  /** term := factor ('&&' factor)*, to the left */
  ghost predicate TermAt(s: string, lo: nat, hi: nat, t: Tree, d: nat)
    decreases hi - lo, 3
  {
    || PaddedAt(s, lo, hi, t, d)
    || (t.And? && exists m :: lo <= m && m + 2 <= hi <= |s| && s[m] == '&' && s[m + 1] == '&'
                              && TermAt(s, lo, m, t.l, d) && PaddedAt(s, m + 2, hi, t.r, d))
  }

  /** expr := term ('||' term)*, to the left */
  ghost predicate ExprAt(s: string, lo: nat, hi: nat, t: Tree, d: nat)
    decreases hi - lo, 4
  {
    || TermAt(s, lo, hi, t, d)
    || (t.Or? && exists m :: lo <= m && m + 2 <= hi <= |s| && s[m] == '|' && s[m + 1] == '|'
                             && ExprAt(s, lo, m, t.l, d) && TermAt(s, m + 2, hi, t.r, d))
  }

  /** The text as a whole denotes the condition t. */
  ghost predicate Denotes(s: string, t: Tree, d: nat) {
    ExprAt(s, 0, |s|, t, d)
  }

  // -------------------------------------------------------------------
  // The recursive-descent parser, as a function
  // -------------------------------------------------------------------

  datatype Status = Syntax | UnknownJob

  /** depth: how deep grouping parentheses nest in what was read. */
  datatype Parsed = Ok(tree: Tree, next: nat, depth: nat) | Bad(status: Status)

  datatype ParsedNumber = Number(value: int, next: nat) | NoNumber

  /** The character under the cursor; a C string ends in NUL. */
  function At(s: string, p: nat): char {
    if p < |s| then s[p] else 0 as char
  }

  function Skip(s: string, p: nat): (q: nat)
    requires p <= |s|
    ensures p <= q <= |s|
    decreases |s| - p
  {
    if p < |s| && IsSpace(s[p]) then Skip(s, p + 1) else p
  }

  function SkipDigits(s: string, p: nat): (q: nat)
    requires p <= |s|
    ensures p <= q <= |s|
    decreases |s| - p
  {
    if p < |s| && IsDigit(s[p]) then SkipDigits(s, p + 1) else p
  }

  /** strtoll at a non-blank position; no digits leaves the cursor alone. */
  function ParseNumber(s: string, p: nat): (r: ParsedNumber)
    requires p <= |s|
    ensures r.Number? ==> p < r.next <= |s|
  {
    var signed := At(s, p) == '-' || At(s, p) == '+';
    var from := if signed then p + 1 else p;
    var to := SkipDigits(s, from);
    if from == to then NoNumber
    else Number(Saturate(Signed(At(s, p) == '-', Value(s, from, to))), to)
  }

  function ParseCall(s: string, p: nat, known: int -> bool): (r: Parsed)
    requires p <= |s|
    ensures r.Ok? ==> p < r.next <= |s| && r.depth == 0
  {
    if WordAt(s, p, Done) then ParseArgument(s, p + 4, Done, known)
    else if WordAt(s, p, Exit) then ParseArgument(s, p + 4, Exit, known)
    else if WordAt(s, p, Ended) then ParseArgument(s, p + 5, Ended, known)
    else Bad(Syntax)
  }

  /** '(' NUMBER ')' behind the keyword */
  function ParseArgument(s: string, p: nat, k: Kind, known: int -> bool): (r: Parsed)
    requires p <= |s|
    ensures r.Ok? ==> p < r.next <= |s| && r.depth == 0
  {
    var a := Skip(s, p);
    if At(s, a) != '(' then Bad(Syntax)
    else
      var num := ParseNumber(s, Skip(s, a + 1));
      if num.NoNumber? then Bad(Syntax) else ParseClose(s, num.next, k, num.value, known)
  }

  /** ')' behind the number; only then is the job looked up */
  function ParseClose(s: string, p: nat, k: Kind, n: int, known: int -> bool): (r: Parsed)
    requires p <= |s|
    ensures r.Ok? ==> p < r.next <= |s| && r.depth == 0
  {
    var d := Skip(s, p);
    if At(s, d) != ')' then Bad(Syntax)
    else if !known(n) then Bad(UnknownJob)
    else Ok(Leaf(k, n), d + 1, 0)
  }

  function ParseFactor(s: string, p: nat, known: int -> bool): (r: Parsed)
    requires p <= |s|
    ensures r.Ok? ==> p < r.next <= |s|
    decreases |s| - p, 0
  {
    var q := Skip(s, p);
    if At(s, q) == '!' then
      var f := ParseFactor(s, q + 1, known);
      if f.Bad? then f else f.(tree := Not(f.tree))
    else if At(s, q) == '(' then
      var e := ParseExpr(s, q + 1, known);
      if e.Bad? then e
      else if At(s, e.next) != ')' then Bad(Syntax)
      else Ok(e.tree, e.next + 1, e.depth + 1)
    else ParseCall(s, q, known)
  }

  function ParseTerm(s: string, p: nat, known: int -> bool): (r: Parsed)
    requires p <= |s|
    ensures r.Ok? ==> p < r.next <= |s|
    decreases |s| - p, 1
  {
    var f := ParseFactor(s, p, known);
    if f.Bad? then f else TermLoop(s, Skip(s, f.next), f.tree, f.depth, known)
  }

  function Max(a: nat, b: nat): nat { if a < b then b else a }

  function TermLoop(s: string, p: nat, acc: Tree, depth: nat, known: int -> bool): (r: Parsed)
    requires p <= |s|
    ensures r.Ok? ==> p <= r.next <= |s| && depth <= r.depth
    decreases |s| - p, 0
  {
    if At(s, p) == '&' && At(s, p + 1) == '&' then
      var f := ParseFactor(s, p + 2, known);
      if f.Bad? then f
      else TermLoop(s, Skip(s, f.next), And(acc, f.tree), Max(depth, f.depth), known)
    else Ok(acc, p, depth)
  }

  function ParseExpr(s: string, p: nat, known: int -> bool): (r: Parsed)
    requires p <= |s|
    ensures r.Ok? ==> p < r.next <= |s|
    decreases |s| - p, 2
  {
    var t := ParseTerm(s, p, known);
    if t.Bad? then t else ExprLoop(s, t.next, t.tree, t.depth, known)
  }

  function ExprLoop(s: string, p: nat, acc: Tree, depth: nat, known: int -> bool): (r: Parsed)
    requires p <= |s|
    ensures r.Ok? ==> p <= r.next <= |s| && depth <= r.depth
    decreases |s| - p, 0
  {
    if At(s, p) == '|' && At(s, p + 1) == '|' then
      var t := ParseTerm(s, p + 2, known);
      if t.Bad? then t
      else ExprLoop(s, t.next, Or(acc, t.tree), Max(depth, t.depth), known)
    else Ok(acc, p, depth)
  }

  /** dep_parse: the whole text must be read. */
  function Parse(s: string, known: int -> bool): Parsed {
    var e := ParseExpr(s, 0, known);
    if e.Ok? && e.next != |s| then Bad(Syntax) else e
  }
}
