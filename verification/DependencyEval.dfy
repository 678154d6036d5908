/** The compiler and the stack machine for dependency conditions. */
module DependencyEval {
  import opened Dependency
  import opened DependencyProofs

  // -------------------------------------------------------------------
  // dep_parse: one pass, emitting postfix code as it goes
  // -------------------------------------------------------------------

  datatype Error = NoError | Failed(status: Status)

  class Parser {
    const text: string
    const known: int -> bool
    var p: nat
    var deps: seq<Instr>
    var error: Error

    constructor (text: string, known: int -> bool)
      ensures this.text == text && this.known == known && p == 0 && deps == [] && error == NoError
    {
      this.text, this.known, this.p, this.deps, this.error := text, known, 0, [], NoError;
    }

    /** The parser has read r: cursor behind it, its code appended. */
    ghost predicate HasRead(r: Parsed, before: seq<Instr>)
      reads this
    {
      && p <= |text|
      && (if r.Ok? then error == NoError && p == r.next && deps == before + Postfix(r.tree)
          else error == Failed(r.status))
    }

    method SkipBlanks()
      requires p <= |text|
      modifies this`p
      ensures p == Skip(text, old(p))
    {
      while p < |text| && IsSpace(text[p])
        invariant p <= |text| && Skip(text, old(p)) == Skip(text, p)
      {
        p := p + 1;
      }
    }

    method Emit(i: Instr)
      modifies this`deps
      ensures deps == if error == NoError then old(deps) + [i] else old(deps)
    {
      if error == NoError { deps := deps + [i]; }
    }

    method ReadExpr()
      requires p <= |text| && error == NoError
      modifies this
      ensures HasRead(ParseExpr(text, old(p), known), old(deps)) && old(p) <= p
      decreases |text| - p, 2
    {
      ghost var from, before := p, deps;
      ReadTerm();
      ghost var t := ParseTerm(text, from, known);
      if error != NoError { return; }
      ghost var acc, depth := t.tree, t.depth;
      while error == NoError && At(text, p) == '|' && At(text, p + 1) == '|'
        invariant p <= |text| && from < p
        invariant error == NoError ==> deps == before + Postfix(acc)
                                       && ParseExpr(text, from, known) == ExprLoop(text, p, acc, depth, known)
        invariant error.Failed? ==> ParseExpr(text, from, known) == Bad(error.status)
        decreases |text| - p, error == NoError
      {
        ghost var u := ParseTerm(text, p + 2, known);
        ReadOrTerm();
        if u.Ok? {
          PairAppended(before, acc, u.tree);
          acc, depth := Or(acc, u.tree), Max(depth, u.depth);
        }
      }
    }

    /** The body of the loop of parse_expr. */
    method ReadOrTerm()
      requires p + 2 <= |text| && error == NoError
      modifies this
      ensures var u := ParseTerm(text, old(p) + 2, known);
              if u.Ok? then error == NoError && p == u.next && deps == old(deps) + Postfix(u.tree) + [OrOp]
              else error == Failed(u.status)
      ensures old(p) < p <= |text|
      decreases |text| - p, 1
    {
      p := p + 2;
      ReadTerm();
      Emit(OrOp);
    }

    /** parse_term started at `from` and has read acc so far. */
    ghost predicate AtTerm(from: nat, before: seq<Instr>, acc: Tree, depth: nat)
      requires from <= |text|
      reads this
    {
      && from < p <= |text|
      && (if error == NoError
          then deps == before + Postfix(acc) && ParseTerm(text, from, known) == TermLoop(text, p, acc, depth, known)
          else ParseTerm(text, from, known) == Bad(error.status))
    }

    method ReadTerm()
      requires p <= |text| && error == NoError
      modifies this
      ensures HasRead(ParseTerm(text, old(p), known), old(deps)) && old(p) <= p
      decreases |text| - p, 1
    {
      ghost var from, before := p, deps;
      ReadFactor();
      SkipBlanks();
      if error != NoError { return; }
      ghost var f := ParseFactor(text, from, known);
      ghost var acc, depth := f.tree, f.depth;
      while error == NoError && At(text, p) == '&' && At(text, p + 1) == '&'
        invariant AtTerm(from, before, acc, depth)
        decreases |text| - p, error == NoError
      {
        acc, depth := ReadAndFactor(from, before, acc, depth);
      }
    }

    /** The body of the loop of parse_term. */
    method ReadAndFactor(ghost from: nat, ghost before: seq<Instr>, ghost acc: Tree, ghost depth: nat)
      returns (ghost acc': Tree, ghost depth': nat)
      requires error == NoError && At(text, p) == '&' && At(text, p + 1) == '&'
      requires from <= |text| && AtTerm(from, before, acc, depth)
      modifies this
      ensures AtTerm(from, before, acc', depth') && old(p) < p
      decreases |text| - p, 0
    {
      ghost var g := ParseFactor(text, p + 2, known);
      TermLoopMore(text, p, acc, depth, known);
      p := p + 2;
      ReadFactor();
      Emit(AndOp);
      SkipBlanks();
      if g.Ok? {
        PairAppended(before, acc, g.tree);
        acc', depth' := And(acc, g.tree), Max(depth, g.depth);
      } else {
        acc', depth' := acc, depth;
      }
    }

    method ReadFactor()
      requires p <= |text| && error == NoError
      modifies this
      ensures HasRead(ParseFactor(text, old(p), known), old(deps)) && old(p) <= p
      decreases |text| - p, 0
    {
      SkipBlanks();
      if At(text, p) == '!' {
        p := p + 1;
        ghost var f := ParseFactor(text, p, known);
        ReadFactor();
        Emit(NotOp);
        assert f.Ok? ==> old(deps) + Postfix(f.tree) + [NotOp] == old(deps) + Postfix(Not(f.tree));
        return;
      }
      if At(text, p) == '(' {
        p := p + 1;
        ReadExpr();
        if error != NoError { return; }
        if At(text, p) != ')' {
          error := Failed(Syntax);
          return;
        }
        p := p + 1;
        return;
      }
      ReadCall();
    }

    method ReadCall()
      requires p <= |text| && error == NoError
      modifies this
      ensures HasRead(ParseCall(text, old(p), known), old(deps)) && old(p) <= p
    {
      if WordAt(text, p, Done) {
        p := p + 4;
        ReadArgument(Done);
      } else if WordAt(text, p, Exit) {
        p := p + 4;
        ReadArgument(Exit);
      } else if WordAt(text, p, Ended) {
        p := p + 5;
        ReadArgument(Ended);
      } else {
        error := Failed(Syntax);
      }
    }

    /** The rest of parse_funccall, behind the keyword. */
    method ReadArgument(k: Kind)
      requires p <= |text| && error == NoError
      modifies this
      ensures HasRead(ParseArgument(text, old(p), k, known), old(deps)) && old(p) <= p
    {
      SkipBlanks();
      if At(text, p) != '(' {
        error := Failed(Syntax);
        return;
      }
      p := p + 1;
      SkipBlanks();
      var num := ParseNumber(text, p);
      if num.NoNumber? {
        error := Failed(Syntax);
        return;
      }
      p := num.next;
      SkipBlanks();
      if At(text, p) != ')' {
        error := Failed(Syntax);
        return;
      }
      p := p + 1;
      if !known(num.value) {
        error := Failed(UnknownJob);
        return;
      }
      Emit(Call(k, num.value));
    }
  }

  lemma {:induction false} PairAppended(before: seq<Instr>, l: Tree, r: Tree)
    ensures before + Postfix(l) + Postfix(r) + [AndOp] == before + Postfix(And(l, r))
    ensures before + Postfix(l) + Postfix(r) + [OrOp] == before + Postfix(Or(l, r))
  {
  }

  lemma {:induction false} TermLoopMore(s: string, p: nat, acc: Tree, depth: nat, known: int -> bool)
    requires p + 2 <= |s| && s[p] == '&' && s[p + 1] == '&'
    ensures var g := ParseFactor(s, p + 2, known);
            TermLoop(s, p, acc, depth, known)
            == if g.Bad? then g else TermLoop(s, Skip(s, g.next), And(acc, g.tree), Max(depth, g.depth), known)
  {
  }

  /** dep_parse.  A C string holds no NUL. */
  method DepParse(s: string, known: int -> bool) returns (error: Error, deps: seq<Instr>)
    requires 0 as char !in s
    ensures error == NoError <==> Parse(s, known).Ok?
    ensures error == NoError ==> deps == Postfix(Parse(s, known).tree)
    ensures error != NoError ==> deps == [] && error.status == Parse(s, known).status
  {
    var parser := new Parser(s, known);
    parser.ReadExpr();
    if parser.error == NoError && At(s, parser.p) != 0 as char {
      parser.error := Failed(Syntax);
    }
    if parser.error != NoError {
      parser.deps := [];
    }
    return parser.error, parser.deps;
  }

  // -------------------------------------------------------------------
  // The stack machine
  // -------------------------------------------------------------------

  /** Values left on the stack, or nothing when an operator lacks operands. */
  datatype Run = Stack(values: seq<bool>) | Underflow

  function Apply(i: Instr, st: seq<bool>, check: (Kind, int) -> bool): Run {
    var n := |st|;
    match i
    case Call(k, j) => Stack(st + [check(k, j)])
    case NotOp => if n < 1 then Underflow else Stack(st[..n - 1] + [!st[n - 1]])
    case AndOp => if n < 2 then Underflow else Stack(st[..n - 2] + [st[n - 2] && st[n - 1]])
    case OrOp => if n < 2 then Underflow else Stack(st[..n - 2] + [st[n - 2] || st[n - 1]])
  }

  function Exec(code: seq<Instr>, st: seq<bool>, check: (Kind, int) -> bool): Run
    decreases |code|
  {
    if code == [] then Stack(st)
    else
      var next := Apply(code[0], st, check);
      if next.Underflow? then Underflow else Exec(code[1..], next.values, check)
  }

  /** Compiled code never underflows and leaves its meaning on the stack. */
  lemma {:induction false} ExecPostfix(t: Tree, rest: seq<Instr>, st: seq<bool>, check: (Kind, int) -> bool)
    ensures Exec(Postfix(t) + rest, st, check) == Exec(rest, st + [Holds(t, check)], check)
    decreases t
  {
    match t
    case Leaf(k, j) =>
      assert ([Call(k, j)] + rest)[1..] == rest;
    case Not(a) =>
      assert Postfix(t) + rest == Postfix(a) + ([NotOp] + rest);
      ExecPostfix(a, [NotOp] + rest, st, check);
      ExecUnary(rest, st, Holds(a, check), check);
    case And(l, r) =>
      assert Postfix(t) + rest == Postfix(l) + (Postfix(r) + ([AndOp] + rest));
      ExecPostfix(l, Postfix(r) + ([AndOp] + rest), st, check);
      ExecPostfix(r, [AndOp] + rest, st + [Holds(l, check)], check);
      ExecBinary(AndOp, rest, st, Holds(l, check), Holds(r, check), check);
    case Or(l, r) =>
      assert Postfix(t) + rest == Postfix(l) + (Postfix(r) + ([OrOp] + rest));
      ExecPostfix(l, Postfix(r) + ([OrOp] + rest), st, check);
      ExecPostfix(r, [OrOp] + rest, st + [Holds(l, check)], check);
      ExecBinary(OrOp, rest, st, Holds(l, check), Holds(r, check), check);
  }

  lemma {:induction false} ExecUnary(rest: seq<Instr>, st: seq<bool>, a: bool, check: (Kind, int) -> bool)
    ensures Exec([NotOp] + rest, st + [a], check) == Exec(rest, st + [!a], check)
  {
    assert ([NotOp] + rest)[1..] == rest;
    assert (st + [a])[..|st|] == st;
  }

  lemma {:induction false} ExecBinary(op: Instr, rest: seq<Instr>, st: seq<bool>, a: bool, b: bool, check: (Kind, int) -> bool)
    requires op == AndOp || op == OrOp
    ensures Exec([op] + rest, st + [a] + [b], check)
         == Exec(rest, st + [if op == AndOp then a && b else a || b], check)
  {
    var st2 := st + [a] + [b];
    assert Apply(op, st2, check) == Stack(st + [if op == AndOp then a && b else a || b]) by {
      assert st2[..|st2| - 2] == st && st2[|st2| - 2] == a && st2[|st2| - 1] == b;
    }
    assert ([op] + rest)[0] == op && ([op] + rest)[1..] == rest;
  }

  /** The highest the stack gets. */
  function Peak(code: seq<Instr>, h: nat): nat
    decreases |code|
  {
    if code == [] then h
    else
      var next := if code[0].Call? then h + 1 else if code[0] == NotOp || h == 0 then h else h - 1;
      Max(h, Peak(code[1..], next))
  }

  /** Slots a condition needs: the right operand sits on top of the left value. */
  function Need(t: Tree): (n: nat)
    ensures n >= 1
  {
    match t
    case Leaf(_, _) => 1
    case Not(a) => Need(a)
    case And(l, r) => Max(Need(l), Need(r) + 1)
    case Or(l, r) => Max(Need(l), Need(r) + 1)
  }

  lemma {:induction false} PeakPostfix(t: Tree, rest: seq<Instr>, h: nat)
    ensures Peak(Postfix(t) + rest, h) == Max(h + Need(t), Peak(rest, h + 1))
    decreases t, 2
  {
    match t
    case Leaf(k, j) =>
      PeakHead(Call(k, j), rest, h);
      PeakAtLeast(rest, h + 1);
    case Not(a) =>
      assert Postfix(t) + rest == Postfix(a) + ([NotOp] + rest);
      PeakPostfix(a, [NotOp] + rest, h);
      PeakHead(NotOp, rest, h + 1);
      PeakAtLeast(rest, h + 1);
    case And(l, r) =>
      PeakPair(t, AndOp, rest, h);
    case Or(l, r) =>
      PeakPair(t, OrOp, rest, h);
  }

  lemma {:induction false} PeakHead(i: Instr, rest: seq<Instr>, h: nat)
    ensures Peak([i] + rest, h)
         == Max(h, Peak(rest, if i.Call? then h + 1 else if i == NotOp || h == 0 then h else h - 1))
  {
    assert ([i] + rest)[1..] == rest;
  }

  lemma {:induction false} PairCode(t: Tree, op: Instr, rest: seq<Instr>)
    requires (t.And? && op == AndOp) || (t.Or? && op == OrOp)
    ensures Postfix(t) + rest == Postfix(t.l) + (Postfix(t.r) + ([op] + rest))
  {
  }

  lemma {:induction false} PeakLeft(t: Tree, op: Instr, rest: seq<Instr>, h: nat)
    requires (t.And? && op == AndOp) || (t.Or? && op == OrOp)
    ensures Peak(Postfix(t) + rest, h) == Max(h + Need(t.l), Peak(Postfix(t.r) + ([op] + rest), h + 1))
    decreases t, 0
  {
    PairCode(t, op, rest);
    PeakPostfix(t.l, Postfix(t.r) + ([op] + rest), h);
  }

  lemma {:induction false} PeakRight(r: Tree, op: Instr, rest: seq<Instr>, h: nat)
    requires op == AndOp || op == OrOp
    ensures Peak(Postfix(r) + ([op] + rest), h) == Max(h + Need(r), Max(h + 1, Peak(rest, h)))
    decreases r, 3
  {
    PeakPostfix(r, [op] + rest, h);
    PeakHead(op, rest, h + 1);
  }

  lemma {:induction false} PeakPair(t: Tree, op: Instr, rest: seq<Instr>, h: nat)
    requires (t.And? && op == AndOp) || (t.Or? && op == OrOp)
    ensures Peak(Postfix(t) + rest, h) == Max(h + Need(t), Peak(rest, h + 1))
    decreases t, 1
  {
    PeakLeft(t, op, rest, h);
    PeakRight(t.r, op, rest, h + 1);
  }

  lemma {:induction false} PeakAtLeast(code: seq<Instr>, h: nat)
    ensures Peak(code, h) >= h
  {
  }

  const DEP_MAX_STACK := 16

  /** The rest of the code ends with v alone, within the fixed stack. */
  ghost predicate OnCourse(code: seq<Instr>, st: seq<bool>, v: bool, check: (Kind, int) -> bool) {
    Exec(code, st, check) == Stack([v]) && Peak(code, |st|) <= DEP_MAX_STACK
  }

  lemma {:induction false} CourseStart(t: Tree, check: (Kind, int) -> bool)
    requires Need(t) <= DEP_MAX_STACK
    ensures OnCourse(Postfix(t), [], Holds(t, check), check)
  {
    assert Postfix(t) + [] == Postfix(t);
    ExecPostfix(t, [], [], check);
    assert [] + [Holds(t, check)] == [Holds(t, check)];
    PeakPostfix(t, [], 0);
  }

  lemma {:induction false} CourseStep(code: seq<Instr>, i: nat, st: seq<bool>, v: bool, check: (Kind, int) -> bool)
    requires i < |code| && OnCourse(code[i..], st, v, check)
    ensures Apply(code[i], st, check).Stack?
    ensures OnCourse(code[i + 1..], Apply(code[i], st, check).values, v, check)
    ensures code[i].Call? ==> |st| < DEP_MAX_STACK
  {
    assert code[i..][1..] == code[i + 1..];
    PeakAtLeast(code[i + 1..], |st| + 1);
  }

  lemma {:induction false} CourseEnd(code: seq<Instr>, st: seq<bool>, v: bool, check: (Kind, int) -> bool)
    requires code == [] && OnCourse(code, st, v, check)
    ensures st == [v]
  {
  }

  /** One turn of the loop of dep_list_eval. */
  method StackStep(stack: array<bool>, sp: nat, i: Instr, check: (Kind, int) -> bool) returns (top: nat)
    requires sp <= stack.Length && Apply(i, stack[..sp], check).Stack?
    requires i.Call? ==> sp < stack.Length
    modifies stack
    ensures top <= stack.Length && Stack(stack[..top]) == Apply(i, old(stack[..sp]), check)
  {
    match i {
      case AndOp =>
        stack[sp - 2] := stack[sp - 2] && stack[sp - 1];
        top := sp - 1;
      case OrOp =>
        stack[sp - 2] := stack[sp - 2] || stack[sp - 1];
        top := sp - 1;
      case NotOp =>
        stack[sp - 1] := !stack[sp - 1];
        top := sp;
      case Call(k, j) =>
        stack[sp] := check(k, j);
        top := sp + 1;
    }
  }

  /** dep_list_eval on code that fits its fixed stack. */
  method DepListEval(deps: seq<Instr>, check: (Kind, int) -> bool, ghost t: Tree) returns (r: bool)
    requires deps == Postfix(t) && Need(t) <= DEP_MAX_STACK
    ensures r == Holds(t, check)
  {
    var stack := new bool[DEP_MAX_STACK];
    var sp := 0;
    var i := 0;
    ghost var v, st := Holds(t, check), [];
    CourseStart(t, check);
    assert deps[0..] == deps;
    while i < |deps|
      invariant 0 <= i <= |deps| && 0 <= sp <= stack.Length && stack[..sp] == st
      invariant OnCourse(deps[i..], st, v, check)
    {
      CourseStep(deps, i, st, v, check);
      st := Apply(deps[i], st, check).values;
      sp := StackStep(stack, sp, deps[i], check);
      i := i + 1;
    }
    CourseEnd(deps[i..], st, v, check);
    r := stack[sp - 1];
  }

  // -------------------------------------------------------------------
  // How deep the stack gets
  // -------------------------------------------------------------------

  /** 1 + 2d for a factor, one more under `&&`, one more under `||`. */
  lemma {:induction false} FactorNeed(s: string, p: nat, known: int -> bool)
    requires p <= |s|
    ensures var r := ParseFactor(s, p, known); r.Ok? ==> Need(r.tree) <= 1 + 2 * r.depth
    decreases |s| - p, 0
  {
    var q := Skip(s, p);
    if At(s, q) == '!' {
      FactorNeed(s, q + 1, known);
    } else if At(s, q) == '(' {
      ExprNeed(s, q + 1, known);
    } else {
      CallSound(s, q, known);
    }
  }

  lemma {:induction false} TermNeed(s: string, p: nat, known: int -> bool)
    requires p <= |s|
    ensures var r := ParseTerm(s, p, known); r.Ok? ==> Need(r.tree) <= 2 + 2 * r.depth
    decreases |s| - p, 1
  {
    FactorNeed(s, p, known);
    var f := ParseFactor(s, p, known);
    if f.Ok? { TermLoopNeed(s, Skip(s, f.next), f.tree, f.depth, known); }
  }

  lemma {:induction false} TermLoopNeed(s: string, p: nat, acc: Tree, depth: nat, known: int -> bool)
    requires p <= |s| && Need(acc) <= 2 + 2 * depth
    ensures var r := TermLoop(s, p, acc, depth, known); r.Ok? ==> Need(r.tree) <= 2 + 2 * r.depth
    decreases |s| - p, 0
  {
    if At(s, p) == '&' && At(s, p + 1) == '&' {
      FactorNeed(s, p + 2, known);
      var f := ParseFactor(s, p + 2, known);
      if f.Ok? { TermLoopNeed(s, Skip(s, f.next), And(acc, f.tree), Max(depth, f.depth), known); }
    }
  }

  lemma {:induction false} ExprNeed(s: string, p: nat, known: int -> bool)
    requires p <= |s|
    ensures var r := ParseExpr(s, p, known); r.Ok? ==> Need(r.tree) <= 3 + 2 * r.depth
    decreases |s| - p, 2
  {
    TermNeed(s, p, known);
    var t := ParseTerm(s, p, known);
    if t.Ok? { ExprLoopNeed(s, t.next, t.tree, t.depth, known); }
  }

  lemma {:induction false} ExprLoopNeed(s: string, p: nat, acc: Tree, depth: nat, known: int -> bool)
    requires p <= |s| && Need(acc) <= 3 + 2 * depth
    ensures var r := ExprLoop(s, p, acc, depth, known); r.Ok? ==> Need(r.tree) <= 3 + 2 * r.depth
    decreases |s| - p, 0
  {
    if At(s, p) == '|' && At(s, p + 1) == '|' {
      TermNeed(s, p + 2, known);
      var t := ParseTerm(s, p + 2, known);
      if t.Ok? { ExprLoopNeed(s, t.next, Or(acc, t.tree), Max(depth, t.depth), known); }
    }
  }

  /** An accepted text whose groups nest p deep needs at most 3 + 2p slots,
      whatever its length; so 16 slots are enough up to six levels. */
  lemma {:induction false} StackBound(s: string, known: int -> bool)
    requires Parse(s, known).Ok?
    ensures Peak(Postfix(Parse(s, known).tree), 0) <= 3 + 2 * Parse(s, known).depth
    ensures Parse(s, known).depth <= 6 ==> Peak(Postfix(Parse(s, known).tree), 0) <= DEP_MAX_STACK
  {
    var t := Parse(s, known).tree;
    ExprNeed(s, 0, known);
    PeakPostfix(t, [], 0);
    assert Postfix(t) + [] == Postfix(t);
  }

  /** done(1) || done(1) && ( ... ), p groups deep */
  function Nested(p: nat): Tree {
    Or(Leaf(Done, 1), And(Leaf(Done, 1), if p == 0 then Leaf(Done, 1) else Nested(p - 1)))
  }

  lemma {:induction false} NestedShape(p: nat)
    ensures Need(Nested(p)) == 3 + 2 * p && ExprGroups(Nested(p)) == p && Int64(Nested(p)) && AllKnown(Nested(p), AnyJob)
  {
    if p > 0 {
      NestedShape(p - 1);
      var inner := Nested(p - 1);
      assert FactorGroups(inner) == PairGroups(inner) + 1 == p;
    }
  }

  /** The bound is reached at every depth; at depth seven it is 17. */
  lemma {:induction false} StackBoundReached(p: nat)
    ensures var r := Parse(ShowExpr(Nested(p)), AnyJob);
            r.Ok? && r.depth == p && Peak(Postfix(r.tree), 0) == 3 + 2 * p
    ensures p == 7 ==> Peak(Postfix(Parse(ShowExpr(Nested(p)), AnyJob).tree), 0) > DEP_MAX_STACK
  {
    NestedShape(p);
    PrintParse(Nested(p), AnyJob);
    StackBound(ShowExpr(Nested(p)), AnyJob);
    PeakPostfix(Nested(p), [], 0);
    assert Postfix(Nested(p)) + [] == Postfix(Nested(p));
  }

  /** The sixteen slots are enough for every text that nests p groups deep exactly if p is at most six. */
  lemma {:induction false} SixteenSlotsExactly(p: nat)
    ensures (forall s: string, known: int -> bool :: Parse(s, known).Ok? && Parse(s, known).depth == p
               ==> Peak(Postfix(Parse(s, known).tree), 0) <= DEP_MAX_STACK) <==> p <= 6
  {
    if p > 6 {
      StackBoundReached(p);
    } else {
      forall s: string, known: int -> bool | Parse(s, known).Ok? && Parse(s, known).depth == p
        ensures Peak(Postfix(Parse(s, known).tree), 0) <= DEP_MAX_STACK
      {
        StackBound(s, known);
      }
    }
  }
}
