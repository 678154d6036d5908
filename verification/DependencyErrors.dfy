/**
 Why a condition is refused: for its text, or for a job it names.
 */
module DependencyErrors {
  import opened Dependency
  import opened DependencyProofs

  /** Looking jobs up changes nothing before the first unknown one. */
  predicate Alike(r: Parsed, a: Parsed) {
    && (r.Ok? ==> a == r)
    && (r == Bad(Syntax) ==> a == Bad(Syntax))
    && (a.Bad? ==> a == Bad(Syntax))
  }

  lemma {:induction false} CallAlike(s: string, p: nat, known: int -> bool)
    requires p <= |s|
    ensures Alike(ParseCall(s, p, known), ParseCall(s, p, AnyJob))
  {
    hide WordAt, Skip, ParseNumber;
  }

  lemma {:induction false} FactorAlike(s: string, p: nat, known: int -> bool)
    requires p <= |s|
    ensures Alike(ParseFactor(s, p, known), ParseFactor(s, p, AnyJob))
    decreases |s| - p, 0
  {
    hide ParseCall;
    var q := Skip(s, p);
    if At(s, q) == '!' {
      FactorAlike(s, q + 1, known);
    } else if At(s, q) == '(' {
      ExprAlike(s, q + 1, known);
    } else {
      CallAlike(s, q, known);
    }
  }

  lemma {:induction false} TermAlike(s: string, p: nat, known: int -> bool)
    requires p <= |s|
    ensures Alike(ParseTerm(s, p, known), ParseTerm(s, p, AnyJob))
    decreases |s| - p, 1
  {
    hide ParseFactor, TermLoop;
    FactorAlike(s, p, known);
    var a := ParseFactor(s, p, AnyJob);
    if a.Ok? { TermLoopAlike(s, Skip(s, a.next), a.tree, a.depth, known); }
  }

  lemma {:induction false} TermLoopAlike(s: string, p: nat, acc: Tree, depth: nat, known: int -> bool)
    requires p <= |s|
    ensures Alike(TermLoop(s, p, acc, depth, known), TermLoop(s, p, acc, depth, AnyJob))
    decreases |s| - p, 0
  {
    hide ParseFactor;
    if At(s, p) == '&' && At(s, p + 1) == '&' {
      FactorAlike(s, p + 2, known);
      var a := ParseFactor(s, p + 2, AnyJob);
      if a.Ok? { TermLoopAlike(s, Skip(s, a.next), And(acc, a.tree), Max(depth, a.depth), known); }
    }
  }

  lemma {:induction false} ExprAlike(s: string, p: nat, known: int -> bool)
    requires p <= |s|
    ensures Alike(ParseExpr(s, p, known), ParseExpr(s, p, AnyJob))
    decreases |s| - p, 2
  {
    hide ParseTerm, ExprLoop;
    TermAlike(s, p, known);
    var a := ParseTerm(s, p, AnyJob);
    if a.Ok? { ExprLoopAlike(s, a.next, a.tree, a.depth, known); }
  }

  lemma {:induction false} ExprLoopAlike(s: string, p: nat, acc: Tree, depth: nat, known: int -> bool)
    requires p <= |s|
    ensures Alike(ExprLoop(s, p, acc, depth, known), ExprLoop(s, p, acc, depth, AnyJob))
    decreases |s| - p, 0
  {
    hide ParseTerm;
    if At(s, p) == '|' && At(s, p + 1) == '|' {
      TermAlike(s, p + 2, known);
      var a := ParseTerm(s, p + 2, AnyJob);
      if a.Ok? { ExprLoopAlike(s, a.next, Or(acc, a.tree), Max(depth, a.depth), known); }
    }
  }

  /** A text of the grammar is refused for a job that is not known, and for
      nothing else; where every job is known, only for its syntax. */
  lemma {:induction false} RefusedFor(s: string, known: int -> bool, t: Tree, d: nat)
    ensures Denotes(s, t, d) ==> (Parse(s, known) == Bad(UnknownJob) <==> !AllKnown(t, known))
    ensures Denotes(s, t, d) ==> Parse(s, known) != Bad(Syntax)
    ensures Parse(s, AnyJob).Bad? ==> Parse(s, AnyJob) == Bad(Syntax)
  {
    ExprAlike(s, 0, known);
    ExprAlike(s, 0, AnyJob);
    hide ParseExpr;
    if Denotes(s, t, d) {
      AnythingKnown(t);
      ParseExact(s, AnyJob, t, d);
      ParseExact(s, known, t, d);
      if Parse(s, known).Ok? {
        var r := Parse(s, known);
        ParseExact(s, known, r.tree, r.depth);
        Unambiguous(s, t, r.tree, d, r.depth);
      } else {
        match Parse(s, known).status
        case Syntax =>
        case UnknownJob =>
      }
    }
  }
}
