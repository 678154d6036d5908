/**
 What done(), exit() and ended() answer, from how jobs have ended and not from
 the fields the answer is read from; and with them whether a pending job's
 condition holds.
 */
module Verdicts {
  import opened Mbd
  import opened JobLists
  import opened MbdSafety
  import opened History
  import opened Conditions
  import E = DependencyEval

  // -------------------------------------------------------------------
  // How a job has ended
  // -------------------------------------------------------------------

  predicate Finishes(step: Step, j: JobId, success: bool) {
    step.DoFinish? && step.j == j && step.success == success
  }

  predicate Kills(step: Step, j: JobId) {
    step.DoKill? && step.j == j
  }

  /** One of the first i steps was the job's end. */
  ghost predicate FinishedBy(steps: seq<Step>, i: nat, j: JobId, success: bool) {
    exists k :: 0 <= k < i <= |steps| && Finishes(steps[k], j, success)
  }

  ghost predicate KilledBy(steps: seq<Step>, i: nat, j: JobId) {
    exists k :: 0 <= k < i <= |steps| && Kills(steps[k], j)
  }

  /** The book has the ends the steps made, and no others. */
  ghost predicate EndsRight(book: Book, steps: seq<Step>, i: nat, j: JobId) {
    if j in book then
      && (FinishedBy(steps, i, j, true) <==> book[j].ended.Some? && book[j].ended.value.how == Succeeded)
      && (FinishedBy(steps, i, j, false) <==> book[j].ended.Some? && book[j].ended.value.how == Failed)
      && (KilledBy(steps, i, j) <==> book[j].ended.Some? && book[j].ended.value.how == Killed)
    else !FinishedBy(steps, i, j, true) && !FinishedBy(steps, i, j, false) && !KilledBy(steps, i, j)
  }

  lemma {:induction false} OneStepMore(steps: seq<Step>, i: nat, j: JobId, success: bool)
    requires i < |steps|
    ensures FinishedBy(steps, i + 1, j, success) <==> FinishedBy(steps, i, j, success) || Finishes(steps[i], j, success)
    ensures KilledBy(steps, i + 1, j) <==> KilledBy(steps, i, j) || Kills(steps[i], j)
  {
    if FinishedBy(steps, i, j, success) {
      var k :| 0 <= k < i <= |steps| && Finishes(steps[k], j, success);
      assert 0 <= k < i + 1 <= |steps| && Finishes(steps[k], j, success);
    }
    if KilledBy(steps, i, j) {
      var k :| 0 <= k < i <= |steps| && Kills(steps[k], j);
      assert 0 <= k < i + 1 <= |steps| && Kills(steps[k], j);
    }
  }

  /** What a step does to the end the book has of a job. */
  lemma {:induction false} EndEntered(m: Tables, book: Book, step: Step, now: int, j: JobId)
    requires Told(m, book) && Enabled(m, step, now) && m.savedId <= m.lastId
    ensures var after := Enter(book, m, step, now);
            && (j in book ==> j in after)
            && (step.DoFinish? && step.j == j ==>
                  && j in book && book[j].ended.None? && after[j].ended.Some?
                  && after[j].ended.value.how == if step.success then Succeeded else Failed)
            && (step.DoKill? && step.j == j ==>
                  j in book && book[j].ended.None? && after[j].ended.Some? && after[j].ended.value.how == Killed)
            && (!(step.DoFinish? && step.j == j) && !(step.DoKill? && step.j == j) ==>
                  if j in book then after[j].ended == book[j].ended else j in after ==> after[j].ended.None?)
  {
    hide AsksAs;
    if step.DoFinish? || step.DoKill? {
      assert GoesAs(m.jobs[step.j], book[step.j]);
    }
    hide GoesAs;
  }

  lemma {:induction false} EndsMore(m: Tables, book: Book, steps: seq<Step>, i: nat, now: int, j: JobId)
    requires i < |steps| && EndsRight(book, steps, i, j) && Told(m, book) && Enabled(m, steps[i], now) && m.savedId <= m.lastId
    ensures EndsRight(Enter(book, m, steps[i], now), steps, i + 1, j)
  {
    hide FinishedBy, KilledBy, Told, Enabled, Enter;
    EndEntered(m, book, steps[i], now, j);
    OneStepMore(steps, i, j, true);
    OneStepMore(steps, i, j, false);
  }

  lemma {:induction false} RunEnds(tr: seq<Tables>, steps: seq<Step>, clock: seq<int>, i: nat, j: JobId)
    requires IsRun(tr, steps, clock) && i < |tr| && Remembers(steps)
    ensures EndsRight(BookOf(tr, steps, clock, i), steps, i, j)
  {
    if i > 0 {
      RunEnds(tr, steps, clock, i - 1, j);
      RunTells(tr, steps, clock, i - 1);
      RunIds(tr, steps, clock, i - 1);
      BookStep(tr, steps, clock, i - 1);
      EndsMore(tr[i - 1], BookOf(tr, steps, clock, i - 1), steps, i - 1, clock[i - 1], j);
    }
  }

  // -------------------------------------------------------------------
  // What a call answers
  // -------------------------------------------------------------------

  /** done: it succeeded; exit: it failed or was killed; ended: one of these. */
  ghost predicate Answer(steps: seq<Step>, i: nat, kind: D.Kind, j: JobId) {
    match kind
    case Done => FinishedBy(steps, i, j, true)
    case Exit => FinishedBy(steps, i, j, false) || KilledBy(steps, i, j)
    case Ended => FinishedBy(steps, i, j, true) || FinishedBy(steps, i, j, false) || KilledBy(steps, i, j)
  }

  /** The same of a whole array, as far as its elements are in the table. */
  ghost predicate Answers(m: Tables, steps: seq<Step>, i: nat, kind: D.Kind, j: int) {
    && j in m.jobs
    && if m.jobs[j].tag.id == j && j != 0
       then forall k :: k in m.jobs && m.jobs[k].tag.id == j ==> Answer(steps, i, kind, k)
       else Answer(steps, i, kind, j)
  }

  lemma {:induction false} JobAnswers(tr: seq<Tables>, steps: seq<Step>, clock: seq<int>, i: nat, j: JobId, kind: D.Kind)
    requires IsRun(tr, steps, clock) && i < |tr| && Remembers(steps) && j in tr[i].jobs
    ensures JobCheck(tr[i].jobs[j], kind) <==> Answer(steps, i, kind, j)
    ensures JobCheck(tr[i].jobs[j], kind) ==> tr[i].jobs[j].list == OnFinish
    ensures tr[i].jobs[j].list != OnFinish ==> !Answer(steps, i, kind, j)
  {
    RunTells(tr, steps, clock, i);
    RunEnds(tr, steps, clock, i, j);
    BookAnswers(tr[i], BookOf(tr, steps, clock, i), steps, i, j, kind);
  }

  lemma {:induction false} BookAnswers(m: Tables, book: Book, steps: seq<Step>, i: nat, j: JobId, kind: D.Kind)
    requires Told(m, book) && EndsRight(book, steps, i, j) && j in m.jobs
    ensures JobCheck(m.jobs[j], kind) <==> Answer(steps, i, kind, j)
    ensures JobCheck(m.jobs[j], kind) ==> m.jobs[j].list == OnFinish
    ensures m.jobs[j].list != OnFinish ==> !Answer(steps, i, kind, j)
  {
    assert GoesAs(m.jobs[j], book[j]);
    hide AsksAs, FinishedBy, KilledBy;
  }

  /** In every state of every run: a call answers by how its job, or every
      element of its array, has ended, and says no while one has not. */
  lemma {:induction false} CallAnswers(tr: seq<Tables>, steps: seq<Step>, clock: seq<int>, i: nat, kind: D.Kind, j: int)
    requires IsRun(tr, steps, clock) && i < |tr| && Remembers(steps)
    ensures CallEval(tr[i], kind, j) <==> Answers(tr[i], steps, i, kind, j)
  {
    var m := tr[i];
    RunLists(tr, steps, clock, i);
    forall k | k in m.jobs
      ensures JobCheck(m.jobs[k], kind) <==> Answer(steps, i, kind, k)
      ensures JobCheck(m.jobs[k], kind) ==> m.jobs[k].list == OnFinish
    {
      JobAnswers(tr, steps, clock, i, k, kind);
    }
    hide IsRun, Answer, JobCheck;
    if j in m.jobs && IsHead(j, m.jobs[j]) { ArrayCheckMeans(m, j, kind); }
  }

  /** A compiled condition holds exactly if it is true of these answers. */
  lemma {:induction false} ConditionMeans(tr: seq<Tables>, steps: seq<Step>, clock: seq<int>, i: nat, t: D.Tree, answers: (D.Kind, int) -> bool)
    requires IsRun(tr, steps, clock) && i < |tr| && Remembers(steps)
    requires forall k, j :: answers(k, j) <==> Answers(tr[i], steps, i, k, j)
    ensures Satisfied(tr[i], D.Postfix(t)) <==> D.Holds(t, answers)
  {
    var m := tr[i];
    forall k, j
      ensures Checker(m)(k, j) == answers(k, j)
    {
      CallAnswers(tr, steps, clock, i, k, j);
    }
    hide IsRun, Answers, CallEval;
    SameMeaning(t, Checker(m), answers);
    assert D.Postfix(t) + [] == D.Postfix(t);
    E.ExecPostfix(t, [], [], Checker(m));
    assert [] + [D.Holds(t, Checker(m))] == [D.Holds(t, Checker(m))];
    Emitted(t);
  }

  lemma {:induction false} Emitted(t: D.Tree)
    ensures D.Postfix(t) != []
  {
  }

  lemma {:induction false} SameMeaning(t: D.Tree, c: (D.Kind, int) -> bool, d: (D.Kind, int) -> bool)
    requires forall k, j :: c(k, j) == d(k, j)
    ensures D.Holds(t, c) == D.Holds(t, d)
  {
    match t
    case Leaf(_, _) =>
    case Not(a) => SameMeaning(a, c, d);
    case And(l, r) =>
      SameMeaning(l, c, d);
      SameMeaning(r, c, d);
    case Or(l, r) =>
      SameMeaning(l, c, d);
      SameMeaning(r, c, d);
  }
}
