/**
 When a pending job's condition holds, and what compaction does to the answer.
 */
module Conditions {
  import opened Mbd
  import opened JobLists
  import opened Accounting
  import opened AccountingSteps
  import opened Refcount
  import E = DependencyEval

  /** dep_job_check */
  predicate JobCheck(job: Job, kind: D.Kind) {
    match kind
    case Done => job.state == JobState.Done
    case Exit => job.state == Exited
    case Ended => job.state == JobState.Done || job.state == Exited
  }

  /** array_has_member */
  predicate HasMember(list: seq<JobId>, jobs: map<JobId, Job>, a: JobId) {
    exists i :: 0 <= i < |list| && list[i] in jobs && jobs[list[i]].tag.id == a
  }

  /** dep_array_check */
  predicate ArrayCheck(m: Tables, a: JobId, kind: D.Kind) {
    && !HasMember(m.pend, m.jobs, a) && !HasMember(m.run, m.jobs, a)
    && forall i :: 0 <= i < |m.fin| && m.fin[i] in m.jobs && m.jobs[m.fin[i]].tag.id == a ==>
         JobCheck(m.jobs[m.fin[i]], kind)
  }

  predicate IsHead(j: JobId, job: Job) {
    job.tag.id != 0 && job.tag.id == j
  }

  /** dep_call_eval */
  predicate CallEval(m: Tables, kind: D.Kind, j: int) {
    && j in m.jobs
    && if IsHead(j, m.jobs[j]) then ArrayCheck(m, j, kind) else JobCheck(m.jobs[j], kind)
  }

  function Checker(m: Tables): (D.Kind, int) -> bool {
    (k, j) => CallEval(m, k, j)
  }

  /** job_dep_satisfied */
  predicate Satisfied(m: Tables, deps: seq<D.Instr>) {
    deps == [] || E.Exec(deps, [], Checker(m)) == E.Stack([true])
  }

  /** Code dep_parse may have emitted, that the 16 slots of dep_list_eval hold. */
  ghost predicate Compiled(deps: seq<D.Instr>) {
    exists t: D.Tree :: deps == D.Postfix(t) && E.Need(t) <= E.DEP_MAX_STACK
  }

  // -------------------------------------------------------------------
  // The loops
  // -------------------------------------------------------------------

  method DepSatisfied(m: Tables, deps: seq<D.Instr>) returns (ok: bool)
    requires deps == [] || Compiled(deps)
    ensures ok <==> Satisfied(m, deps)
  {
    if deps == [] {
      return true;
    }
    ghost var t: D.Tree :| deps == D.Postfix(t) && E.Need(t) <= E.DEP_MAX_STACK;
    E.CourseStart(t, Checker(m));
    ok := E.DepListEval(deps, Checker(m), t);
  }


  method ArrayHasMember(list: seq<JobId>, jobs: map<JobId, Job>, a: JobId) returns (found: bool)
    ensures found <==> HasMember(list, jobs, a)
  {
    var i := 0;
    while i < |list|
      invariant 0 <= i <= |list|
      invariant forall k :: 0 <= k < i && list[k] in jobs ==> jobs[list[k]].tag.id != a
    {
      if list[i] in jobs && jobs[list[i]].tag.id == a {
        return true;
      }
      i := i + 1;
    }
    return false;
  }

  method DepArrayCheck(m: Tables, a: JobId, kind: D.Kind) returns (ok: bool)
    ensures ok <==> ArrayCheck(m, a, kind)
  {
    var waiting := ArrayHasMember(m.pend, m.jobs, a);
    if waiting {
      return false;
    }
    var running := ArrayHasMember(m.run, m.jobs, a);
    if running {
      return false;
    }
    var i := 0;
    while i < |m.fin|
      invariant 0 <= i <= |m.fin|
      invariant forall k :: 0 <= k < i && m.fin[k] in m.jobs && m.jobs[m.fin[k]].tag.id == a ==>
                  JobCheck(m.jobs[m.fin[k]], kind)
    {
      if m.fin[i] in m.jobs && m.jobs[m.fin[i]].tag.id == a && !JobCheck(m.jobs[m.fin[i]], kind) {
        return false;
      }
      i := i + 1;
    }
    return true;
  }

  /** A whole array: every member is on the finish list and answers the kind. */
  lemma {:induction false} ArrayCheckMeans(m: Tables, a: JobId, kind: D.Kind)
    requires ListsOk(m)
    ensures ArrayCheck(m, a, kind)
            <==> forall j :: j in m.jobs && m.jobs[j].tag.id == a ==>
                   m.jobs[j].list == OnFinish && JobCheck(m.jobs[j], kind)
  {
    if ArrayCheck(m, a, kind) {
      forall j | j in m.jobs && m.jobs[j].tag.id == a
        ensures m.jobs[j].list == OnFinish && JobCheck(m.jobs[j], kind)
      {
        if m.jobs[j].list == OnFinish {
          var i :| 0 <= i < |m.fin| && m.fin[i] == j;
        }
      }
    } else {
      if HasMember(m.pend, m.jobs, a) {
        var i :| 0 <= i < |m.pend| && m.pend[i] in m.jobs && m.jobs[m.pend[i]].tag.id == a;
        assert m.pend[i] in m.pend;
      } else if HasMember(m.run, m.jobs, a) {
        var i :| 0 <= i < |m.run| && m.run[i] in m.jobs && m.jobs[m.run[i]].tag.id == a;
        assert m.run[i] in m.run;
      }
    }
  }

  // -------------------------------------------------------------------
  // Compaction
  // -------------------------------------------------------------------

  lemma {:induction false} ExecAgree(code: seq<D.Instr>, st: seq<bool>, c: (D.Kind, int) -> bool, d: (D.Kind, int) -> bool)
    requires forall i :: 0 <= i < |code| && code[i].Call? ==> c(code[i].kind, code[i].job) == d(code[i].kind, code[i].job)
    ensures E.Exec(code, st, c) == E.Exec(code, st, d)
    decreases |code|
  {
    if code != [] {
      assert E.Apply(code[0], st, c) == E.Apply(code[0], st, d);
      var next := E.Apply(code[0], st, c);
      if !next.Underflow? {
        assert forall i :: 0 <= i < |code[1..]| ==> code[1..][i] == code[i + 1];
        ExecAgree(code[1..], next.values, c, d);
      }
    }
  }

  lemma {:induction false} NamedHasRef(deps: seq<D.Instr>, i: nat, t: JobId)
    requires i < |deps| && deps[i].Call? && deps[i].job == t
    ensures Refs(deps, t) > 0
  {
    if i > 0 { NamedHasRef(deps[1..], i - 1, t); }
  }

  /** The condition names single jobs, not whole arrays. */
  predicate NamesSingles(deps: seq<D.Instr>, jobs: map<JobId, Job>) {
    forall i :: 0 <= i < |deps| && deps[i].Call? && deps[i].job in jobs ==> !IsHead(deps[i].job, jobs[deps[i].job])
  }

  lemma {:induction false} CallKept(m: Tables, j: JobId, i: nat)
    requires RefsOk(m) && JobsOk(m) && OnList(m, j, OnPend) && NamesSingles(m.jobs[j].deps, m.jobs)
    requires i < |m.jobs[j].deps| && m.jobs[j].deps[i].Call?
    ensures var d := m.jobs[j].deps[i]; CallEval(m, d.kind, d.job) == CallEval(Compact(m), d.kind, d.job)
  {
    var d := m.jobs[j].deps[i];
    if d.job in m.jobs {
      NamedHasRef(m.jobs[j].deps, i, d.job);
      NamedIsKept(m, j, d.job);
    }
  }

  /** Compaction does not change whether a pending job's condition holds. */
  lemma {:induction false} VerdictKept(m: Tables, j: JobId)
    requires RefsOk(m) && JobsOk(m) && OnList(m, j, OnPend) && NamesSingles(m.jobs[j].deps, m.jobs)
    ensures Satisfied(m, m.jobs[j].deps) == Satisfied(Compact(m), m.jobs[j].deps)
  {
    var deps := m.jobs[j].deps;
    var c, d := Checker(m), Checker(Compact(m));
    forall i | 0 <= i < |deps| && deps[i].Call?
      ensures c(deps[i].kind, deps[i].job) == d(deps[i].kind, deps[i].job)
    {
      CallKept(m, j, i);
    }
    ExecAgree(deps, [], c, d);
  }

  /** What compaction leaves in the table. */
  predicate Stays(m: Tables, j: JobId) {
    j in m.jobs && (m.jobs[j].list == OnFinish ==> Retained(j, m.jobs[j]))
  }

  predicate Fails(job: Job, kind: D.Kind) {
    job.list != OnFinish || !JobCheck(job, kind)
  }

  /** For a whole array the answer survives exactly if some element that stays
      fails the question, or no element that goes does. */
  lemma {:induction false} ArrayVerdictKept(m: Tables, a: JobId, kind: D.Kind)
    requires ListsOk(m)
    ensures ArrayCheck(m, a, kind) == ArrayCheck(Compact(m), a, kind)
            <==> || (exists j :: Stays(m, j) && m.jobs[j].tag.id == a && Fails(m.jobs[j], kind))
                 || (forall j :: j in m.jobs && !Stays(m, j) && m.jobs[j].tag.id == a ==> !Fails(m.jobs[j], kind))
  {
    CompactKeepsLists(m);
    ArrayCheckMeans(m, a, kind);
    ArrayCheckMeans(Compact(m), a, kind);
    assert forall j :: j in Compact(m).jobs <==> Stays(m, j);
    if j :| Stays(m, j) && m.jobs[j].tag.id == a && Fails(m.jobs[j], kind) {
      assert j in Compact(m).jobs;
    }
  }

  lemma {:induction false} OneCall(m: Tables, kind: D.Kind, j: int)
    ensures Satisfied(m, [D.Call(kind, j)]) == CallEval(m, kind, j)
  {
    var check := Checker(m);
    var code := [D.Call(kind, j)];
    assert code[1..] == [] && [] + [check(kind, j)] == [check(kind, j)];
    assert E.Exec(code, [], check) == E.Exec([], [check(kind, j)], check) == E.Stack([check(kind, j)]);
    assert check(kind, j) == CallEval(m, kind, j);
  }
}
