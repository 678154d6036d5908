/**
 dep_refcnt: a job's count is the number of references to it from jobs still
 pending, so compaction keeps what a pending condition names.
 */
module Refcount {
  import opened Mbd
  import opened JobLists
  import opened Manifest
  import opened Compaction
  import opened Accounting
  import opened AccountingSteps
  import opened AccountingRestart
  import opened MbdSafety

  ghost predicate RefsUpTo(m: Tables, n: nat) {
    forall t :: t in m.jobs ==> m.jobs[t].depRefcnt == Total(RefsTo(t), m.jobs, n)
  }

  ghost predicate RefsOk(m: Tables) {
    RefsUpTo(m, m.lastId)
  }

  /** Conditions name jobs that had been committed. */
  ghost predicate DepsUpTo(jobs: map<JobId, Job>, n: nat) {
    forall j, t: JobId :: j in jobs && t > n ==> Refs(jobs[j].deps, t) == 0
  }

  ghost predicate RefInv(m: Tables) {
    MbdInv(m) && DepsUpTo(m.jobs, m.savedId) && RefsOk(m)
  }

  // -------------------------------------------------------------------
  // One job moves
  // -------------------------------------------------------------------

  /** What j refers to while it is pending. */
  function PendingRefs(job: Job, t: JobId): int {
    if job.list == OnPend then Refs(job.deps, t) else 0
  }

  ghost predicate Moved(m: Tables, t: Tables, j: JobId) {
    && j in m.jobs && 0 < j <= m.lastId == t.lastId && t.jobs.Keys == m.jobs.Keys
    && forall k :: k in m.jobs && k != j ==> LoadOf(t.jobs[k]) == LoadOf(m.jobs[k])
  }

  /** The counts stay right exactly if each moves with j's references. */
  lemma {:induction false} MovedRefs(m: Tables, t: Tables, j: JobId)
    requires RefsOk(m) && Moved(m, t, j)
    ensures RefsOk(t) <==> forall k :: k in m.jobs ==>
              t.jobs[k].depRefcnt - m.jobs[k].depRefcnt == PendingRefs(t.jobs[j], k) - PendingRefs(m.jobs[j], k)
  {
    forall k | k in m.jobs
      ensures t.jobs[k].depRefcnt == Total(RefsTo(k), t.jobs, t.lastId)
              <==> t.jobs[k].depRefcnt - m.jobs[k].depRefcnt == PendingRefs(t.jobs[j], k) - PendingRefs(m.jobs[j], k)
    {
      TotalReplaced(RefsTo(k), m.jobs, t.jobs, j, m.lastId);
    }
  }

  lemma {:induction false} DispatchRefs(m: Tables, j: JobId, plan: seq<HostId>, now: int)
    requires RefsOk(m) && JobsOk(m) && OnList(m, j, OnPend)
    ensures RefsOk(Dispatch(m, j, plan, now))
  {
    MovedRefs(m, Dispatch(m, j, plan, now), j);
  }

  lemma {:induction false} KillMoved(m: Tables, j: JobId, sig: Sig, now: int)
    requires 0 < j <= m.lastId && OnList(m, j, OnPend)
    ensures Moved(m, Kill(m, j, sig, now), j) && Kill(m, j, sig, now).jobs[j].list == OnFinish
    ensures forall k :: k in m.jobs ==>
              Kill(m, j, sig, now).jobs[k].depRefcnt == m.jobs[k].depRefcnt - Refs(m.jobs[j].deps, k)
  {
    KillRequeues(m, j, sig, now);
    var job := m.jobs[j].(endTime := now, state := Exited, list := OnFinish);
    ElementSeen(AdjustRefs(m.jobs[j := job], job.deps, -1), job.tag.id);
  }

  lemma {:induction false} KillRefs(m: Tables, j: JobId, sig: Sig, now: int)
    requires RefsOk(m) && JobsOk(m) && OnList(m, j, OnPend)
    ensures RefsOk(Kill(m, j, sig, now))
  {
    KillMoved(m, j, sig, now);
    MovedRefs(m, Kill(m, j, sig, now), j);
  }

  lemma {:induction false} FinishRefs(m: Tables, j: JobId, success: bool, exit: int, now: int)
    requires RefsOk(m) && JobsOk(m) && OnList(m, j, OnRun)
    ensures RefsOk(Finish(m, j, success, exit, now))
  {
    MovedRefs(m, Finish(m, j, success, exit, now), j);
  }

  predicate NamesNobody(job: Job, jobs: map<JobId, Job>) {
    forall t :: t in jobs ==> Refs(job.deps, t) == 0
  }

  /** Reject and missing do not take the references again: the counts stay
      right exactly if the job's condition names no job still in the table. */
  lemma {:induction false} BackRefsExactly(m: Tables, j: JobId, runHosts: seq<HostId>, now: int)
    requires RefsOk(m) && JobsOk(m) && OnList(m, j, OnRun)
    ensures RefsOk(BackToPend(m, j, runHosts, now)) <==> NamesNobody(m.jobs[j], m.jobs)
  {
    var t := BackToPend(m, j, runHosts, now);
    MovedRefs(m, t, j);
    forall k | k in m.jobs
      ensures t.jobs[k].depRefcnt - m.jobs[k].depRefcnt == PendingRefs(t.jobs[j], k) - PendingRefs(m.jobs[j], k)
              <==> Refs(m.jobs[j].deps, k) == 0
    {
    }
  }

  lemma {:induction false} SameRefs(m: Tables, t: Tables)
    requires RefsOk(m) && t.lastId == m.lastId && t.jobs.Keys == m.jobs.Keys
    requires forall k :: k in m.jobs ==>
               t.jobs[k].depRefcnt == m.jobs[k].depRefcnt && t.jobs[k].deps == m.jobs[k].deps
               && t.jobs[k].list == m.jobs[k].list
    ensures RefsOk(t)
  {
    forall k | k in m.jobs
      ensures Total(RefsTo(k), t.jobs, t.lastId) == Total(RefsTo(k), m.jobs, m.lastId)
    {
      TotalSameWeight(RefsTo(k), m.jobs, t.jobs, m.lastId);
    }
  }

  // -------------------------------------------------------------------
  // Submission
  // -------------------------------------------------------------------

  lemma {:induction false} Unnamed(t: JobId, jobs: map<JobId, Job>, n: nat)
    requires forall j :: j in jobs ==> Refs(jobs[j].deps, t) == 0
    ensures Total(RefsTo(t), jobs, n) == 0
  {
    if n > 0 { Unnamed(t, jobs, n - 1); }
  }

  ghost predicate RefsAfter(m: Tables, req: Request, ids: seq<JobId>, saved: nat, last: nat, k: nat) {
    RefsUpTo(m, last) && DepsUpTo(m.jobs, saved) && Untouched(m, ids, k) && req.queue in m.queues
  }

  lemma {:induction false} CommitRefs(m: Tables, j: JobId, job: Job, nhosts: int, saved: nat, last: nat)
    requires RefsUpTo(m, last) && DepsUpTo(m.jobs, saved) && j !in m.jobs && saved < j <= last
    requires job.queue in m.queues && job.list == OnPend && job.depRefcnt == 0
    requires forall t: JobId :: t > saved ==> Refs(job.deps, t) == 0
    ensures RefsUpTo(Commit(m, j, job, nhosts), last) && DepsUpTo(Commit(m, j, job, nhosts).jobs, saved)
  {
    var t := Commit(m, j, job, nhosts);
    AdjustKeepsLoads(m.jobs[j := job], job.deps, 1);
    forall k | k in t.jobs
      ensures t.jobs[k].depRefcnt == Total(RefsTo(k), t.jobs, last)
    {
      TotalSame(RefsTo(k), m.jobs[j := job], t.jobs, last);
      TotalAdded(RefsTo(k), m.jobs, j, job, last);
      if k == j { Unnamed(j, m.jobs, last); }
    }
  }

  lemma {:induction false} CommitTurnRefs(m: Tables, req: Request, ids: seq<JobId>, saved: nat, last: nat, k: nat, now: int)
    requires RefsAfter(m, req, ids, saved, last, k) && k < |ids| && FreshIds(ids, last)
    requires forall i :: 0 <= i < |ids| ==> ids[i] > saved
    requires forall t: JobId :: t > saved ==> Refs(req.deps, t) == 0
    ensures RefsAfter(CommitNth(m, req, ids, k, now), req, ids, saved, last, k + 1)
  {
    var job := Prepared(req, m.queues[req.queue].priority, ids[0], k, |ids|, now);
    CommitRefs(m, ids[k], job, req.nhosts, saved, last);
    CommitAdds(m, ids, k, job, req.nhosts);
  }

  lemma {:induction false} NamesKnown(deps: seq<D.Instr>, n: nat, t: JobId)
    requires forall i :: 0 <= i < |deps| && deps[i].Call? ==> deps[i].job <= n
    requires t > n
    ensures Refs(deps, t) == 0
  {
    if deps != [] { NamesKnown(deps[1..], n, t); }
  }

  lemma {:induction false} ExtendedRefs(m: Tables, n: nat)
    requires RefsOk(m) && m.lastId <= n && forall j :: j in m.jobs ==> j <= m.lastId
    ensures RefsUpTo(m, n)
  {
    forall t | t in m.jobs
      ensures Total(RefsTo(t), m.jobs, n) == Total(RefsTo(t), m.jobs, m.lastId)
    {
      TotalExtended(RefsTo(t), m.jobs, m.lastId, n);
    }
  }

  lemma {:induction false} SubmitRefs(m: Tables, req: Request, now: int)
    requires IdsOk(m) && RefsOk(m) && DepsUpTo(m.jobs, m.savedId) && GoodRequest(m, req)
    ensures RefsOk(Submit(m, req, now)) && DepsUpTo(Submit(m, req, now).jobs, Submit(m, req, now).savedId)
  {
    var ids := DrawIds(m.jobs, m.lastId, Elements(req));
    var last := ids[|ids| - 1];
    IdsConsecutive(m.jobs, m.lastId, Elements(req));
    ExtendedRefs(m, last);
    forall t: JobId | t > m.savedId
      ensures Refs(req.deps, t) == 0
    {
      NamesKnown(req.deps, m.savedId, t);
    }
    var P := (t: Tables, k: nat) => RefsAfter(t, req, ids, m.savedId, last, k);
    forall t: Tables, k: nat | P(t, k) && k < |ids|
      ensures P(CommitNth(t, req, ids, k, now), k + 1)
    {
      CommitTurnRefs(t, req, ids, m.savedId, last, k, now);
    }
    CommitLoop(P, m, req, ids, |ids|, now);
  }

  // -------------------------------------------------------------------
  // Compaction and restart
  // -------------------------------------------------------------------

  lemma {:induction false} CompactRefs(m: Tables)
    requires RefsOk(m)
    ensures RefsOk(Compact(m))
  {
    var t := Compact(m);
    forall k | k in t.jobs
      ensures Total(RefsTo(k), t.jobs, t.lastId) == Total(RefsTo(k), m.jobs, m.lastId)
    {
      TotalDropped(RefsTo(k), m.jobs, t.jobs, m.lastId);
    }
  }

  lemma {:induction false} RebuiltRefs(jobs: map<JobId, Job>, pend: seq<JobId>, t: JobId)
    requires t in jobs && forall j :: j in pend ==> j in jobs && jobs[j].list == OnPend
    ensures t in RebuildRefs(jobs, pend)
    ensures RebuildRefs(jobs, pend)[t].depRefcnt == jobs[t].depRefcnt + ListSum(RefsTo(t), pend, jobs)
  {
    if pend != [] {
      var n := |pend| - 1;
      assert pend[n] in pend && forall j :: j in pend[..n] ==> j in pend;
      RebuiltRefs(jobs, pend[..n], t);
      RebuildRefsSame(jobs, pend[..n]);
    }
  }

  lemma {:induction false} ElementsKeepRefs(jobs: map<JobId, Job>, ids: seq<JobId>)
    ensures RebuildElements(jobs, ids).Keys == jobs.Keys
    ensures forall t :: t in jobs ==> RebuildElements(jobs, ids)[t].depRefcnt == jobs[t].depRefcnt
  {
    if ids != [] { ElementsKeepRefs(jobs, ids[..|ids| - 1]); }
  }

  lemma {:induction false} RestartedRef(m: Tables, r: Replayed, k: JobId)
    requires Mirrors(r, m.jobs) && IdsOk(m) && k in r.jobs
    ensures k in Restart(m, r).jobs
    ensures Restart(m, r).jobs[k].depRefcnt == Total(RefsTo(k), r.jobs, m.savedId)
  {
    RestartedSum(m, r, k);
    PendingSum(r, k, m.savedId);
  }

  lemma {:induction false} RestartedSum(m: Tables, r: Replayed, k: JobId)
    requires Mirrors(r, m.jobs) && k in r.jobs
    ensures k in Restart(m, r).jobs && Restart(m, r).jobs[k].depRefcnt == ListSum(RefsTo(k), r.pend, r.jobs)
  {
    ElementsKeepRefs(RebuildRefs(r.jobs, r.pend), r.pend + r.run);
    RebuiltRefs(r.jobs, r.pend, k);
    assert ReplayedJob(r.jobs[k]);
  }

  lemma {:induction false} PendingSum(r: Replayed, k: JobId, n: nat)
    requires ListIs(r.pend, r.jobs, OnPend) && forall j :: j in r.jobs ==> 0 < j <= n
    ensures ListSum(RefsTo(k), r.pend, r.jobs) == Total(RefsTo(k), r.jobs, n)
  {
    ListIsTotal(RefsTo(k), r.pend, r.jobs, n);
  }

  /** A restart counts afresh: the counts are right again whatever they were. */
  lemma {:induction false} RestartRefs(m: Tables, r: Replayed)
    requires Mirrors(r, m.jobs) && IdsOk(m)
    ensures RefsOk(Restart(m, r))
  {
    var t := Restart(m, r);
    LoadsBack(m, r);
    RestartedId(m, r);
    forall k | k in t.jobs
      ensures t.jobs[k].depRefcnt == Total(RefsTo(k), t.jobs, t.lastId)
    {
      RestartedRef(m, r, k);
      TotalSame(RefsTo(k), r.jobs, t.jobs, m.savedId);
    }
  }

  lemma {:induction false} RestartDeps(m: Tables, r: Replayed)
    requires Mirrors(r, m.jobs) && DepsUpTo(m.jobs, m.savedId)
    ensures DepsUpTo(Restart(m, r).jobs, m.savedId)
  {
    RestartJobs(m, r);
    forall j | j in r.jobs
      ensures r.jobs[j].deps == m.jobs[j].deps
    {
      assert See(r.jobs[j]) == See(m.jobs[j]);
    }
  }

  // -------------------------------------------------------------------
  // Every run
  // -------------------------------------------------------------------

  /** No job whose condition names somebody goes back to pending. */
  predicate Careful(m: Tables, step: Step) {
    && Proper(step)
    && (step.DoReject? && step.j in m.jobs ==> NamesNobody(m.jobs[step.j], m.jobs))
    && (step.DoMissing? && step.j in m.jobs ==> NamesNobody(m.jobs[step.j], m.jobs))
  }

  lemma {:induction false} DispatchStepRefs(m: Tables, step: Step, now: int)
    requires RefsOk(m) && JobsOk(m) && Enabled(m, step, now) && OfDispatch(step) && Careful(m, step)
    ensures RefsOk(Next(m, step, now))
  {
    hide RefsOk, Dispatch, Finish, BackToPend, NamesNobody;
    match step
    case DoDispatch(j, plan) => DispatchRefs(m, j, plan, now);
    case DoFork(j, pid) => SameRefs(m, Fork(m, j, pid, now));
    case DoReject(j) => BackRefsExactly(m, j, [], now);
    case DoMissing(j) => BackRefsExactly(m, j, m.jobs[j].runHosts, now);
    case DoFinish(j, success, exit) => FinishRefs(m, j, success, exit, now);
    case DoSignal(j, sig) => SameRefs(m, SignalRunning(m, j, sig, now));
  }

  lemma {:induction false} PlainEdits(m: Tables, step: Step, now: int)
    requires Enabled(m, step, now) && OfPending(step) && !step.DoKill?
    ensures var t := Next(m, step, now);
            && t.lastId == m.lastId && t.jobs.Keys == m.jobs.Keys
            && forall k :: k in m.jobs ==>
                 t.jobs[k].depRefcnt == m.jobs[k].depRefcnt && t.jobs[k].deps == m.jobs[k].deps
                 && t.jobs[k].list == m.jobs[k].list
  {
  }

  lemma {:induction false} PendingStepRefs(m: Tables, step: Step, now: int)
    requires RefsOk(m) && JobsOk(m) && Enabled(m, step, now) && OfPending(step)
    ensures RefsOk(Next(m, step, now))
  {
    if step.DoKill? {
      KillRefs(m, step.j, step.sig, now);
    } else {
      PlainEdits(m, step, now);
      SameRefs(m, Next(m, step, now));
    }
  }

  lemma {:induction false} StepDeps(m: Tables, step: Step, now: int)
    requires DepsUpTo(m.jobs, m.savedId) && Enabled(m, step, now) && (OfDispatch(step) || OfPending(step))
    ensures DepsUpTo(Next(m, step, now).jobs, Next(m, step, now).savedId)
  {
    var t := Next(m, step, now);
    forall j | j in t.jobs
      ensures j in m.jobs && t.jobs[j].deps == m.jobs[j].deps
    {
    }
  }

  predicate OfTable(step: Step) {
    !OfDispatch(step) && !OfPending(step)
  }

  lemma {:induction false} TableStepRefs(m: Tables, step: Step, now: int)
    requires IdsOk(m) && RefsOk(m) && DepsUpTo(m.jobs, m.savedId) && Enabled(m, step, now) && OfTable(step)
    requires step.DoRestart? ==> Mirrored(m)
    ensures RefsOk(Next(m, step, now))
  {
    match step
    case DoSubmit(req) => SubmitRefs(m, req, now);
    case DoFailSubmit(drawn) => ExtendedRefs(m, m.lastId + drawn);
    case DoMark(up) =>
    case DoCompact => CompactRefs(m);
    case DoRestart => RestartRefs(m, Replay(m.manifest, m.queues).value);
  }

  lemma {:induction false} TableStepDeps(m: Tables, step: Step, now: int)
    requires IdsOk(m) && RefsOk(m) && DepsUpTo(m.jobs, m.savedId) && Enabled(m, step, now) && OfTable(step)
    requires step.DoRestart? ==> Mirrored(m)
    ensures DepsUpTo(Next(m, step, now).jobs, Next(m, step, now).savedId)
  {
    match step
    case DoSubmit(req) => SubmitRefs(m, req, now);
    case DoFailSubmit(_) =>
    case DoMark(_) =>
    case DoCompact =>
    case DoRestart => RestartDeps(m, Replay(m.manifest, m.queues).value);
  }

  lemma {:induction false} StepKeepsRefs(m: Tables, step: Step, now: int)
    requires JobsOk(m) && IdsOk(m) && RefsOk(m) && DepsUpTo(m.jobs, m.savedId)
    requires Enabled(m, step, now) && Careful(m, step) && (step.DoRestart? ==> Mirrored(m))
    ensures RefsOk(Next(m, step, now)) && DepsUpTo(Next(m, step, now).jobs, Next(m, step, now).savedId)
  {
    if OfTable(step) {
      TableStepRefs(m, step, now);
      TableStepDeps(m, step, now);
    } else {
      StepDeps(m, step, now);
      if OfDispatch(step) { DispatchStepRefs(m, step, now); } else { PendingStepRefs(m, step, now); }
    }
  }

  lemma {:induction false} RunRefs(tr: seq<Tables>, steps: seq<Step>, clock: seq<int>, i: nat)
    requires IsRun(tr, steps, clock) && i < |tr|
    requires forall k :: 0 <= k < |steps| ==> Careful(tr[k], steps[k])
    ensures RefInv(tr[i])
  {
    RunInv(tr, steps, clock, i);
    if i > 0 {
      RunRefs(tr, steps, clock, i - 1);
      StepKeepsRefs(tr[i - 1], steps[i - 1], clock[i - 1]);
    }
  }

  // -------------------------------------------------------------------
  // Compaction and conditions
  // -------------------------------------------------------------------

  /** A job that a pending condition names is not purged. */
  lemma {:induction false} NamedIsKept(m: Tables, j: JobId, t: JobId)
    requires RefsOk(m) && JobsOk(m) && OnList(m, j, OnPend) && t in m.jobs && Refs(m.jobs[j].deps, t) > 0
    ensures t in Compact(m).jobs && Compact(m).jobs[t] == m.jobs[t]
  {
    AtLeastOne(RefsTo(t), m.jobs, m.lastId, j);
  }
}
