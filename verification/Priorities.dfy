/**
 Where queue priorities are not negative, no comparison of pending jobs ever
 wraps: in every state of every run the pending list has one sorted order.
 */
module Priorities {
  import opened Mbd
  import opened JobLists
  import opened MbdSafety
  import opened Int32
  import opened Scheduler
  import opened SchedulerCycle

  predicate InRange(p: int) {
    0 <= p <= INT_MAX
  }

  ghost predicate JobPriorities(jobs: map<JobId, Job>) {
    forall j :: j in jobs ==> InRange(jobs[j].priority)
  }

  ghost predicate LogPriorities(log: seq<Event>) {
    forall i :: 0 <= i < |log| ==>
      (log[i].EvNew? ==> InRange(log[i].rec.priority)) && (log[i].EvPriority? ==> InRange(log[i].after))
  }

  ghost predicate QueuePriorities(queues: map<QueueId, Queue>) {
    forall q :: q in queues ==> InRange(queues[q].priority)
  }

  ghost predicate PrioritiesOk(m: Tables) {
    JobPriorities(m.jobs) && LogPriorities(m.manifest) && QueuePriorities(m.queues)
  }

  /** A request for a priority is an int. */
  predicate IntPriority(step: Step) {
    step.DoPriority? ==> step.priority <= INT_MAX
  }

  lemma {:induction false} OneReplayed(r: Replayed, e: Event, queues: map<QueueId, Queue>)
    requires JobPriorities(r.jobs) && LogPriorities([e])
    ensures var t := ReplayOne(r, e, queues); t.Some? ==> JobPriorities(t.value.jobs)
  {
    assert [e][0] == e;
  }

  lemma {:induction false} AllReplayed(log: seq<Event>, queues: map<QueueId, Queue>)
    requires LogPriorities(log)
    ensures var r := Replay(log, queues); r.Some? ==> JobPriorities(r.value.jobs)
  {
    hide ReplayOne;
    if log != [] {
      var n := |log| - 1;
      AllReplayed(log[..n], queues);
      var r := Replay(log[..n], queues);
      if r.Some? { OneReplayed(r.value, log[n], queues); }
    }
  }

  lemma {:induction false} RebuiltRefs(jobs: map<JobId, Job>, pend: seq<JobId>)
    requires JobPriorities(jobs)
    ensures JobPriorities(RebuildRefs(jobs, pend))
  {
    if pend != [] { RebuiltRefs(jobs, pend[..|pend| - 1]); }
  }

  lemma {:induction false} RebuiltElements(jobs: map<JobId, Job>, ids: seq<JobId>)
    requires JobPriorities(jobs)
    ensures JobPriorities(RebuildElements(jobs, ids))
  {
    if ids != [] { RebuiltElements(jobs, ids[..|ids| - 1]); }
  }

  lemma {:induction false} RebuiltQueues(queues: map<QueueId, Queue>, ids: seq<JobId>, jobs: map<JobId, Job>)
    requires QueuePriorities(queues)
    ensures QueuePriorities(RebuildQueues(queues, ids, jobs))
  {
    if ids != [] { RebuiltQueues(queues, ids[..|ids| - 1], jobs); }
  }

  lemma {:induction false} OneRewritten(j: JobId, job: Job)
    requires InRange(job.priority)
    ensures LogPriorities(Rewritten(j, job))
  {
    hide LoggedWords;
  }

  lemma {:induction false} AllRewritten(ids: seq<JobId>, jobs: map<JobId, Job>)
    requires JobPriorities(jobs)
    ensures LogPriorities(RewriteAll(ids, jobs))
  {
    hide Rewritten;
    if ids != [] {
      var j := ids[|ids| - 1];
      AllRewritten(ids[..|ids| - 1], jobs);
      if j in jobs { OneRewritten(j, jobs[j]); }
    }
  }

  lemma {:induction false} CommitTurn(t: Tables, req: Request, ids: seq<JobId>, k: nat, now: int)
    requires PrioritiesOk(t) && req.queue in t.queues && k < |ids|
    ensures PrioritiesOk(CommitNth(t, req, ids, k, now)) && req.queue in CommitNth(t, req, ids, k, now).queues
  {
    hide LoggedWords, KeptWords, Refs;
  }

  lemma {:induction false} SubmitKeeps(m: Tables, req: Request, now: int)
    requires PrioritiesOk(m) && GoodRequest(m, req)
    ensures PrioritiesOk(Submit(m, req, now))
  {
    var ids := DrawIds(m.jobs, m.lastId, Elements(req));
    var P := (t: Tables, k: nat) => PrioritiesOk(t) && req.queue in t.queues;
    forall t: Tables, k: nat | P(t, k) && k < |ids|
      ensures P(CommitNth(t, req, ids, k, now), k + 1)
    {
      CommitTurn(t, req, ids, k, now);
    }
    CommitLoop(P, m, req, ids, |ids|, now);
  }

  lemma {:induction false} DispatchKeeps(m: Tables, step: Step, now: int)
    requires PrioritiesOk(m) && Enabled(m, step, now) && OfDispatch(step)
    ensures PrioritiesOk(Next(m, step, now))
  {
  }

  lemma {:induction false} PendingKeeps(m: Tables, step: Step, now: int)
    requires PrioritiesOk(m) && Enabled(m, step, now) && OfPending(step) && IntPriority(step)
    ensures PrioritiesOk(Next(m, step, now))
  {
  }

  lemma {:induction false} StepKeeps(m: Tables, step: Step, now: int)
    requires PrioritiesOk(m) && Enabled(m, step, now) && IntPriority(step)
    ensures PrioritiesOk(Next(m, step, now))
  {
    if OfDispatch(step) {
      DispatchKeeps(m, step, now);
    } else if OfPending(step) {
      PendingKeeps(m, step, now);
    } else {
      match step
      case DoSubmit(req) => SubmitKeeps(m, req, now);
      case DoFailSubmit(_) =>
      case DoMark(_) =>
      case DoCompact => AllRewritten(m.pend + m.run + Keep(m.fin, m.jobs), m.jobs);
      case DoRestart =>
        AllReplayed(m.manifest, m.queues);
        var r := Replay(m.manifest, m.queues);
        if r.Some? { RestartKeeps(m, r.value); }
    }
  }

  lemma {:induction false} RestartKeeps(m: Tables, r: Replayed)
    requires PrioritiesOk(m) && JobPriorities(r.jobs)
    ensures PrioritiesOk(Restart(m, r))
  {
    RebuiltRefs(r.jobs, r.pend);
    RebuiltElements(RebuildRefs(r.jobs, r.pend), r.pend + r.run);
    RebuiltQueues(FreshQueues(m.queues), r.pend + r.run, r.jobs);
  }

  lemma {:induction false} RunKeeps(tr: seq<Tables>, steps: seq<Step>, clock: seq<int>, i: nat)
    requires IsRun(tr, steps, clock) && i < |tr| && QueuePriorities(tr[0].queues)
    requires forall k :: 0 <= k < |steps| ==> IntPriority(steps[k])
    ensures PrioritiesOk(tr[i])
  {
    if i > 0 {
      RunKeeps(tr, steps, clock, i - 1);
      StepKeeps(tr[i - 1], steps[i - 1], clock[i - 1]);
    }
  }

  /** No two jobs of a reachable state compare the wrong way. */
  lemma {:induction false} RunIsTame(tr: seq<Tables>, steps: seq<Step>, clock: seq<int>, i: nat, js: seq<JobId>)
    requires IsRun(tr, steps, clock) && i < |tr| && QueuePriorities(tr[0].queues)
    requires forall k :: 0 <= k < |steps| ==> IntPriority(steps[k])
    requires forall j :: j in js ==> j in tr[i].jobs && tr[i].jobs[j].queue in tr[i].queues
    ensures Tame(RanksOf(tr[i], js))
  {
    RunKeeps(tr, steps, clock, i);
    var ranks := RanksOf(tr[i], js);
    forall k | 0 <= k < |ranks|
      ensures InRange(ranks[k].queue) && InRange(ranks[k].job)
    {
      assert js[k] in js;
    }
    NotNegativeIsTame(ranks);
  }
}
