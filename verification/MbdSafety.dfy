/**
 What holds of mbd's tables and manifest in every state of every run.
 */
module MbdSafety {
  import opened Mbd
  import opened JobLists
  import opened Manifest
  import opened ManifestSteps
  import opened Compaction
  import opened Accounting
  import opened AccountingSteps
  import opened AccountingRestart
  import N = Names

  // -------------------------------------------------------------------
  // Counters, without restarts
  // -------------------------------------------------------------------

  lemma {:induction false} InitBooks(m: Tables)
    requires Init(m)
    ensures BooksOk(m)
  {
    forall x | Configured(x, m)
      ensures Counter(x, m) == Total(x, m.jobs, m.lastId)
    {
      if OfHost(x) { assert m.hosts[x.h] == FreshHost(m.hosts[x.h]); }
      else if OfQueue(x) { assert m.queues[x.q] == FreshQueue(m.queues[x.q]); }
    }
  }

  /** A dispatched job: dispatch, its outcomes, and signals to it. */
  predicate OfDispatch(step: Step) {
    step.DoDispatch? || step.DoFork? || step.DoReject? || step.DoMissing? || step.DoFinish? || step.DoSignal?
  }

  /** A request about a pending job. */
  predicate OfPending(step: Step) {
    step.DoKill? || step.DoHold? || step.DoResume? || step.DoMove? || step.DoPriority?
  }

  lemma {:induction false} DispatchStepBooks(m: Tables, step: Step, now: int)
    requires BooksOk(m) && Enabled(m, step, now) && OfDispatch(step)
    ensures BooksOk(Next(m, step, now))
  {
    if step.DoReject? || step.DoMissing? || step.DoFinish? {
      OutcomeBooks(m, step, now);
    } else {
      hide CountersOk, HostsOk, Dispatch;
      match step
      case DoDispatch(j, plan) =>
        DispatchKeepsCounters(m, j, plan, now);
        DispatchKeepsHosts(m, j, plan, now);
        DispatchKeepsJobs(m, j, plan, now);
      case DoFork(j, pid) => SameLoadsKeepBooks(m, Fork(m, j, pid, now));
      case DoSignal(j, sig) => SameLoadsKeepBooks(m, SignalRunning(m, j, sig, now));
    }
  }

  lemma {:induction false} OutcomeBooks(m: Tables, step: Step, now: int)
    requires BooksOk(m) && Enabled(m, step, now) && (step.DoReject? || step.DoMissing? || step.DoFinish?)
    ensures BooksOk(Next(m, step, now))
  {
    hide BooksOk, Finish, BackToPend;
    match step
    case DoReject(j) => BackKeepsBooks(m, j, [], now);
    case DoMissing(j) => BackKeepsBooks(m, j, m.jobs[j].runHosts, now);
    case DoFinish(j, success, exit) => FinishKeepsBooks(m, j, success, exit, now);
  }

  lemma {:induction false} PendingStepBooks(m: Tables, step: Step, now: int)
    requires BooksOk(m) && Enabled(m, step, now) && OfPending(step)
    ensures BooksOk(Next(m, step, now))
  {
    hide CountersOk, HostsOk, JobsOk, Kill, SetHeld, Move;
    match step
    case DoKill(j, sig) => KillKeepsBooks(m, j, sig, now);
    case DoHold(j, sig) => HoldKeepsBooks(m, j, true, sig, now);
    case DoResume(j, sig) => HoldKeepsBooks(m, j, false, sig, now);
    case DoMove(j, to) => MoveKeepsBooks(m, j, to, now);
    case DoPriority(j, priority) => SameLoadsKeepBooks(m, SetPriority(m, j, priority, now));
  }

  /** Nobody asks for less than no cpus. */
  predicate CpusAsked(step: Step) {
    step.DoSubmit? ==> step.req.cpus >= 0
  }

  lemma {:induction false} StepKeepsBooks(m: Tables, step: Step, now: int)
    requires BooksOk(m) && Enabled(m, step, now) && !step.DoRestart? && CpusAsked(step)
    ensures BooksOk(Next(m, step, now))
  {
    if OfDispatch(step) {
      DispatchStepBooks(m, step, now);
    } else if OfPending(step) {
      PendingStepBooks(m, step, now);
    } else {
      match step
      case DoSubmit(req) => SubmitKeepsBooks(m, req, now);
      case DoFailSubmit(drawn) => SkippedIdsKeepBooks(m, m.lastId + drawn);
      case DoMark(up) => MarkKeepsBooks(m, up);
      case DoCompact => CompactKeepsBooks(m);
    }
  }

  /** Conservation over every run of one daemon lifetime. */
  lemma {:induction false} RunKeepsBooks(tr: seq<Tables>, steps: seq<Step>, clock: seq<int>, i: nat)
    requires IsRun(tr, steps, clock) && i < |tr|
    requires forall k :: 0 <= k < |steps| ==> !steps[k].DoRestart? && CpusAsked(steps[k])
    ensures BooksOk(tr[i])
  {
    if i == 0 {
      InitBooks(tr[0]);
    } else {
      RunKeepsBooks(tr, steps, clock, i - 1);
      StepKeepsBooks(tr[i - 1], steps[i - 1], clock[i - 1]);
    }
  }

  // -------------------------------------------------------------------
  // The manifest, with restarts
  // -------------------------------------------------------------------

  ghost predicate MbdInv(m: Tables) {
    ManifestOk(m) && BooksOk(m) && IdsOk(m)
  }

  /** What the fields of the log can hold of a step. */
  predicate Loggable(step: Step) {
    && (step.DoSubmit? ==> NewLoggable(step.req))
    && (step.DoDispatch? ==> N.PlainHosts(step.plan) && |N.Join(step.plan)| < N.LL_BUFSIZ_4K)
  }

  /** What the invariants ask of a step. */
  predicate Proper(step: Step) {
    Loggable(step) && CpusAsked(step)
  }

  lemma {:induction false} InitInv(m: Tables)
    requires Init(m)
    ensures MbdInv(m)
  {
    InitBooks(m);
  }

  ghost predicate MirrorsAfter(m: Tables, req: Request, ids: seq<JobId>, k: nat) {
    ManifestOk(m) && Untouched(m, ids, k) && req.queue in m.queues
  }

  lemma {:induction false} CommitTurnMirrors(m: Tables, req: Request, ids: seq<JobId>, last: nat, k: nat, now: int)
    requires MirrorsAfter(m, req, ids, k) && k < |ids| && FreshIds(ids, last) && WireWords(req.words) && NewLoggable(req)
    ensures MirrorsAfter(CommitNth(m, req, ids, k, now), req, ids, k + 1)
  {
    CommitMirrors(m, req, ids, k, now);
    CommitAdds(m, ids, k, Prepared(req, m.queues[req.queue].priority, ids[0], k, |ids|, now), req.nhosts);
  }

  lemma {:induction false} SubmitMirrors(m: Tables, req: Request, now: int)
    requires ManifestOk(m) && GoodRequest(m, req) && NewLoggable(req)
    requires forall j :: j in m.jobs ==> j <= m.lastId
    ensures ManifestOk(Submit(m, req, now))
  {
    hide ManifestOk, NewLoggable, CommitNth;
    var ids := DrawIds(m.jobs, m.lastId, Elements(req));
    var last := ids[|ids| - 1];
    IdsConsecutive(m.jobs, m.lastId, Elements(req));
    var P := (t: Tables, k: nat) => MirrorsAfter(t, req, ids, k);
    forall t: Tables, k: nat | P(t, k) && k < |ids|
      ensures P(CommitNth(t, req, ids, k, now), k + 1)
    {
      CommitTurnMirrors(t, req, ids, last, k, now);
    }
    CommitLoop(P, m, req, ids, |ids|, now);
    ManifestIgnoresIds(CommitRest(m, req, ids, |ids|, now), Submit(m, req, now));
  }

  lemma {:induction false} ManifestIgnoresIds(m: Tables, t: Tables)
    requires ManifestOk(m) && t.jobs == m.jobs && t.queues == m.queues && t.manifest == m.manifest
    requires t.pend == m.pend && t.run == m.run && t.fin == m.fin
    ensures ManifestOk(t)
  {
  }

  /** Turns of the commit loop when the first job's line says something else. */
  ghost predicate MissAfter(t: Tables, req: Request, priority: int, first: JobId, job: Job, k: nat) {
    && req.queue in t.queues && t.queues[req.queue].priority == priority
    && (k > 0 ==> && first in t.jobs && See(t.jobs[first]) == See(job)
                  && var r := Replay(t.manifest, t.queues);
                     r.Some? && first in r.value.jobs ==>
                       See(r.value.jobs[first]) == See(Allocated(NewEvent(first, job, req.nhosts).rec)))
  }

  lemma {:induction false} CommitTurnMisses(t: Tables, req: Request, ids: seq<JobId>, last: nat, k: nat, now: int, priority: int)
    requires k < |ids| && FreshIds(ids, last)
    requires MissAfter(t, req, priority, ids[0], Prepared(req, priority, ids[0], 0, |ids|, now), k)
    ensures MissAfter(CommitNth(t, req, ids, k, now), req, priority, ids[0], Prepared(req, priority, ids[0], 0, |ids|, now), k + 1)
  {
    var u := CommitNth(t, req, ids, k, now);
    var job := Prepared(req, priority, ids[0], k, |ids|, now);
    AdjustSeen(t.jobs[ids[k] := job], job.deps, 1);
    ReplaySnoc(t.manifest, NewEvent(ids[k], job, req.nhosts), t.queues);
    ReplayConfig(u.manifest, t.queues, u.queues);
    assert k > 0 ==> ids[0] != ids[k];
  }

  /** Exactly if the log holds less than the daemon keeps, the submission
      leaves a log that shows another job than the live one. */
  lemma {:induction false} SubmitMirrorsExactly(m: Tables, req: Request, now: int)
    requires ManifestOk(m) && GoodRequest(m, req) && forall j :: j in m.jobs ==> j <= m.lastId
    ensures ManifestOk(Submit(m, req, now)) <==> NewLoggable(req)
  {
    if NewLoggable(req) {
      SubmitMirrors(m, req, now);
    } else {
      var ids := DrawIds(m.jobs, m.lastId, Elements(req));
      var last := ids[|ids| - 1];
      var priority := m.queues[req.queue].priority;
      var job := Prepared(req, priority, ids[0], 0, |ids|, now);
      IdsConsecutive(m.jobs, m.lastId, Elements(req));
      var P := (t: Tables, k: nat) => MissAfter(t, req, priority, ids[0], job, k);
      forall t: Tables, k: nat | P(t, k) && k < |ids|
        ensures P(CommitNth(t, req, ids, k, now), k + 1)
      {
        CommitTurnMisses(t, req, ids, last, k, now, priority);
      }
      CommitLoop(P, m, req, ids, |ids|, now);
      NewSeen(req, priority, ids[0], 0, |ids|, now, ids[0]);
      Missed(Submit(m, req, now), req, priority, ids[0], job, |ids|);
    }
  }

  lemma {:induction false} Missed(t: Tables, req: Request, priority: int, first: JobId, job: Job, k: nat)
    requires MissAfter(t, req, priority, first, job, k) && k > 0
    requires See(job) != See(Allocated(NewEvent(first, job, req.nhosts).rec))
    ensures !ManifestOk(t)
  {
  }

  /** A dispatch is carried exactly if the names of its hosts fit their field. */
  lemma {:induction false} DispatchMirrorsExactly(m: Tables, j: JobId, plan: seq<HostId>, now: int)
    requires ManifestOk(m) && OnList(m, j, OnPend) && Placeable(m, m.jobs[j], plan) && now != 0 && N.PlainHosts(plan)
    ensures ManifestOk(Dispatch(m, j, plan, now)) <==> |N.Join(plan)| < N.LL_BUFSIZ_4K
  {
    N.HostsLoggedExactly(plan);
    if |N.Join(plan)| < N.LL_BUFSIZ_4K {
      DispatchMirrors(m, j, plan, now);
    } else {
      DispatchMissed(m, j, plan, now);
    }
  }

  lemma {:induction false} DispatchMissed(m: Tables, j: JobId, plan: seq<HostId>, now: int)
    requires ManifestOk(m) && OnList(m, j, OnPend) && now != 0
    requires N.PlainHosts(plan) && |N.Join(plan)| >= N.LL_BUFSIZ_4K
    ensures !ManifestOk(Dispatch(m, j, plan, now))
  {
    hide ReplayOne, See, Filed, JobsSound, AdjustRefs, ChargeAll, MoveTokens, Without, N.LoggedHosts, N.Join;
    var t := Dispatch(m, j, plan, now);
    var e := StartOn(j, m.jobs[j].(dispatchTime := now), plan);
    ReplaySnoc(m.manifest, e, m.queues);
    ReplayConfig(t.manifest, m.queues, t.queues);
    DispatchedOn(m, j, plan, now);
    StartMissed(Replay(m.manifest, m.queues).value, m.jobs, m.queues, j, plan, now, e);
  }

  lemma {:induction false} DispatchedOn(m: Tables, j: JobId, plan: seq<HostId>, now: int)
    requires OnList(m, j, OnPend) && now != 0
    ensures j in Dispatch(m, j, plan, now).jobs && See(Dispatch(m, j, plan, now).jobs[j]).runHosts == plan
  {
  }

  lemma {:induction false} StartMissed(r: Replayed, jobs: map<JobId, Job>, queues: map<QueueId, Queue>, j: JobId,
                                       plan: seq<HostId>, now: int, e: Event)
    requires Mirrors(r, jobs) && j in jobs && jobs[j].list == OnPend && now != 0
    requires e == StartOn(j, jobs[j].(dispatchTime := now), plan)
    requires N.PlainHosts(plan) && |N.Join(plan)| >= N.LL_BUFSIZ_4K
    ensures var next := ReplayOne(r, e, queues);
            next.Some? ==> j in next.value.jobs && See(next.value.jobs[j]).runHosts != plan
  {
    hide N.Join, N.PlainHosts, N.Words;
    assert See(r.jobs[j]) == See(jobs[j]) && ReplayedJob(r.jobs[j]);
    var hosts := StartedOn(r.jobs[j], e);
    assert hosts == N.LoggedHosts(plan)[..|hosts|];
    N.NotEvenAPrefix(plan, |hosts|);
  }

  lemma {:induction false} DispatchStepMirrors(m: Tables, step: Step, now: int)
    requires ManifestOk(m) && Enabled(m, step, now) && OfDispatch(step) && Loggable(step)
    ensures ManifestOk(Next(m, step, now))
  {
    hide ManifestOk, Dispatch, Fork, Finish, BackToPend, Replay;
    if step.DoReject? || step.DoMissing? || step.DoFinish? {
      OutcomeMirrors(m, step, now);
    } else {
      match step
      case DoDispatch(j, plan) => DispatchMirrorsExactly(m, j, plan, now);
      case DoFork(j, pid) => ForkMirrors(m, j, pid, now);
      case DoSignal(j, sig) => SignalLogged(m, j, now, sig);
    }
  }

  lemma {:induction false} OutcomeMirrors(m: Tables, step: Step, now: int)
    requires ManifestOk(m) && Enabled(m, step, now) && (step.DoReject? || step.DoMissing? || step.DoFinish?)
    ensures ManifestOk(Next(m, step, now))
  {
    hide ManifestOk, Finish, BackToPend, Replay;
    match step
    case DoReject(j) => BackMirrors(m, j, [], now);
    case DoMissing(j) => BackMirrors(m, j, m.jobs[j].runHosts, now);
    case DoFinish(j, success, exit) => FinishMirrors(m, j, success, exit, now);
  }

  lemma {:induction false} PendingStepMirrors(m: Tables, step: Step, now: int)
    requires ManifestOk(m) && Enabled(m, step, now) && OfPending(step)
    ensures ManifestOk(Next(m, step, now))
  {
    hide ManifestOk, Kill, SetHeld, Move, SetPriority, Replay;
    if step.DoHold? || step.DoResume? || step.DoKill? {
      HoldStepMirrors(m, step, now);
    } else {
      match step
      case DoMove(j, to) => MoveMirrors(m, j, to, now);
      case DoPriority(j, priority) => PriorityMirrors(m, j, priority, now);
    }
  }

  lemma {:induction false} HoldStepMirrors(m: Tables, step: Step, now: int)
    requires ManifestOk(m) && Enabled(m, step, now) && (step.DoHold? || step.DoResume? || step.DoKill?)
    ensures ManifestOk(Next(m, step, now))
  {
    hide ManifestOk, Kill, SetHeld, Replay;
    match step
    case DoKill(j, sig) => KillMirrors(m, j, sig, now);
    case DoHold(j, sig) => HoldMirrors(m, j, true, sig, now);
    case DoResume(j, sig) => HoldMirrors(m, j, false, sig, now);
  }

  lemma {:induction false} StepMirrors(m: Tables, step: Step, now: int)
    requires ManifestOk(m) && Enabled(m, step, now) && Loggable(step)
    requires forall j :: j in m.jobs ==> j <= m.lastId
    ensures ManifestOk(Next(m, step, now))
  {
    if OfDispatch(step) {
      DispatchStepMirrors(m, step, now);
    } else if OfPending(step) {
      PendingStepMirrors(m, step, now);
    } else {
      match step
      case DoSubmit(req) => SubmitMirrors(m, req, now);
      case DoFailSubmit(drawn) => ManifestIgnoresIds(m, m.(lastId := m.lastId + drawn));
      case DoMark(up) => ManifestIgnoresIds(m, m.(hosts := Mark(m.hosts, up)));
      case DoCompact => CompactMirrors(m);
      case DoRestart => RestartMirrors(m);
    }
  }

  // -------------------------------------------------------------------
  // Ids
  // -------------------------------------------------------------------

  ghost predicate LoggedUpTo(log: seq<Event>, n: nat) {
    forall i :: 0 <= i < |log| && log[i].EvNew? ==> log[i].job <= n
  }

  ghost predicate IdsUpTo(m: Tables, n: nat) {
    (forall j :: j in m.jobs ==> 0 < j <= n) && LoggedUpTo(m.manifest, n)
  }

  lemma {:induction false} RewrittenIds(ids: seq<JobId>, jobs: map<JobId, Job>, n: nat)
    requires forall j :: j in jobs ==> j <= n
    ensures LoggedUpTo(RewriteAll(ids, jobs), n)
  {
    if ids != [] {
      RewrittenIds(ids[..|ids| - 1], jobs, n);
    }
  }

  lemma {:induction false} CommitTurnIds(t: Tables, req: Request, ids: seq<JobId>, k: nat, now: int, last: nat)
    requires IdsUpTo(t, last) && req.queue in t.queues && k < |ids| && 0 < ids[k] <= last
    ensures IdsUpTo(CommitNth(t, req, ids, k, now), last) && req.queue in CommitNth(t, req, ids, k, now).queues
  {
    hide LoggedWords, KeptWords, Refs;
  }

  lemma {:induction false} SubmitKeepsIds(m: Tables, req: Request, now: int)
    requires IdsOk(m) && GoodRequest(m, req)
    ensures IdsOk(Submit(m, req, now))
  {
    var ids := DrawIds(m.jobs, m.lastId, Elements(req));
    var last := ids[|ids| - 1];
    IdsConsecutive(m.jobs, m.lastId, Elements(req));
    var P := (t: Tables, k: nat) => IdsUpTo(t, last) && req.queue in t.queues;
    forall t: Tables, k: nat | P(t, k) && k < |ids|
      ensures P(CommitNth(t, req, ids, k, now), k + 1)
    {
      CommitTurnIds(t, req, ids, k, now, last);
    }
    CommitLoop(P, m, req, ids, |ids|, now);
  }

  /** No step but a submission logs a new job or changes the table's ids. */
  lemma {:induction false} SameIds(m: Tables, step: Step, now: int)
    requires Enabled(m, step, now) && (OfDispatch(step) || OfPending(step))
    ensures var t := Next(m, step, now);
            && t.jobs.Keys == m.jobs.Keys && t.savedId == m.savedId && t.lastId == m.lastId
            && |m.manifest| < |t.manifest| && t.manifest[..|m.manifest|] == m.manifest
            && forall i :: |m.manifest| <= i < |t.manifest| ==> !t.manifest[i].EvNew?
  {
  }

  lemma {:induction false} StepKeepsIds(m: Tables, step: Step, now: int)
    requires IdsOk(m) && Enabled(m, step, now) && (step.DoRestart? ==> ManifestOk(m))
    ensures IdsOk(Next(m, step, now))
  {
    if OfDispatch(step) || OfPending(step) {
      SameIds(m, step, now);
      var t := Next(m, step, now);
      assert forall i :: 0 <= i < |m.manifest| ==> t.manifest[i] == t.manifest[..|m.manifest|][i];
    } else {
      match step
      case DoSubmit(req) => SubmitKeepsIds(m, req, now);
      case DoFailSubmit(_) =>
      case DoMark(_) =>
      case DoCompact => RewrittenIds(m.pend + m.run + Keep(m.fin, m.jobs), m.jobs, m.savedId);
      case DoRestart =>
        RestartMirrors(m);
        RestartedId(m, Replay(m.manifest, m.queues).value);
    }
  }

  // -------------------------------------------------------------------
  // Every run
  // -------------------------------------------------------------------

  lemma {:induction false} StepKeepsInv(m: Tables, step: Step, now: int)
    requires MbdInv(m) && Enabled(m, step, now) && Proper(step)
    ensures MbdInv(Next(m, step, now))
  {
    StepMirrors(m, step, now);
    StepKeepsIds(m, step, now);
    if step.DoRestart? {
      var r := Replay(m.manifest, m.queues).value;
      RestartKeepsCounters(m, r);
      RestartKeepsHosts(m, r);
      RestartKeepsJobs(m, r);
    } else {
      StepKeepsBooks(m, step, now);
    }
  }

  lemma {:induction false} RunInv(tr: seq<Tables>, steps: seq<Step>, clock: seq<int>, i: nat)
    requires IsRun(tr, steps, clock) && i < |tr|
    requires forall k :: 0 <= k < |steps| ==> Proper(steps[k])
    ensures MbdInv(tr[i])
  {
    if i == 0 {
      InitInv(tr[0]);
    } else {
      RunInv(tr, steps, clock, i - 1);
      StepKeepsInv(tr[i - 1], steps[i - 1], clock[i - 1]);
    }
  }

  // -------------------------------------------------------------------
  // What the invariants mean
  // -------------------------------------------------------------------

  /** Replay from empty gives the live table: ids, lists and every logged field. */
  lemma {:induction false} ReplayGivesLiveTable(tr: seq<Tables>, steps: seq<Step>, clock: seq<int>, i: nat)
    requires IsRun(tr, steps, clock) && i < |tr|
    requires forall k :: 0 <= k < |steps| ==> Proper(steps[k])
    ensures var m := tr[i];
            var r := Replay(m.manifest, m.queues);
            && r.Some? && r.value.jobs.Keys == m.jobs.Keys
            && (forall j :: j in m.jobs ==> See(r.value.jobs[j]) == See(m.jobs[j]))
            && (forall j :: j in r.value.pend <==> j in m.pend)
            && (forall j :: j in r.value.run <==> j in m.run)
            && (forall j :: j in r.value.fin <==> j in m.fin)
  {
    RunInv(tr, steps, clock, i);
    var m := tr[i];
    SameMembers(m, Replay(m.manifest, m.queues).value);
  }

  lemma {:induction false} SameMembers(m: Tables, r: Replayed)
    requires Mirrors(r, m.jobs) && ListsOk(m)
    ensures forall j :: j in r.pend <==> j in m.pend
    ensures forall j :: j in r.run <==> j in m.run
    ensures forall j :: j in r.fin <==> j in m.fin
  {
    forall j | j in m.jobs
      ensures r.jobs[j].list == m.jobs[j].list
    {
      assert See(r.jobs[j]) == See(m.jobs[j]);
    }
  }

  /** What the run list charges and what is free make up the host. */
  lemma {:induction false} HostConservation(m: Tables, h: HostId)
    requires BooksOk(m) && h in m.hosts
    ensures m.hosts[h].freeCpu + Total(HostCpu(h), m.jobs, m.lastId) == m.hosts[h].totalCpu
    ensures m.hosts[h].freeMem + Total(HostMem(h), m.jobs, m.lastId) == m.hosts[h].totalMem
    ensures m.hosts[h].freeStorage + Total(HostStorage(h), m.jobs, m.lastId) == m.hosts[h].totalStorage
    ensures 0 <= m.hosts[h].freeCpu <= m.hosts[h].totalCpu
    ensures 0 <= m.hosts[h].freeMem <= m.hosts[h].totalMem
    ensures 0 <= m.hosts[h].freeStorage <= m.hosts[h].totalStorage
  {
    var x, y, z := HostCpu(h), HostMem(h), HostStorage(h);
    assert Configured(x, m) && Configured(y, m) && Configured(z, m);
    assert Counter(x, m) == Total(x, m.jobs, m.lastId);
    assert Counter(y, m) == Total(y, m.jobs, m.lastId);
    assert Counter(z, m) == Total(z, m.jobs, m.lastId);
    NothingNegative(x, m.jobs, m.lastId);
    NothingNegative(y, m.jobs, m.lastId);
    NothingNegative(z, m.jobs, m.lastId);
  }

  lemma {:induction false} PoolConservation(m: Tables, p: PoolId)
    requires BooksOk(m) && p in m.pools
    ensures m.pools[p].free + Total(PoolUsed(p), m.jobs, m.lastId) == m.pools[p].total
    ensures m.pools[p].free <= m.pools[p].total
  {
    assert Configured(PoolUsed(p), m);
    NothingNegative(PoolUsed(p), m.jobs, m.lastId);
  }

  lemma {:induction false} TwoOnAHost(h: HostId, jobs: map<JobId, Job>, n: nat, i: JobId, j: JobId)
    requires 0 < i < j <= n && i in jobs && j in jobs
    requires jobs[i].list == OnRun && jobs[j].list == OnRun && h in jobs[i].runHosts && h in jobs[j].runHosts
    requires forall k :: k in jobs ==> jobs[k].cpus >= 0
    ensures Total(HostJobs(h), jobs, n) >= 2
  {
    if n == j {
      AtLeastOne(HostJobs(h), jobs, n - 1, i);
    } else {
      TwoOnAHost(h, jobs, n - 1, i, j);
    }
  }

  lemma {:induction false} SomeoneExclusive(h: HostId, jobs: map<JobId, Job>, n: nat) returns (j: JobId)
    requires Total(HostExclusive(h), jobs, n) > 0
    ensures j in jobs && jobs[j].list == OnRun && jobs[j].exclusive && h in jobs[j].runHosts
  {
    if n in jobs && Weight(HostExclusive(h), LoadOf(jobs[n])) > 0 {
      j := n;
    } else {
      j := SomeoneExclusive(h, jobs, n - 1);
    }
  }

  ghost predicate ExclusiveAt(m: Tables, j: JobId, h: HostId) {
    j in m.jobs && m.jobs[j].list == OnRun && m.jobs[j].exclusive && h in m.jobs[j].runHosts
  }

  /** An exclusive job is alone on each of its hosts. */
  lemma {:induction false} ExclusiveAlone(m: Tables, i: JobId, j: JobId, h: HostId)
    requires BooksOk(m) && ExclusiveAt(m, i, h)
    requires j in m.jobs && m.jobs[j].list == OnRun && h in m.jobs[j].runHosts
    ensures i == j
  {
    FlagAgrees(m, i, h);
    assert Configured(HostJobs(h), m);
    assert Counter(HostJobs(h), m) == m.hosts[h].numJobs == 1;
    if i < j { TwoOnAHost(h, m.jobs, m.lastId, i, j); }
    if j < i { TwoOnAHost(h, m.jobs, m.lastId, j, i); }
  }

  /** The host flag says exactly that. */
  lemma {:induction false} ExclusiveFlag(m: Tables, h: HostId)
    requires BooksOk(m) && h in m.hosts
    ensures m.hosts[h].exclusive <==> exists j :: ExclusiveAt(m, j, h)
  {
    assert Configured(HostExclusive(h), m);
    if m.hosts[h].exclusive {
      var j := SomeoneExclusive(h, m.jobs, m.lastId);
      assert ExclusiveAt(m, j, h);
    }
    if j :| ExclusiveAt(m, j, h) {
      FlagAgrees(m, j, h);
    }
  }

  // -------------------------------------------------------------------
  // Token pools
  // -------------------------------------------------------------------

  predicate DistinctPools(ts: seq<Token>) {
    forall i, k :: 0 <= i < k < |ts| ==> ts[i].pool != ts[k].pool
  }

  ghost predicate FullPools(pools: map<PoolId, Pool>) {
    forall p :: p in pools ==> pools[p].free >= 0 && pools[p].total >= 0
  }

  ghost predicate PoolsOk(m: Tables) {
    && FullPools(m.pools)
    && (forall j :: j in m.jobs ==> DistinctPools(m.jobs[j].tokens))
  }

  lemma {:induction false} TokensOnce(ts: seq<Token>, p: PoolId, bound: int)
    requires DistinctPools(ts) && bound >= 0
    requires forall i :: 0 <= i < |ts| && ts[i].pool == p ==> ts[i].count <= bound
    ensures TokensOf(ts, p) <= bound
  {
    if ts != [] {
      if ts[0].pool == p {
        TokensNone(ts[1..], p);
      } else {
        TokensOnce(ts[1..], p, bound);
      }
    }
  }

  lemma {:induction false} TokensNone(ts: seq<Token>, p: PoolId)
    requires forall i :: 0 <= i < |ts| ==> ts[i].pool != p
    ensures TokensOf(ts, p) == 0
  {
    if ts != [] { TokensNone(ts[1..], p); }
  }

  /** Checking each entry against the pool is enough when a job names a pool once. */
  lemma {:induction false} DispatchKeepsPools(m: Tables, j: JobId, plan: seq<HostId>, now: int)
    requires PoolsOk(m) && CanDispatch(m, j, plan)
    ensures FullPools(Dispatch(m, j, plan, now).pools)
  {
    TakenOnce(m.pools, m.jobs[j].tokens);
  }

  /** The largest entry of a pool. */
  function MostOf(ts: seq<Token>, p: PoolId): nat {
    if ts == [] then 0
    else
      var rest := MostOf(ts[1..], p);
      if ts[0].pool == p && ts[0].count > rest then ts[0].count else rest
  }

  lemma {:induction false} MostIsMost(ts: seq<Token>, p: PoolId, i: nat)
    requires i < |ts| && ts[i].pool == p
    ensures ts[i].count <= MostOf(ts, p) <= TokensOf(ts, p)
  {
    MostWithin(ts, p);
    if i > 0 { MostIsMost(ts[1..], p, i - 1); }
  }

  lemma {:induction false} MostWithin(ts: seq<Token>, p: PoolId)
    ensures MostOf(ts, p) <= TokensOf(ts, p)
  {
    if ts != [] { MostWithin(ts[1..], p); }
  }

  lemma {:induction false} TwiceIsMore(ts: seq<Token>, p: PoolId, i: nat, k: nat)
    requires i < k < |ts| && ts[i].pool == p == ts[k].pool && forall n :: 0 <= n < |ts| ==> ts[n].count > 0
    ensures MostOf(ts, p) < TokensOf(ts, p)
  {
    if i == 0 {
      MostIsMost(ts[1..], p, k - 1);
    } else {
      TwiceIsMore(ts[1..], p, i - 1, k - 1);
    }
  }

  /** Pools with just what the largest entry asks for. */
  function TightPools(ts: seq<Token>): map<PoolId, Pool> {
    map p | p in (set t | t in ts :: t.pool) :: Pool(MostOf(ts, p), MostOf(ts, p))
  }

  lemma {:induction false} TightAvailable(ts: seq<Token>)
    ensures FullPools(TightPools(ts)) && TokensAvailable(TightPools(ts), ts)
  {
    forall i | 0 <= i < |ts|
      ensures ts[i].pool in TightPools(ts) && TightPools(ts)[ts[i].pool].free >= ts[i].count
    {
      assert ts[i] in ts;
      MostIsMost(ts, ts[i].pool, i);
    }
  }

  /** Checking the entries one by one is enough, whatever the pools hold,
      exactly if a job names no pool twice. */
  lemma {:induction false} DistinctPoolsExactly(ts: seq<Token>)
    requires forall i :: 0 <= i < |ts| ==> ts[i].count > 0
    ensures (forall pools :: FullPools(pools) && TokensAvailable(pools, ts) ==> FullPools(MoveTokens(pools, ts, -1)))
            <==> DistinctPools(ts)
  {
    if DistinctPools(ts) {
      forall pools | FullPools(pools) && TokensAvailable(pools, ts)
        ensures FullPools(MoveTokens(pools, ts, -1))
      {
        TakenOnce(pools, ts);
      }
    } else {
      var i, k :| 0 <= i < k < |ts| && ts[i].pool == ts[k].pool;
      var p, pools := ts[i].pool, TightPools(ts);
      TightAvailable(ts);
      TwiceIsMore(ts, p, i, k);
      TokensMoved(pools, ts, -1);
      assert ts[i] in ts && p in pools;
      assert MoveTokens(pools, ts, -1)[p].free < 0;
    }
  }

  lemma {:induction false} TakenOnce(pools: map<PoolId, Pool>, ts: seq<Token>)
    requires DistinctPools(ts) && FullPools(pools) && TokensAvailable(pools, ts)
    ensures FullPools(MoveTokens(pools, ts, -1))
  {
    TokensMoved(pools, ts, -1);
    forall p | p in pools
      ensures pools[p].free >= TokensOf(ts, p)
    {
      TokensOnce(ts, p, pools[p].free);
    }
  }

  lemma {:induction false} StepTokens(m: Tables, step: Step, now: int, j: JobId)
    requires Enabled(m, step, now) && (OfDispatch(step) || OfPending(step)) && j in Next(m, step, now).jobs
    ensures j in m.jobs && Next(m, step, now).jobs[j].tokens == m.jobs[j].tokens
  {
    hide ChargeAll, ReleaseAll, MoveTokens, Without, Refs;
  }

  lemma {:induction false} PoolsReturned(pools: map<PoolId, Pool>, ts: seq<Token>)
    requires FullPools(pools)
    ensures FullPools(MoveTokens(pools, ts, 1))
  {
    TokensMoved(pools, ts, 1);
  }

  lemma {:induction false} StepPools(m: Tables, step: Step, now: int)
    requires PoolsOk(m) && Enabled(m, step, now) && (OfDispatch(step) || OfPending(step))
    ensures FullPools(Next(m, step, now).pools)
  {
    hide ChargeAll, ReleaseAll, MoveTokens, Without, AdjustRefs, ElementFinished;
    match step
    case DoDispatch(j, plan) => DispatchKeepsPools(m, j, plan, now);
    case DoReject(j) => PoolsReturned(m.pools, m.jobs[j].tokens);
    case DoMissing(j) => PoolsReturned(m.pools, m.jobs[j].tokens);
    case DoFinish(j, _, _) => PoolsReturned(m.pools, m.jobs[j].tokens);
    case _ =>
  }

  lemma {:induction false} SubmitKeepsPools(m: Tables, req: Request, now: int)
    requires PoolsOk(m) && GoodRequest(m, req) && DistinctPools(req.tokens)
    ensures PoolsOk(Submit(m, req, now))
  {
    var ids := DrawIds(m.jobs, m.lastId, Elements(req));
    var P := (t: Tables, k: nat) => PoolsOk(t) && req.queue in t.queues;
    CommitLoop(P, m, req, ids, |ids|, now);
  }

  lemma {:induction false} RestartKeepsPools(m: Tables, r: Replayed)
    requires PoolsOk(m) && Mirrors(r, m.jobs)
    ensures PoolsOk(Restart(m, r))
  {
    hide RebuildElements, RebuildRefs, RebuildHosts, RebuildQueues, Filed, See;
    RestartJobs(m, r);
    forall j | j in r.jobs
      ensures r.jobs[j].tokens == []
    {
      assert ReplayedJob(r.jobs[j]);
    }
  }

  /** A pool never goes negative while every request names a pool at most once. */
  lemma {:induction false} StepKeepsPools(m: Tables, step: Step, now: int)
    requires PoolsOk(m) && Enabled(m, step, now) && (step.DoRestart? ==> ManifestOk(m))
    requires step.DoSubmit? ==> DistinctPools(step.req.tokens)
    ensures PoolsOk(Next(m, step, now))
  {
    if OfDispatch(step) || OfPending(step) {
      StepPools(m, step, now);
      forall j | j in Next(m, step, now).jobs
        ensures DistinctPools(Next(m, step, now).jobs[j].tokens)
      {
        StepTokens(m, step, now, j);
      }
    } else {
      match step
      case DoSubmit(req) => SubmitKeepsPools(m, req, now);
      case DoFailSubmit(_) =>
      case DoMark(_) =>
      case DoCompact =>
      case DoRestart => RestartKeepsPools(m, Replay(m.manifest, m.queues).value);
    }
  }

  lemma {:induction false} RunKeepsPools(tr: seq<Tables>, steps: seq<Step>, clock: seq<int>, i: nat)
    requires IsRun(tr, steps, clock) && i < |tr|
    requires forall k :: 0 <= k < |steps| ==> Proper(steps[k])
    requires forall k :: 0 <= k < |steps| && steps[k].DoSubmit? ==> DistinctPools(steps[k].req.tokens)
    ensures PoolsOk(tr[i])
  {
    if i > 0 {
      RunKeepsPools(tr, steps, clock, i - 1);
      RunInv(tr, steps, clock, i - 1);
      StepKeepsPools(tr[i - 1], steps[i - 1], clock[i - 1]);
    }
  }

  // -------------------------------------------------------------------
  // Ids are never reissued
  // -------------------------------------------------------------------

  lemma {:induction false} SubmitSaves(m: Tables, req: Request, now: int)
    requires IdsOk(m) && GoodRequest(m, req)
    ensures Submit(m, req, now).savedId > m.lastId
  {
    IdsConsecutive(m.jobs, m.lastId, Elements(req));
  }

  lemma {:induction false} StepSaves(m: Tables, step: Step, now: int)
    requires IdsOk(m) && Enabled(m, step, now)
    ensures m.savedId <= Next(m, step, now).savedId
  {
    if step.DoSubmit? { SubmitSaves(m, step.req, now); }
  }

  lemma {:induction false} SavedAt(tr: seq<Tables>, steps: seq<Step>, clock: seq<int>, i: nat)
    requires IsRun(tr, steps, clock) && i < |steps|
    requires forall n :: 0 <= n < |steps| ==> Proper(steps[n])
    ensures tr[i].savedId <= tr[i + 1].savedId
  {
    RunInv(tr, steps, clock, i);
    StepSaves(tr[i], steps[i], clock[i]);
  }

  lemma {:induction false} SavedGrows(tr: seq<Tables>, steps: seq<Step>, clock: seq<int>, i: nat, k: nat)
    requires IsRun(tr, steps, clock) && i <= k < |tr|
    requires forall n :: 0 <= n < |steps| ==> Proper(steps[n])
    ensures tr[i].savedId <= tr[k].savedId
    decreases k
  {
    if i < k {
      SavedGrows(tr, steps, clock, i, k - 1);
      SavedAt(tr, steps, clock, k - 1);
    }
  }

  /** Across restarts, purges and failed submissions, a submission draws ids
      above every job the daemon ever had. */
  lemma {:induction false} NeverReissued(tr: seq<Tables>, steps: seq<Step>, clock: seq<int>, i: nat, k: nat, j: JobId, n: nat)
    requires IsRun(tr, steps, clock) && i <= k < |steps| && steps[k].DoSubmit?
    requires forall l :: 0 <= l < |steps| ==> Proper(steps[l])
    requires j in tr[i].jobs && n < Elements(steps[k].req)
    ensures j < DrawIds(tr[k].jobs, tr[k].lastId, Elements(steps[k].req))[n]
  {
    RunInv(tr, steps, clock, i);
    RunInv(tr, steps, clock, k);
    SavedGrows(tr, steps, clock, i, k);
    IdsConsecutive(tr[k].jobs, tr[k].lastId, Elements(steps[k].req));
  }
}
