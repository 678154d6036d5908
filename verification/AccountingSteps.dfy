/**
 Every handler moves every counter by exactly what the job it touches
 contributes before and after.
 */
module AccountingSteps {
  import opened Mbd
  import opened Accounting

  // -------------------------------------------------------------------
  // Facts about one host
  // -------------------------------------------------------------------

  lemma {:induction false} ChargeCounts(x: Measure, h: Host, job: Job)
    requires OfHost(x) && !h.exclusive
    ensures HostCounter(x, Charge(h, job)) == HostCounter(x, h) + Share(x, LoadOf(job))
  {
  }

  lemma {:induction false} ReleaseCounts(x: Measure, h: Host, job: Job)
    requires OfHost(x) && (job.exclusive ==> h.exclusive)
    ensures HostCounter(x, Release(h, job)) == HostCounter(x, h) - Share(x, LoadOf(job))
  {
  }

  lemma {:induction false} NothingNegative(x: Measure, jobs: map<JobId, Job>, n: nat)
    requires x.HostCpu? || x.HostUsed? ==> forall j :: j in jobs ==> jobs[j].cpus >= 0
    requires !OfQueue(x)
    ensures Total(x, jobs, n) >= 0
  {
    if n > 0 { NothingNegative(x, jobs, n - 1); }
  }

  lemma {:induction false} AtLeastOne(x: Measure, jobs: map<JobId, Job>, n: nat, j: JobId)
    requires x.HostCpu? || x.HostUsed? ==> forall k :: k in jobs ==> jobs[k].cpus >= 0
    requires !OfQueue(x) && 0 < j <= n && j in jobs
    ensures Total(x, jobs, n) >= Weight(x, LoadOf(jobs[j]))
  {
    if n == j { NothingNegative(x, jobs, n - 1); } else { AtLeastOne(x, jobs, n - 1, j); }
  }

  /** Jobs on a host outnumber the exclusive ones there by at least the others. */
  lemma {:induction false} ExclusiveAmongJobs(h: HostId, jobs: map<JobId, Job>, n: nat)
    ensures 0 <= Total(HostExclusive(h), jobs, n) <= Total(HostJobs(h), jobs, n)
  {
    if n > 0 { ExclusiveAmongJobs(h, jobs, n - 1); }
  }

  lemma {:induction false} SharedMeansTwo(h: HostId, jobs: map<JobId, Job>, n: nat, j: JobId)
    requires 0 < j <= n && j in jobs && jobs[j].list == OnRun && h in jobs[j].runHosts && !jobs[j].exclusive
    ensures Total(HostExclusive(h), jobs, n) < Total(HostJobs(h), jobs, n)
  {
    if n == j { ExclusiveAmongJobs(h, jobs, n - 1); } else { SharedMeansTwo(h, jobs, n - 1, j); }
  }

  /** The host flag agrees with any job that runs there. */
  lemma {:induction false} FlagAgrees(m: Tables, j: JobId, h: HostId)
    requires BooksOk(m) && j in m.jobs && m.jobs[j].list == OnRun && h in m.jobs[j].runHosts
    ensures h in m.hosts && (m.jobs[j].exclusive <==> m.hosts[h].exclusive)
  {
    var x, y := HostExclusive(h), HostJobs(h);
    assert h in m.hosts;
    assert Configured(x, m) && Configured(y, m);
    assert Counter(x, m) == Total(x, m.jobs, m.lastId) && Counter(y, m) == Total(y, m.jobs, m.lastId);
    if m.jobs[j].exclusive {
      AtLeastOne(x, m.jobs, m.lastId, j);
    } else {
      SharedMeansTwo(h, m.jobs, m.lastId, j);
    }
  }

  // -------------------------------------------------------------------
  // Dispatch
  // -------------------------------------------------------------------

  predicate CanDispatch(m: Tables, j: JobId, plan: seq<HostId>) {
    OnList(m, j, OnPend) && m.jobs[j].state == Pending && Placeable(m, m.jobs[j], plan)
  }

  lemma {:induction false} InPlan(m: Tables, job: Job, plan: seq<HostId>, h: HostId)
    requires Placeable(m, job, plan) && h in plan
    ensures h in m.hosts && Meets(m.hosts[h], job) && h in m.queues[job.queue].members
  {
    var i :| 0 <= i < |plan| && plan[i] == h;
  }

  lemma {:induction false} DispatchMovesHost(m: Tables, j: JobId, plan: seq<HostId>, now: int, x: Measure)
    requires CanDispatch(m, j, plan) && OfHost(x) && Configured(x, m)
    ensures Dispatch(m, j, plan, now).hosts.Keys == m.hosts.Keys
    ensures Configured(x, Dispatch(m, j, plan, now))
    ensures Counter(x, Dispatch(m, j, plan, now)) - Counter(x, m)
            == Weight(x, LoadOf(Dispatch(m, j, plan, now).jobs[j])) - Weight(x, LoadOf(m.jobs[j]))
  {
    var job := m.jobs[j].(state := Running, list := OnRun, dispatchTime := now, runHosts := plan);
    ChargedEach(m.hosts, plan, job);
    if x.h in plan {
      InPlan(m, m.jobs[j], plan, x.h);
      ChargeCounts(x, m.hosts[x.h], job);
    }
  }

  lemma {:induction false} DispatchMoves(m: Tables, j: JobId, plan: seq<HostId>, now: int, x: Measure)
    requires CanDispatch(m, j, plan) && Configured(x, m)
    ensures Configured(x, Dispatch(m, j, plan, now))
    ensures Counter(x, Dispatch(m, j, plan, now)) - Counter(x, m)
            == Weight(x, LoadOf(Dispatch(m, j, plan, now).jobs[j])) - Weight(x, LoadOf(m.jobs[j]))
  {
    hide ChargeAll, MoveTokens, Without, Refs;
    if OfHost(x) {
      DispatchMovesHost(m, j, plan, now, x);
    } else {
      TokensMoved(m.pools, m.jobs[j].tokens, -1);
    }
  }

  lemma {:induction false} DispatchKeepsCounters(m: Tables, j: JobId, plan: seq<HostId>, now: int)
    requires BooksOk(m) && CanDispatch(m, j, plan)
    ensures CountersOk(Dispatch(m, j, plan, now))
  {
    var t := Dispatch(m, j, plan, now);
    var job := m.jobs[j].(state := Running, list := OnRun, dispatchTime := now, runHosts := plan);
    AdjustKeepsLoads(m.jobs[j := job], job.deps, -1);
    ChargedEach(m.hosts, plan, job);
    TokensMoved(m.pools, job.tokens, -1);
    forall x | Configured(x, m)
      ensures Counter(x, t) - Counter(x, m) == Weight(x, LoadOf(t.jobs[j])) - Weight(x, LoadOf(m.jobs[j]))
    {
      DispatchMoves(m, j, plan, now, x);
    }
    OneJobMoved(m, t, j);
  }

  lemma {:induction false} DispatchKeepsHosts(m: Tables, j: JobId, plan: seq<HostId>, now: int)
    requires BooksOk(m) && CanDispatch(m, j, plan)
    ensures HostsOk(Dispatch(m, j, plan, now))
  {
    var job := m.jobs[j].(state := Running, list := OnRun, dispatchTime := now, runHosts := plan);
    ChargedEach(m.hosts, plan, job);
    forall h | h in m.hosts && h in plan
      ensures Meets(m.hosts[h], m.jobs[j]) && m.hosts[h].numJobs >= 0
    {
      InPlan(m, m.jobs[j], plan, h);
      var y := HostJobs(h);
      assert Configured(y, m);
      assert Counter(y, m) == m.hosts[h].numJobs;
      NothingNegative(y, m.jobs, m.lastId);
    }
  }

  /** JobsOk looks at loads only. */
  lemma {:induction false} JobsOkBut(m: Tables, t: Tables, j: JobId)
    requires JobsOk(m) && t.lastId == m.lastId && t.queues.Keys == m.queues.Keys && t.hosts.Keys == m.hosts.Keys
    requires forall k :: k in t.jobs && k != j ==> k in m.jobs && LoadOf(t.jobs[k]) == LoadOf(m.jobs[k])
    requires j in m.jobs && j in t.jobs && t.jobs[j].queue in t.queues && t.jobs[j].cpus >= 0
    requires t.jobs[j].list == OnPend ==> t.jobs[j].state in {Pending, Held}
    requires t.jobs[j].list == OnRun ==>
               DistinctHosts(t.jobs[j].runHosts) && t.jobs[j].state == Running
               && forall h :: h in t.jobs[j].runHosts ==> h in t.hosts
    ensures JobsOk(t)
  {
  }

  lemma {:induction false} DispatchKeepsJobs(m: Tables, j: JobId, plan: seq<HostId>, now: int)
    requires BooksOk(m) && CanDispatch(m, j, plan)
    ensures JobsOk(Dispatch(m, j, plan, now))
  {
    var job := m.jobs[j].(state := Running, list := OnRun, dispatchTime := now, runHosts := plan);
    var t := Dispatch(m, j, plan, now);
    AdjustKeepsLoads(m.jobs[j := job], job.deps, -1);
    ChargedEach(m.hosts, plan, job);
    forall h | h in plan
      ensures h in m.hosts
    {
      InPlan(m, m.jobs[j], plan, h);
    }
    JobsOkBut(m, t, j);
  }

  // -------------------------------------------------------------------
  // Finish, reject, missing
  // -------------------------------------------------------------------

  /** t is m with j off the run list and its charges returned by Settle. */
  ghost predicate Settled(m: Tables, t: Tables, j: JobId, jobsBack: int, pendBack: int) {
    && OnList(m, j, OnRun) && j in t.jobs
    && t.hosts == Settle(m, j, jobsBack, pendBack).hosts
    && t.queues == Settle(m, j, jobsBack, pendBack).queues
    && t.pools == Settle(m, j, jobsBack, pendBack).pools
    && t.lastId == m.lastId
    && t.jobs.Keys == m.jobs.Keys
    && (forall k :: k in m.jobs && k != j ==> LoadOf(t.jobs[k]) == LoadOf(m.jobs[k]))
    && t.jobs[j].queue == m.jobs[j].queue && t.jobs[j].cpus == m.jobs[j].cpus
    && (if pendBack == 1 then jobsBack == 0 && t.jobs[j].list == OnPend && t.jobs[j].state == Pending
        else pendBack == 0 && jobsBack == -1 && t.jobs[j].list == OnFinish)
  }

  lemma {:induction false} SettleMovesHost(m: Tables, t: Tables, j: JobId, jobsBack: int, pendBack: int, x: Measure)
    requires Settled(m, t, j, jobsBack, pendBack) && OfHost(x) && Configured(x, m)
    requires DistinctHosts(m.jobs[j].runHosts)
    requires x.h in m.jobs[j].runHosts && m.jobs[j].exclusive ==> m.hosts[x.h].exclusive
    ensures Configured(x, t)
    ensures Counter(x, t) - Counter(x, m) == Weight(x, LoadOf(t.jobs[j])) - Weight(x, LoadOf(m.jobs[j]))
  {
    var job := m.jobs[j];
    ReleasedEach(m.hosts, job.runHosts, job);
    if x.h in job.runHosts {
      ReleaseCounts(x, m.hosts[x.h], job);
    }
  }

  lemma {:induction false} SettleMoves(m: Tables, t: Tables, j: JobId, jobsBack: int, pendBack: int, x: Measure)
    requires BooksOk(m) && Settled(m, t, j, jobsBack, pendBack) && Configured(x, m)
    ensures Configured(x, t)
    ensures Counter(x, t) - Counter(x, m) == Weight(x, LoadOf(t.jobs[j])) - Weight(x, LoadOf(m.jobs[j]))
  {
    if OfHost(x) {
      if x.h in m.jobs[j].runHosts { FlagAgrees(m, j, x.h); }
      SettleMovesHost(m, t, j, jobsBack, pendBack, x);
    } else if x.PoolUsed? {
      TokensMoved(m.pools, m.jobs[j].tokens, 1);
    } else {
      SettleMovesQueue(m, t, j, jobsBack, pendBack, x);
    }
  }

  lemma {:induction false} SettleMovesQueue(m: Tables, t: Tables, j: JobId, jobsBack: int, pendBack: int, x: Measure)
    requires Settled(m, t, j, jobsBack, pendBack) && OfQueue(x) && Configured(x, m)
    ensures Configured(x, t)
    ensures Counter(x, t) - Counter(x, m) == Weight(x, LoadOf(t.jobs[j])) - Weight(x, LoadOf(m.jobs[j]))
  {
    if x.q == m.jobs[j].queue {
      SettleShare(m.queues[x.q], LoadOf(m.jobs[j]), LoadOf(t.jobs[j]), jobsBack, pendBack, x);
    }
  }

  lemma {:induction false} SettleShare(q: Queue, before: Load, after: Load, jobsBack: int, pendBack: int, x: Measure)
    requires OfQueue(x) && before.list == OnRun
    requires (pendBack == 1 && jobsBack == 0 && after.list == OnPend && after.state == Pending)
             || (pendBack == 0 && jobsBack == -1 && after.list == OnFinish)
    ensures QueueCounter(x, q.(numRun := q.numRun - 1, numJobs := q.numJobs + jobsBack, numPend := q.numPend + pendBack,
                               cpusUsed := q.cpusUsed - before.cpus * |before.runHosts|,
                               hostsUsed := q.hostsUsed - |before.runHosts|))
            == QueueCounter(x, q) - QueueShare(x, before) + QueueShare(x, after)
  {
  }

  lemma {:induction false} SettleKeepsCounters(m: Tables, t: Tables, j: JobId, jobsBack: int, pendBack: int)
    requires BooksOk(m) && Settled(m, t, j, jobsBack, pendBack)
    ensures CountersOk(t)
  {
    var job := m.jobs[j];
    ReleasedEach(m.hosts, job.runHosts, job);
    TokensMoved(m.pools, job.tokens, 1);
    forall x | Configured(x, m)
      ensures Counter(x, t) - Counter(x, m) == Weight(x, LoadOf(t.jobs[j])) - Weight(x, LoadOf(m.jobs[j]))
    {
      SettleMoves(m, t, j, jobsBack, pendBack, x);
    }
    OneJobMoved(m, t, j);
  }

  lemma {:induction false} SettleKeepsHosts(m: Tables, t: Tables, j: JobId, jobsBack: int, pendBack: int)
    requires BooksOk(m) && Settled(m, t, j, jobsBack, pendBack)
    ensures HostsOk(t)
  {
    var job := m.jobs[j];
    ReleasedEach(m.hosts, job.runHosts, job);
    forall h | h in m.hosts && h in job.runHosts
      ensures job.exclusive <==> m.hosts[h].exclusive
    {
      FlagAgrees(m, j, h);
    }
  }

  lemma {:induction false} SettleKeepsBooks(m: Tables, t: Tables, j: JobId, jobsBack: int, pendBack: int)
    requires BooksOk(m) && Settled(m, t, j, jobsBack, pendBack)
    ensures BooksOk(t)
  {
    SettleKeepsCounters(m, t, j, jobsBack, pendBack);
    SettleKeepsHosts(m, t, j, jobsBack, pendBack);
    ReleasedEach(m.hosts, m.jobs[j].runHosts, m.jobs[j]);
    JobsOkBut(m, t, j);
  }

  lemma {:induction false} FinishKeepsBooks(m: Tables, j: JobId, success: bool, exit: int, now: int)
    requires BooksOk(m) && OnList(m, j, OnRun)
    ensures BooksOk(Finish(m, j, success, exit, now))
  {
    var job := m.jobs[j].(endTime := now, exitStatus := exit, list := OnFinish,
                          state := if success then Done else Exited);
    ElementKeepsLoads(m.jobs[j := job], job.tag.id);
    SettleKeepsBooks(m, Finish(m, j, success, exit, now), j, -1, 0);
  }

  lemma {:induction false} BackKeepsBooks(m: Tables, j: JobId, runHosts: seq<HostId>, now: int)
    requires BooksOk(m) && OnList(m, j, OnRun)
    ensures BooksOk(BackToPend(m, j, runHosts, now))
  {
    SettleKeepsBooks(m, BackToPend(m, j, runHosts, now), j, 0, 1);
  }

  // -------------------------------------------------------------------
  // Pending jobs
  // -------------------------------------------------------------------

  /** Only j changed, it stays off the run list, and only queues changed besides. */
  ghost predicate Requeued(m: Tables, t: Tables, j: JobId) {
    && OnList(m, j, OnPend) && j in t.jobs && t.jobs[j].list != OnRun
    && t.jobs[j].queue in m.queues && t.jobs[j].cpus == m.jobs[j].cpus
    && (t.jobs[j].list == OnPend ==> t.jobs[j].state in {Pending, Held})
    && t.hosts == m.hosts && t.pools == m.pools && t.queues.Keys == m.queues.Keys
    && t.lastId == m.lastId && t.jobs.Keys == m.jobs.Keys
    && (forall k :: k in m.jobs && k != j ==> LoadOf(t.jobs[k]) == LoadOf(m.jobs[k]))
  }

  lemma {:induction false} RequeuedKeepsBooks(m: Tables, t: Tables, j: JobId)
    requires BooksOk(m) && Requeued(m, t, j)
    requires forall x :: OfQueue(x) && Configured(x, m) ==> QueueFollows(m, t, j, x)
    ensures BooksOk(t)
  {
    forall x | Configured(x, m)
      ensures Counter(x, t) - Counter(x, m) == Weight(x, LoadOf(t.jobs[j])) - Weight(x, LoadOf(m.jobs[j]))
    {
      if OfQueue(x) { assert QueueFollows(m, t, j, x); } else { assert Counter(x, t) == Counter(x, m); }
    }
    OneJobMoved(m, t, j);
    JobsOkBut(m, t, j);
  }

  /** The queue counters went from counting m's j to counting t's. */
  ghost predicate QueueFollows(m: Tables, t: Tables, j: JobId, x: Measure)
    requires Requeued(m, t, j) && Configured(x, m)
  {
    Counter(x, t) - Counter(x, m) == Weight(x, LoadOf(t.jobs[j])) - Weight(x, LoadOf(m.jobs[j]))
  }

  lemma {:induction false} KillRequeues(m: Tables, j: JobId, sig: Sig, now: int)
    requires 0 < j <= m.lastId && OnList(m, j, OnPend)
    ensures Requeued(m, Kill(m, j, sig, now), j)
    ensures Kill(m, j, sig, now).jobs[j].queue == m.jobs[j].queue && Kill(m, j, sig, now).jobs[j].list == OnFinish
  {
    var job := m.jobs[j].(endTime := now, state := Exited, list := OnFinish);
    AdjustKeepsLoads(m.jobs[j := job], job.deps, -1);
    ElementKeepsLoads(AdjustRefs(m.jobs[j := job], job.deps, -1), job.tag.id);
  }

  lemma {:induction false} KillMoves(m: Tables, t: Tables, j: JobId, sig: Sig, now: int, x: Measure)
    requires Requeued(m, t, j) && t.queues == Kill(m, j, sig, now).queues && OfQueue(x) && Configured(x, m)
    requires t.jobs[j].queue == m.jobs[j].queue && t.jobs[j].list == OnFinish
    ensures QueueFollows(m, t, j, x)
  {
  }

  lemma {:induction false} KillKeepsBooks(m: Tables, j: JobId, sig: Sig, now: int)
    requires BooksOk(m) && OnList(m, j, OnPend)
    ensures BooksOk(Kill(m, j, sig, now))
  {
    var t := Kill(m, j, sig, now);
    KillRequeues(m, j, sig, now);
    forall x | OfQueue(x) && Configured(x, m)
      ensures QueueFollows(m, t, j, x)
    {
      KillMoves(m, t, j, sig, now, x);
    }
    RequeuedKeepsBooks(m, t, j);
  }

  lemma {:induction false} HoldRequeues(m: Tables, j: JobId, hold: bool, sig: Sig, now: int)
    requires JobsOk(m) && OnList(m, j, OnPend)
    ensures Requeued(m, SetHeld(m, j, hold, sig, now), j)
  {
  }

  lemma {:induction false} HoldMoves(m: Tables, t: Tables, j: JobId, hold: bool, sig: Sig, now: int, x: Measure)
    requires Requeued(m, t, j) && t == SetHeld(m, j, hold, sig, now) && OfQueue(x) && Configured(x, m)
    requires m.jobs[j].state == (if hold then Pending else Held)
    ensures QueueFollows(m, t, j, x)
  {
  }

  lemma {:induction false} HoldKeepsBooks(m: Tables, j: JobId, hold: bool, sig: Sig, now: int)
    requires BooksOk(m) && OnList(m, j, OnPend) && m.jobs[j].state == (if hold then Pending else Held)
    ensures BooksOk(SetHeld(m, j, hold, sig, now))
  {
    var t := SetHeld(m, j, hold, sig, now);
    HoldRequeues(m, j, hold, sig, now);
    forall x | OfQueue(x) && Configured(x, m)
      ensures QueueFollows(m, t, j, x)
    {
      HoldMoves(m, t, j, hold, sig, now, x);
    }
    RequeuedKeepsBooks(m, t, j);
  }

  lemma {:induction false} MoveKeepsBooks(m: Tables, j: JobId, to: QueueId, now: int)
    requires BooksOk(m) && OnList(m, j, OnPend) && to in m.queues
    ensures BooksOk(Move(m, j, to, now))
  {
    var t := Move(m, j, to, now);
    assert Requeued(m, t, j);
    forall x | OfQueue(x) && Configured(x, m)
      ensures QueueFollows(m, t, j, x)
    {
    }
    RequeuedKeepsBooks(m, t, j);
  }

  // -------------------------------------------------------------------
  // Submission
  // -------------------------------------------------------------------

  /** The books with the recount taken up to n. */
  ghost predicate BooksUpTo(m: Tables, n: nat) {
    BooksOk(m.(lastId := n))
  }

  predicate Waiting(job: Job, m: Tables) {
    job.queue in m.queues && job.list == OnPend && job.state in {Pending, Held} && job.cpus >= 0
  }

  lemma {:induction false} CommitMoves(m: Tables, j: JobId, job: Job, nhosts: int, x: Measure)
    requires Waiting(job, m) && Configured(x, m)
    ensures Configured(x, Commit(m, j, job, nhosts))
    ensures Counter(x, Commit(m, j, job, nhosts)) == Counter(x, m) + Weight(x, LoadOf(job))
  {
  }

  lemma {:induction false} CommitCounts(m: Tables, j: JobId, job: Job, nhosts: int, n: nat, x: Measure)
    requires BooksUpTo(m, n) && j !in m.jobs && 0 < j <= n
    requires Waiting(job, m) && Configured(x, m)
    ensures Configured(x, Commit(m, j, job, nhosts))
    ensures Counter(x, Commit(m, j, job, nhosts)) == Total(x, Commit(m, j, job, nhosts).jobs, n)
  {
    var t := Commit(m, j, job, nhosts);
    assert Configured(x, m.(lastId := n));
    assert Counter(x, m.(lastId := n)) == Total(x, m.jobs, n);
    TotalAdded(x, m.jobs, j, job, n);
    AdjustKeepsLoads(m.jobs[j := job], job.deps, 1);
    TotalSame(x, m.jobs[j := job], t.jobs, n);
    CommitMoves(m, j, job, nhosts, x);
  }

  lemma {:induction false} CommitKeepsBooks(m: Tables, j: JobId, job: Job, nhosts: int, n: nat)
    requires BooksUpTo(m, n) && j !in m.jobs && 0 < j <= n
    requires Waiting(job, m)
    ensures BooksUpTo(Commit(m, j, job, nhosts), n)
  {
    hide Total, LoggedWords, Refs, Weight, AdjustRefs;
    var t := Commit(m, j, job, nhosts).(lastId := n);
    forall x | Configured(x, t)
      ensures Counter(x, t) == Total(x, t.jobs, n)
    {
      assert Configured(x, m);
      CommitCounts(m, j, job, nhosts, n, x);
      assert Counter(x, t) == Counter(x, Commit(m, j, job, nhosts));
    }
    CommitKeepsJobs(m, j, job, nhosts, n);
  }

  lemma {:induction false} CommitKeepsJobs(m: Tables, j: JobId, job: Job, nhosts: int, n: nat)
    requires JobsOk(m.(lastId := n)) && j !in m.jobs && 0 < j <= n && Waiting(job, m)
    ensures JobsOk(Commit(m, j, job, nhosts).(lastId := n))
  {
    hide LoggedWords, AdjustRefs, LoadOf;
    AdjustKeepsLoads(m.jobs[j := job], job.deps, 1);
    var t := Commit(m, j, job, nhosts);
    assert forall k :: k in m.jobs ==> LoadOf(m.jobs[j := job][k]) == LoadOf(m.jobs[k]);
    OneMoreJob(m.(lastId := n), t.(lastId := n), j, job);
  }

  lemma {:induction false} OneMoreJob(m: Tables, t: Tables, j: JobId, job: Job)
    requires JobsOk(m) && Waiting(job, m) && 0 < j <= m.lastId == t.lastId && t.hosts == m.hosts && t.queues.Keys == m.queues.Keys
    requires t.jobs.Keys == m.jobs.Keys + {j} && LoadOf(t.jobs[j]) == LoadOf(job)
    requires forall k :: k in m.jobs && k != j ==> LoadOf(t.jobs[k]) == LoadOf(m.jobs[k])
    ensures JobsOk(t)
  {
  }

  /** next_job_id: nothing above the sequence is in the table, so ids are consecutive. */
  lemma {:induction false} IdsConsecutive(jobs: map<JobId, Job>, n: nat, count: nat)
    requires forall j :: j in jobs ==> j <= n
    ensures forall k :: 0 <= k < count ==> DrawIds(jobs, n, count)[k] == n + 1 + k
    decreases count
  {
    if count > 0 {
      assert n + 1 !in jobs;
      assert NextId(jobs, n) == n + 1;
      IdsConsecutive(jobs, n + 1, count - 1);
      forall k | 0 < k < count
        ensures DrawIds(jobs, n, count)[k] == n + 1 + k
      {
        assert DrawIds(jobs, n, count)[k] == DrawIds(jobs, n + 1, count - 1)[k - 1];
      }
    }
  }

  ghost predicate Untouched(m: Tables, ids: seq<JobId>, from: nat) {
    forall k :: from <= k < |ids| ==> ids[k] !in m.jobs
  }

  /** After k turns of the commit loop. */
  ghost predicate BooksAfter(m: Tables, req: Request, ids: seq<JobId>, last: nat, k: nat) {
    BooksUpTo(m, last) && Untouched(m, ids, k) && req.queue in m.queues
  }

  predicate FreshIds(ids: seq<JobId>, last: nat) {
    && (forall k :: 0 <= k < |ids| ==> 0 < ids[k] <= last)
    && (forall i, k :: 0 <= i < k < |ids| ==> ids[i] != ids[k])
  }

  lemma {:induction false} CommitTurnKeepsBooks(m: Tables, req: Request, ids: seq<JobId>, last: nat, k: nat, now: int)
    requires BooksAfter(m, req, ids, last, k) && k < |ids| && req.cpus >= 0 && FreshIds(ids, last)
    ensures BooksAfter(CommitNth(m, req, ids, k, now), req, ids, last, k + 1)
  {
    var job := Prepared(req, m.queues[req.queue].priority, ids[0], k, |ids|, now);
    CommitKeepsBooks(m, ids[k], job, req.nhosts, last);
    CommitAdds(m, ids, k, job, req.nhosts);
  }

  lemma {:induction false} CommitAdds(m: Tables, ids: seq<JobId>, k: nat, job: Job, nhosts: int)
    requires k < |ids| && job.queue in m.queues && Untouched(m, ids, k)
    requires forall i, l :: 0 <= i < l < |ids| ==> ids[i] != ids[l]
    ensures Untouched(Commit(m, ids[k], job, nhosts), ids, k + 1)
    ensures Commit(m, ids[k], job, nhosts).queues.Keys == m.queues.Keys
  {
  }

  lemma {:induction false} SkippedIdsKeepBooks(m: Tables, n: nat)
    requires BooksOk(m) && m.lastId <= n
    ensures BooksUpTo(m, n)
  {
    var t := m.(lastId := n);
    forall x | Configured(x, t)
      ensures Counter(x, t) == Total(x, t.jobs, n)
    {
      assert Configured(x, m);
      TotalExtended(x, m.jobs, m.lastId, n);
    }
  }

  lemma {:induction false} SubmitKeepsBooks(m: Tables, req: Request, now: int)
    requires BooksOk(m) && GoodRequest(m, req) && req.cpus >= 0
    ensures BooksOk(Submit(m, req, now))
  {
    var ids := DrawIds(m.jobs, m.lastId, Elements(req));
    var last := ids[|ids| - 1];
    IdsConsecutive(m.jobs, m.lastId, Elements(req));
    SkippedIdsKeepBooks(m, last);
    var P := (t: Tables, k: nat) => BooksAfter(t, req, ids, last, k);
    forall t: Tables, k: nat | P(t, k) && k < |ids|
      ensures P(CommitNth(t, req, ids, k, now), k + 1)
    {
      CommitTurnKeepsBooks(t, req, ids, last, k, now);
    }
    CommitLoop(P, m, req, ids, |ids|, now);
    BooksIgnoreLog(CommitRest(m, req, ids, |ids|, now).(lastId := last), Submit(m, req, now));
  }

  lemma {:induction false} BooksIgnoreLog(m: Tables, t: Tables)
    requires BooksOk(m) && t.lastId == m.lastId && t.jobs == m.jobs
    requires t.hosts == m.hosts && t.queues == m.queues && t.pools == m.pools
    ensures BooksOk(t)
  {
    SameBooks(m, t);
  }

  // -------------------------------------------------------------------
  // The rest
  // -------------------------------------------------------------------

  lemma {:induction false} SameLoadsKeepBooks(m: Tables, t: Tables)
    requires BooksOk(m) && SameLoads(m.jobs, t.jobs) && t.lastId == m.lastId
    requires t.hosts == m.hosts && t.queues == m.queues && t.pools == m.pools
    ensures BooksOk(t)
  {
    SameBooks(m, t);
  }

  lemma {:induction false} MarkKeepsBooks(m: Tables, up: map<HostId, Up>)
    requires BooksOk(m) && up.Keys == m.hosts.Keys
    ensures BooksOk(m.(hosts := Mark(m.hosts, up)))
  {
    var t := m.(hosts := Mark(m.hosts, up));
    forall x | Configured(x, t)
      ensures Counter(x, t) == Total(x, t.jobs, t.lastId)
    {
      assert Configured(x, m);
      assert Counter(x, t) == Counter(x, m);
    }
  }

  lemma {:induction false} CompactKeepsBooks(m: Tables)
    requires BooksOk(m)
    ensures BooksOk(Compact(m))
  {
    var t := Compact(m);
    forall x | Configured(x, t)
      ensures Counter(x, t) == Total(x, t.jobs, t.lastId)
    {
      assert Configured(x, m);
      assert Counter(x, t) == Counter(x, m);
      TotalDropped(x, m.jobs, t.jobs, m.lastId);
    }
  }
}
