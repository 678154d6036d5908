/**
 What is configured stays as it is: whatever the run, only the daemon's own
 counters change.
 */
module Configuration {
  import opened Mbd
  import opened Accounting
  import opened MbdSafety
  import N = Names

  ghost predicate SameQueues(a: map<QueueId, Queue>, b: map<QueueId, Queue>) {
    && a.Keys == b.Keys
    && forall q :: q in a ==> b[q].open == a[q].open && b[q].priority == a[q].priority && b[q].members == a[q].members
  }

  ghost predicate SameHosts(a: map<HostId, Host>, b: map<HostId, Host>) {
    && a.Keys == b.Keys
    && forall h :: h in a ==>
         b[h].totalCpu == a[h].totalCpu && b[h].totalMem == a[h].totalMem && b[h].totalStorage == a[h].totalStorage
  }

  ghost predicate SamePools(a: map<PoolId, Pool>, b: map<PoolId, Pool>) {
    a.Keys == b.Keys && forall p :: p in a ==> b[p].total == a[p].total
  }

  ghost predicate SameSite(a: Tables, b: Tables) {
    SameQueues(a.queues, b.queues) && SameHosts(a.hosts, b.hosts) && SamePools(a.pools, b.pools)
  }

  lemma {:induction false} ChargedHosts(hosts: map<HostId, Host>, hs: seq<HostId>, job: Job)
    ensures SameHosts(hosts, ChargeAll(hosts, hs, job))
    decreases |hs|
  {
    if hs != [] {
      if hs[0] in hosts {
        ChargedHosts(hosts[hs[0] := Charge(hosts[hs[0]], job)], hs[1..], job);
      } else {
        ChargedHosts(hosts, hs[1..], job);
      }
    }
  }

  lemma {:induction false} ReleasedHosts(hosts: map<HostId, Host>, hs: seq<HostId>, job: Job)
    ensures SameHosts(hosts, ReleaseAll(hosts, hs, job))
    decreases |hs|
  {
    if hs != [] {
      if hs[0] in hosts {
        ReleasedHosts(hosts[hs[0] := Release(hosts[hs[0]], job)], hs[1..], job);
      } else {
        ReleasedHosts(hosts, hs[1..], job);
      }
    }
  }

  lemma {:induction false} MovedPools(pools: map<PoolId, Pool>, ts: seq<Token>, sign: int)
    requires sign == 1 || sign == -1
    ensures SamePools(pools, MoveTokens(pools, ts, sign))
  {
    TokensMoved(pools, ts, sign);
  }

  lemma {:induction false} RebuiltHosts(hosts: map<HostId, Host>, run: seq<JobId>, jobs: map<JobId, Job>)
    ensures SameHosts(hosts, RebuildHosts(hosts, run, jobs))
  {
    if run != [] {
      var n := |run| - 1;
      RebuiltHosts(hosts, run[..n], jobs);
      if run[n] in jobs { ChargedHosts(RebuildHosts(hosts, run[..n], jobs), jobs[run[n]].runHosts, jobs[run[n]]); }
    }
  }

  lemma {:induction false} RebuiltQueues(queues: map<QueueId, Queue>, ids: seq<JobId>, jobs: map<JobId, Job>)
    ensures SameQueues(queues, RebuildQueues(queues, ids, jobs))
  {
    if ids != [] { RebuiltQueues(queues, ids[..|ids| - 1], jobs); }
  }

  lemma {:induction false} SubmitSite(m: Tables, req: Request, now: int)
    requires GoodRequest(m, req)
    ensures SameSite(m, Submit(m, req, now))
  {
    var ids := DrawIds(m.jobs, m.lastId, Elements(req));
    var Q := (t: Tables, k: nat) => SameQueues(m.queues, t.queues) && t.hosts == m.hosts && t.pools == m.pools && req.queue in t.queues;
    hide DrawIds, CommitNth;
    forall t: Tables, k: nat | Q(t, k) && k < |ids|
      ensures Q(CommitNth(t, req, ids, k, now), k + 1)
    {
      CommitSite(t, req, ids, k, now);
    }
    CommitLoop(Q, m, req, ids, |ids|, now);
  }

  lemma {:induction false} CommitSite(t: Tables, req: Request, ids: seq<JobId>, k: nat, now: int)
    requires req.queue in t.queues && k < |ids|
    ensures var u := CommitNth(t, req, ids, k, now); SameQueues(t.queues, u.queues) && u.hosts == t.hosts && u.pools == t.pools
  {
    hide NewEvent, AdjustRefs, KeptWords;
  }

  lemma {:induction false} DispatchSite(m: Tables, step: Step, now: int)
    requires Enabled(m, step, now) && OfDispatch(step)
    ensures SameSite(m, Next(m, step, now))
  {
    hide ChargeAll, ReleaseAll, MoveTokens, Without, AdjustRefs, ElementFinished, N.HostsText;
    var job := m.jobs[step.j];
    ReleasedHosts(m.hosts, job.runHosts, job);
    MovedPools(m.pools, job.tokens, 1);
    MovedPools(m.pools, job.tokens, -1);
    if step.DoDispatch? {
      ChargedHosts(m.hosts, step.plan, job.(state := Running, list := OnRun, dispatchTime := now, runHosts := step.plan));
    }
  }

  lemma {:induction false} PendingSite(m: Tables, step: Step, now: int)
    requires Enabled(m, step, now) && OfPending(step)
    ensures SameSite(m, Next(m, step, now))
  {
    hide Without, AdjustRefs, ElementFinished;
  }

  lemma {:induction false} RestartSite(m: Tables, r: Replayed)
    ensures SameSite(m, Restart(m, r))
  {
    hide RebuildElements, RebuildRefs, MaxId;
    RebuiltHosts(FreshHosts(m.hosts), r.run, r.jobs);
    RebuiltQueues(FreshQueues(m.queues), r.pend + r.run, r.jobs);
  }

  lemma {:induction false} StepSite(m: Tables, step: Step, now: int)
    requires Enabled(m, step, now)
    ensures SameSite(m, Next(m, step, now))
  {
    if OfDispatch(step) {
      DispatchSite(m, step, now);
    } else if OfPending(step) {
      PendingSite(m, step, now);
    } else {
      hide Submit, Restart, Replay;
      match step
      case DoSubmit(req) => SubmitSite(m, req, now);
      case DoFailSubmit(_) =>
      case DoMark(_) =>
      case DoCompact =>
      case DoRestart =>
        var r := Replay(m.manifest, m.queues);
        if r.Some? { RestartSite(m, r.value); }
    }
  }

  /** In every state of every run, queues are open or closed, of the priority
      and with the hosts they were configured with, and hosts and pools as
      large. */
  lemma {:induction false} RunSite(tr: seq<Tables>, steps: seq<Step>, clock: seq<int>, i: nat)
    requires IsRun(tr, steps, clock) && i < |tr|
    ensures SameSite(tr[0], tr[i])
  {
    if i > 0 {
      RunSite(tr, steps, clock, i - 1);
      StepSite(tr[i - 1], steps[i - 1], clock[i - 1]);
      hide Next, Enabled;
    }
  }
}
