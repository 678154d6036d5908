/**
 replay_rebuild_counters: a restarted daemon recounts to the very amounts
 the dead one had.
 */
module AccountingRestart {
  import opened Mbd
  import opened JobLists
  import opened Manifest
  import opened Compaction
  import opened Accounting

  // -------------------------------------------------------------------
  // Sums over a list
  // -------------------------------------------------------------------

  function ListSum(x: Measure, ids: seq<JobId>, jobs: map<JobId, Job>): int {
    if ids == [] then 0
    else
      var n := |ids| - 1;
      ListSum(x, ids[..n], jobs) + if ids[n] in jobs then Weight(x, LoadOf(jobs[ids[n]])) else 0
  }

  lemma {:induction false} ListSumTotal(x: Measure, ids: seq<JobId>, jobs: map<JobId, Job>, n: nat)
    requires NoDup(ids) && forall j :: j in ids ==> j in jobs && 0 < j <= n
    ensures ListSum(x, ids, jobs) == Total(x, Restrict(jobs, ids), n)
  {
    if ids == [] {
      assert Restrict(jobs, ids) == map[];
      NothingCounts(x, Restrict(jobs, ids), n);
    } else {
      var k := |ids| - 1;
      var rest, j := ids[..k], ids[k];
      SplitLast(ids);
      ListSumTotal(x, rest, jobs, n);
      RestrictSnoc(jobs, rest, j);
      TotalAdded(x, Restrict(jobs, rest), j, jobs[j], n);
    }
  }

  lemma {:induction false} NothingCounts(x: Measure, jobs: map<JobId, Job>, n: nat)
    requires jobs == map[]
    ensures Total(x, jobs, n) == 0
  {
    if n > 0 { NothingCounts(x, jobs, n - 1); }
  }

  /** The list sum is the recount once the list has every job that weighs. */
  lemma {:induction false} ListIsTotal(x: Measure, ids: seq<JobId>, jobs: map<JobId, Job>, n: nat)
    requires NoDup(ids) && forall j :: j in ids ==> j in jobs && 0 < j <= n
    requires forall j :: j in jobs && j !in ids ==> Weight(x, LoadOf(jobs[j])) == 0
    ensures ListSum(x, ids, jobs) == Total(x, jobs, n)
  {
    ListSumTotal(x, ids, jobs, n);
    TotalDropped(x, jobs, Restrict(jobs, ids), n);
  }

  // -------------------------------------------------------------------
  // Hosts
  // -------------------------------------------------------------------

  predicate Blank(h: Host) {
    && h.freeCpu == h.totalCpu && h.freeMem == h.totalMem && h.freeStorage == h.totalStorage
    && h.numJobs == 0 && h.numRun == 0 && h.cpusUsed == 0 && !h.exclusive
  }

  /** Every amount is additive; the flag is set by the first exclusive job. */
  ghost predicate Tallied(blank: Host, h: Host, id: HostId, run: seq<JobId>, jobs: map<JobId, Job>) {
    && h.totalCpu == blank.totalCpu && h.totalMem == blank.totalMem && h.totalStorage == blank.totalStorage
    && h.totalCpu - h.freeCpu == ListSum(HostCpu(id), run, jobs)
    && h.totalMem - h.freeMem == ListSum(HostMem(id), run, jobs)
    && h.totalStorage - h.freeStorage == ListSum(HostStorage(id), run, jobs)
    && h.numJobs == ListSum(HostJobs(id), run, jobs)
    && h.numRun == ListSum(HostRun(id), run, jobs)
    && h.cpusUsed == ListSum(HostUsed(id), run, jobs)
    && ListSum(HostExclusive(id), run, jobs) >= 0
    && (h.exclusive <==> ListSum(HostExclusive(id), run, jobs) > 0)
  }

  lemma {:induction false} TalliedMore(blank: Host, h: Host, id: HostId, run: seq<JobId>, jobs: map<JobId, Job>, j: JobId)
    requires Tallied(blank, h, id, run, jobs) && j in jobs && jobs[j].list == OnRun
    ensures Tallied(blank, if id in jobs[j].runHosts then Charge(h, jobs[j]) else h, id, run + [j], jobs)
  {
    assert (run + [j])[..|run|] == run;
    assert forall x :: ListSum(x, run + [j], jobs) == ListSum(x, run, jobs) + Weight(x, LoadOf(jobs[j]));
  }

  ghost predicate OnHosts(run: seq<JobId>, jobs: map<JobId, Job>) {
    forall j :: j in run ==> j in jobs && jobs[j].list == OnRun && DistinctHosts(jobs[j].runHosts)
  }

  lemma {:induction false} RebuiltHosts(blank: map<HostId, Host>, run: seq<JobId>, jobs: map<JobId, Job>)
    requires OnHosts(run, jobs) && forall h :: h in blank ==> Blank(blank[h])
    ensures RebuildHosts(blank, run, jobs).Keys == blank.Keys
    ensures forall h :: h in blank ==> Tallied(blank[h], RebuildHosts(blank, run, jobs)[h], h, run, jobs)
  {
    if run != [] {
      var n := |run| - 1;
      var rest, j := run[..n], run[n];
      assert run == rest + [j] && j in run;
      RebuiltHosts(blank, rest, jobs);
      var before := RebuildHosts(blank, rest, jobs);
      ChargedEach(before, jobs[j].runHosts, jobs[j]);
      forall h | h in blank
        ensures Tallied(blank[h], RebuildHosts(blank, run, jobs)[h], h, run, jobs)
      {
        TalliedMore(blank[h], before[h], h, rest, jobs, j);
      }
    }
  }

  // -------------------------------------------------------------------
  // Queues
  // -------------------------------------------------------------------

  ghost predicate QueueTallied(q: Queue, id: QueueId, ids: seq<JobId>, jobs: map<JobId, Job>) {
    && q.numJobs == ListSum(QueueJobs(id), ids, jobs)
    && q.numPend == ListSum(QueuePend(id), ids, jobs)
    && q.numHeld == ListSum(QueueHeld(id), ids, jobs)
    && q.numRun == ListSum(QueueRun(id), ids, jobs)
    && q.cpusUsed == ListSum(QueueCpus(id), ids, jobs)
    && q.hostsUsed == ListSum(QueueHosts(id), ids, jobs)
  }

  lemma {:induction false} QueueTalliedMore(q: Queue, id: QueueId, ids: seq<JobId>, jobs: map<JobId, Job>, j: JobId)
    requires QueueTallied(q, id, ids, jobs) && j in jobs
    ensures QueueTallied(if jobs[j].queue == id then CountIn(q, jobs[j]) else q, id, ids + [j], jobs)
  {
    assert (ids + [j])[..|ids|] == ids;
    assert forall x :: ListSum(x, ids + [j], jobs) == ListSum(x, ids, jobs) + Weight(x, LoadOf(jobs[j]));
  }

  lemma {:induction false} RebuildQueueStep(blank: map<QueueId, Queue>, rest: seq<JobId>, jobs: map<JobId, Job>, j: JobId, q: QueueId)
    requires j in jobs && q in RebuildQueues(blank, rest, jobs)
    ensures q in RebuildQueues(blank, rest + [j], jobs)
    ensures RebuildQueues(blank, rest + [j], jobs)[q]
            == if jobs[j].queue == q then CountIn(RebuildQueues(blank, rest, jobs)[q], jobs[j])
               else RebuildQueues(blank, rest, jobs)[q]
  {
    assert (rest + [j])[..|rest|] == rest;
  }

  lemma {:induction false} RebuiltQueues(blank: map<QueueId, Queue>, ids: seq<JobId>, jobs: map<JobId, Job>)
    requires forall j :: j in ids ==> j in jobs
    requires forall q :: q in blank ==> QueueTallied(blank[q], q, [], jobs)
    ensures RebuildQueues(blank, ids, jobs).Keys == blank.Keys
    ensures forall q :: q in blank ==> QueueTallied(RebuildQueues(blank, ids, jobs)[q], q, ids, jobs)
  {
    if ids != [] {
      var n := |ids| - 1;
      var rest, j := ids[..n], ids[n];
      assert ids == rest + [j] && j in ids;
      RebuiltQueues(blank, rest, jobs);
      RebuildQueuesConfig(blank, ids, jobs);
      var before := RebuildQueues(blank, rest, jobs);
      forall q | q in blank
        ensures QueueTallied(RebuildQueues(blank, ids, jobs)[q], q, ids, jobs)
      {
        RebuildQueueStep(blank, rest, jobs, j, q);
        QueueTalliedMore(before[q], q, rest, jobs, j);
      }
    }
  }

  // -------------------------------------------------------------------
  // The restarted daemon
  // -------------------------------------------------------------------

  /** Ids are positive and were saved. */
  ghost predicate IdsOk(m: Tables) {
    && m.savedId <= m.lastId
    && (forall j :: j in m.jobs ==> 0 < j <= m.savedId)
    && (forall i :: 0 <= i < |m.manifest| && m.manifest[i].EvNew? ==> m.manifest[i].job <= m.savedId)
  }

  lemma {:induction false} MaxIdBound(log: seq<Event>, n: nat)
    requires forall i :: 0 <= i < |log| && log[i].EvNew? ==> log[i].job <= n
    ensures MaxId(log) <= n
  {
    if log != [] {
      MaxIdBound(log[..|log| - 1], n);
    }
  }

  lemma {:induction false} TotalSameWeight(x: Measure, a: map<JobId, Job>, b: map<JobId, Job>, n: nat)
    requires a.Keys == b.Keys && forall j :: j in a ==> Weight(x, LoadOf(a[j])) == Weight(x, LoadOf(b[j]))
    ensures Total(x, a, n) == Total(x, b, n)
  {
    if n > 0 { TotalSameWeight(x, a, b, n - 1); }
  }

  /** Logged fields decide what a job weighs, tokens aside. */
  lemma {:induction false} WeightBySee(x: Measure, a: Job, b: Job, queues: map<QueueId, Queue>)
    requires See(a) == See(b) && JobSound(a, queues) && !x.PoolUsed?
    ensures Weight(x, LoadOf(a)) == Weight(x, LoadOf(b))
  {
    assert a.dispatchTime != 0 ==> a.runHosts == See(a).runHosts == See(b).runHosts == b.runHosts;
  }

  lemma {:induction false} RecountSame(m: Tables, r: Replayed, x: Measure, n: nat)
    requires Mirrors(r, m.jobs) && JobsSound(m.jobs, m.queues) && !x.PoolUsed?
    ensures Total(x, r.jobs, n) == Total(x, m.jobs, n)
  {
    forall j | j in m.jobs
      ensures Weight(x, LoadOf(m.jobs[j])) == Weight(x, LoadOf(r.jobs[j]))
    {
      assert JobSound(m.jobs[j], m.queues);
      WeightBySee(x, m.jobs[j], r.jobs[j], m.queues);
    }
    TotalSameWeight(x, m.jobs, r.jobs, n);
  }

  /** Host sums run over the run list only. */
  lemma {:induction false} HostListTotal(r: Replayed, x: Measure, n: nat)
    requires Filed(r.jobs, r.pend, r.run, r.fin) && OfHost(x) && forall j :: j in r.jobs ==> 0 < j <= n
    ensures ListSum(x, r.run, r.jobs) == Total(x, r.jobs, n)
  {
    ListIsTotal(x, r.run, r.jobs, n);
  }

  /** Queue sums run over the pending and the running list. */
  lemma {:induction false} QueueListTotal(r: Replayed, x: Measure, n: nat)
    requires Filed(r.jobs, r.pend, r.run, r.fin) && OfQueue(x) && forall j :: j in r.jobs ==> 0 < j <= n
    ensures ListSum(x, r.pend + r.run, r.jobs) == Total(x, r.jobs, n)
  {
    NoDupConcat(r.pend, r.run);
    var ids := r.pend + r.run;
    assert forall j :: j in ids <==> j in r.pend || j in r.run;
    ListIsTotal(x, ids, r.jobs, n);
  }

  lemma {:induction false} RunHostsBack(m: Tables, r: Replayed)
    requires Mirrors(r, m.jobs) && JobsSound(m.jobs, m.queues) && JobsOk(m)
    ensures OnHosts(r.run, r.jobs)
    ensures forall j :: j in r.jobs && r.jobs[j].list == OnRun ==> r.jobs[j].runHosts == m.jobs[j].runHosts
  {
    forall j | j in r.jobs && r.jobs[j].list == OnRun
      ensures r.jobs[j].runHosts == m.jobs[j].runHosts
    {
      assert JobSound(m.jobs[j], m.queues) && See(r.jobs[j]) == See(m.jobs[j]);
      assert m.jobs[j].runHosts == See(m.jobs[j]).runHosts;
    }
  }

  lemma {:induction false} HostsTallied(m: Tables, r: Replayed, h: HostId)
    requires Mirrors(r, m.jobs) && JobsSound(m.jobs, m.queues) && JobsOk(m) && h in m.hosts
    ensures h in Restart(m, r).hosts && Restart(m, r).hosts.Keys == m.hosts.Keys
    ensures Tallied(FreshHost(m.hosts[h]), Restart(m, r).hosts[h], h, r.run, r.jobs)
  {
    RunHostsBack(m, r);
    var blank := FreshHosts(m.hosts);
    RebuiltHosts(blank, r.run, r.jobs);
    assert Restart(m, r).hosts == RebuildHosts(blank, r.run, r.jobs);
  }

  lemma {:induction false} TalliedCounter(blank: Host, h: Host, id: HostId, run: seq<JobId>, jobs: map<JobId, Job>, x: Measure)
    requires Tallied(blank, h, id, run, jobs) && OfHost(x) && x.h == id
    requires ListSum(HostExclusive(id), run, jobs) <= 1
    ensures HostCounter(x, h) == ListSum(x, run, jobs)
  {
  }

  /** What the rebuild sums is what the dead daemon had counted. */
  lemma {:induction false} SumIsCounter(m: Tables, r: Replayed, x: Measure)
    requires Mirrors(r, m.jobs) && JobsSound(m.jobs, m.queues) && BooksOk(m)
    requires !x.PoolUsed? && Configured(x, m)
    ensures Counter(x, m) == ListSum(x, if OfHost(x) then r.run else r.pend + r.run, r.jobs)
  {
    RecountSame(m, r, x, m.lastId);
    if OfHost(x) { HostListTotal(r, x, m.lastId); } else { QueueListTotal(r, x, m.lastId); }
  }

  lemma {:induction false} ExclusiveSum(m: Tables, r: Replayed, h: HostId)
    requires Mirrors(r, m.jobs) && JobsSound(m.jobs, m.queues) && BooksOk(m) && h in m.hosts
    ensures ListSum(HostExclusive(h), r.run, r.jobs) <= 1
  {
    SumIsCounter(m, r, HostExclusive(h));
  }

  lemma {:induction false} HostCounterBack(m: Tables, r: Replayed, x: Measure)
    requires Mirrors(r, m.jobs) && JobsSound(m.jobs, m.queues) && BooksOk(m)
    requires OfHost(x) && Configured(x, m)
    ensures Configured(x, Restart(m, r)) && Counter(x, Restart(m, r)) == Counter(x, m)
  {
    HostsTallied(m, r, x.h);
    ExclusiveSum(m, r, x.h);
    SumIsCounter(m, r, x);
    assert Tallied(FreshHost(m.hosts[x.h]), Restart(m, r).hosts[x.h], x.h, r.run, r.jobs);
    TalliedCounter(FreshHost(m.hosts[x.h]), Restart(m, r).hosts[x.h], x.h, r.run, r.jobs, x);
  }

  lemma {:induction false} QueuesTallied(m: Tables, r: Replayed)
    requires Filed(r.jobs, r.pend, r.run, r.fin)
    ensures Restart(m, r).queues.Keys == m.queues.Keys
    ensures forall q :: q in m.queues ==> QueueTallied(Restart(m, r).queues[q], q, r.pend + r.run, r.jobs)
  {
    hide RebuildElements, RebuildRefs, RebuildHosts;
    RebuiltQueues(FreshQueues(m.queues), r.pend + r.run, r.jobs);
  }

  lemma {:induction false} QueueCounterBack(m: Tables, r: Replayed, x: Measure)
    requires Mirrors(r, m.jobs) && JobsSound(m.jobs, m.queues) && BooksOk(m)
    requires OfQueue(x) && Configured(x, m)
    ensures Configured(x, Restart(m, r)) && Counter(x, Restart(m, r)) == Counter(x, m)
  {
    QueuesTallied(m, r);
    hide ListSum, Mirrors, JobsSound, BooksOk, Total, RebuildElements, RebuildRefs, RebuildHosts, RebuildQueues;
    var q := Restart(m, r).queues[x.q];
    assert QueueTallied(q, x.q, r.pend + r.run, r.jobs);
    SumIsCounter(m, r, x);
  }

  /** Every host and queue counter comes back as it was. */
  lemma {:induction false} CountersBack(m: Tables, r: Replayed, x: Measure)
    requires Mirrors(r, m.jobs) && JobsSound(m.jobs, m.queues) && BooksOk(m)
    requires !x.PoolUsed? && Configured(x, m)
    ensures Configured(x, Restart(m, r)) && Counter(x, Restart(m, r)) == Counter(x, m)
  {
    if OfHost(x) { HostCounterBack(m, r, x); } else { QueueCounterBack(m, r, x); }
  }

  lemma {:induction false} RestartedId(m: Tables, r: Replayed)
    requires IdsOk(m)
    ensures Restart(m, r).lastId == m.savedId
  {
    MaxIdBound(m.manifest, m.savedId);
  }

  lemma {:induction false} NoTokensOut(p: PoolId, jobs: map<JobId, Job>, n: nat)
    requires forall j :: j in jobs ==> jobs[j].tokens == []
    ensures Total(PoolUsed(p), jobs, n) == 0
  {
    if n > 0 { NoTokensOut(p, jobs, n - 1); }
  }

  lemma {:induction false} LoadsBack(m: Tables, r: Replayed)
    ensures SameLoads(r.jobs, Restart(m, r).jobs)
  {
    RestartJobs(m, r);
  }

  lemma {:induction false} RestartRecounts(m: Tables, r: Replayed, x: Measure)
    requires Mirrors(r, m.jobs) && JobsSound(m.jobs, m.queues) && BooksOk(m) && IdsOk(m)
    requires !x.PoolUsed? && Configured(x, m)
    ensures Total(x, Restart(m, r).jobs, Restart(m, r).lastId) == Total(x, m.jobs, m.lastId)
  {
    var t := Restart(m, r);
    RestartedId(m, r);
    LoadsBack(m, r);
    TotalSame(x, r.jobs, t.jobs, m.savedId);
    RecountSame(m, r, x, m.savedId);
    TotalExtended(x, m.jobs, m.savedId, m.lastId);
  }

  lemma {:induction false} RestartConfigured(m: Tables, r: Replayed, x: Measure)
    requires Mirrors(r, m.jobs) && JobsSound(m.jobs, m.queues) && JobsOk(m)
    ensures Configured(x, Restart(m, r)) <==> Configured(x, m)
  {
    RestartConfig(m, r);
    RunHostsBack(m, r);
    RebuiltHosts(FreshHosts(m.hosts), r.run, r.jobs);
  }

  lemma {:induction false} RestartCounts(m: Tables, r: Replayed, x: Measure)
    requires Mirrors(r, m.jobs) && JobsSound(m.jobs, m.queues) && BooksOk(m) && IdsOk(m)
    requires Configured(x, Restart(m, r))
    ensures Counter(x, Restart(m, r)) == Total(x, Restart(m, r).jobs, Restart(m, r).lastId)
  {
    RestartConfigured(m, r, x);
    if x.PoolUsed? {
      LoadsBack(m, r);
      NoTokensOut(x.p, Restart(m, r).jobs, Restart(m, r).lastId);
    } else {
      CountersBack(m, r, x);
      RestartRecounts(m, r, x);
    }
  }

  lemma {:induction false} RestartKeepsCounters(m: Tables, r: Replayed)
    requires Mirrors(r, m.jobs) && JobsSound(m.jobs, m.queues) && BooksOk(m) && IdsOk(m)
    ensures CountersOk(Restart(m, r))
  {
    forall x | Configured(x, Restart(m, r))
      ensures Counter(x, Restart(m, r)) == Total(x, Restart(m, r).jobs, Restart(m, r).lastId)
    {
      RestartCounts(m, r, x);
    }
  }

  lemma {:induction false} RestartKeepsHosts(m: Tables, r: Replayed)
    requires Mirrors(r, m.jobs) && JobsSound(m.jobs, m.queues) && BooksOk(m)
    ensures HostsOk(Restart(m, r))
  {
    var t := Restart(m, r);
    RunHostsBack(m, r);
    RebuiltHosts(FreshHosts(m.hosts), r.run, r.jobs);
    forall h | h in t.hosts
      ensures t.hosts[h].freeCpu == m.hosts[h].freeCpu && t.hosts[h].freeMem == m.hosts[h].freeMem
              && t.hosts[h].freeStorage == m.hosts[h].freeStorage
              && t.hosts[h].exclusive == m.hosts[h].exclusive && t.hosts[h].numJobs == m.hosts[h].numJobs
    {
      HostsTallied(m, r, h);
      HostCounterBack(m, r, HostCpu(h));
      HostCounterBack(m, r, HostMem(h));
      HostCounterBack(m, r, HostStorage(h));
      HostCounterBack(m, r, HostExclusive(h));
      HostCounterBack(m, r, HostJobs(h));
    }
  }

  lemma {:induction false} RestartedJob(m: Tables, r: Replayed, j: JobId)
    requires Mirrors(r, m.jobs) && JobsSound(m.jobs, m.queues) && JobsOk(m) && j in Restart(m, r).jobs
    ensures var job := Restart(m, r).jobs[j];
            && j in m.jobs && See(job) == See(m.jobs[j]) && JobSound(m.jobs[j], m.queues)
            && (job.list == OnRun ==> job.runHosts == m.jobs[j].runHosts)
  {
    RestartJobs(m, r);
    assert See(r.jobs[j]) == See(m.jobs[j]) && JobSound(m.jobs[j], m.queues);
    RunHostsBack(m, r);
  }

  lemma {:induction false} RestartKeepsJobs(m: Tables, r: Replayed)
    requires Mirrors(r, m.jobs) && JobsSound(m.jobs, m.queues) && JobsOk(m) && IdsOk(m)
    ensures JobsOk(Restart(m, r))
  {
    var t := Restart(m, r);
    RestartedId(m, r);
    RestartConfig(m, r);
    RunHostsBack(m, r);
    RebuiltHosts(FreshHosts(m.hosts), r.run, r.jobs);
    forall j | j in t.jobs
      ensures && 0 < j <= t.lastId && t.jobs[j].queue in t.queues && t.jobs[j].cpus >= 0
              && (t.jobs[j].list == OnPend ==> t.jobs[j].state in {Pending, Held})
              && (t.jobs[j].list == OnRun ==>
                    DistinctHosts(t.jobs[j].runHosts) && t.jobs[j].state == Running
                    && forall h :: h in t.jobs[j].runHosts ==> h in t.hosts)
    {
      RestartedJob(m, r, j);
    }
  }
}
