/**
 What a job needs and what is there, in the fields of the tables themselves:
 totals less what run-list jobs hold, who is open and connected, who runs
 where.  A cycle's own tests (free amounts, candidate flags, host counters)
 come to the same.
 */
module Available {
  import opened Mbd
  import opened JobLists
  import opened Accounting
  import opened AccountingSteps
  import opened MbdSafety
  import opened Conditions
  import opened Scheduler
  import opened SchedulerPlan

  /** What run-list jobs leave of a host. */
  function LeftCpu(m: Tables, h: HostId): int
    requires h in m.hosts
  {
    m.hosts[h].totalCpu - Total(HostCpu(h), m.jobs, m.lastId)
  }

  function LeftMem(m: Tables, h: HostId): int
    requires h in m.hosts
  {
    m.hosts[h].totalMem - Total(HostMem(h), m.jobs, m.lastId)
  }

  function LeftStorage(m: Tables, h: HostId): int
    requires h in m.hosts
  {
    m.hosts[h].totalStorage - Total(HostStorage(h), m.jobs, m.lastId)
  }

  predicate RunsAt(m: Tables, k: JobId, h: HostId) {
    k in m.jobs && m.jobs[k].list == OnRun && h in m.jobs[k].runHosts
  }

  /** An open, connected host of the job's queue with enough left, where no
      exclusive job runs, and nobody at all if the job is exclusive. */
  ghost predicate Room(m: Tables, job: Job, h: HostId) {
    && h in m.hosts && m.hosts[h].ok && m.hosts[h].connected
    && job.queue in m.queues && h in m.queues[job.queue].members
    && LeftCpu(m, h) >= job.cpus && LeftMem(m, h) >= job.mem && LeftStorage(m, h) >= job.storage
    && forall k :: RunsAt(m, k, h) ==> !m.jobs[k].exclusive && !job.exclusive
  }

  /** As many hosts as the job asks for, the machines it names if it does. */
  ghost predicate RoomOn(m: Tables, job: Job, hs: seq<HostId>) {
    && |hs| == job.nhosts && DistinctHosts(hs)
    && (job.machines != [] ==> forall h :: h in job.machines <==> h in hs)
    && forall h :: h in hs ==> Room(m, job, h)
  }

  /** A pending job whose time has come, in an open queue, with its tokens
      there and its condition satisfied. */
  ghost predicate Due(m: Tables, j: JobId, now: int) {
    && j in m.jobs && m.jobs[j].list == OnPend && m.jobs[j].state == Pending && m.jobs[j].beginTime <= now
    && m.jobs[j].queue in m.queues && m.queues[m.jobs[j].queue].open
    && (forall i :: 0 <= i < |m.jobs[j].tokens| ==>
          var ask := m.jobs[j].tokens[i];
          ask.pool in m.pools && m.pools[ask.pool].total - Total(PoolUsed(ask.pool), m.jobs, m.lastId) >= ask.count)
    && Satisfied(m, m.jobs[j].deps)
  }

  ghost predicate Runnable(m: Tables, j: JobId, now: int) {
    Due(m, j, now) && exists hs :: RoomOn(m, m.jobs[j], hs)
  }

  /** Where the hosts are free to choose, nobody with room has less left. */
  ghost predicate LeastLeft(m: Tables, job: Job, plan: seq<HostId>) {
    job.machines == [] ==> forall h, g :: h in plan && g !in plan && Room(m, job, g) ==>
      h in m.hosts && g in m.hosts && LeftCpu(m, h) <= LeftCpu(m, g)
  }

  // -------------------------------------------------------------------
  // The daemon's tests come to the same
  // -------------------------------------------------------------------

  /** The candidate flags say who is up and has a cpu left. */
  ghost predicate CandidatesExact(hosts: map<HostId, Host>) {
    forall h :: h in hosts ==> (hosts[h].candidate <==> hosts[h].ok && hosts[h].connected && hosts[h].freeCpu > 0)
  }

  lemma {:induction false} SomeoneThere(h: HostId, jobs: map<JobId, Job>, n: nat) returns (j: JobId)
    requires Total(HostJobs(h), jobs, n) > 0
    ensures j in jobs && jobs[j].list == OnRun && h in jobs[j].runHosts
  {
    if n in jobs && Weight(HostJobs(h), LoadOf(jobs[n])) > 0 {
      j := n;
    } else {
      j := SomeoneThere(h, jobs, n - 1);
    }
  }

  /** num_jobs counts who is there. */
  lemma {:induction false} Deserted(m: Tables, h: HostId)
    requires BooksOk(m) && h in m.hosts
    ensures m.hosts[h].numJobs <= 0 <==> forall k :: !RunsAt(m, k, h)
  {
    var x := HostJobs(h);
    assert Configured(x, m) && Counter(x, m) == Total(x, m.jobs, m.lastId);
    if k :| RunsAt(m, k, h) {
      AtLeastOne(x, m.jobs, m.lastId, k);
    }
    if m.hosts[h].numJobs > 0 {
      var k := SomeoneThere(h, m.jobs, m.lastId);
      assert RunsAt(m, k, h);
    }
  }

  lemma {:induction false} RoomIsEligible(m: Tables, job: Job, h: HostId)
    requires BooksOk(m) && CandidatesExact(m.hosts) && job.cpus >= 1
    ensures Room(m, job, h) <==> Eligible(m, job, h)
  {
    if h in m.hosts {
      HostConservation(m, h);
      ExclusiveFlag(m, h);
      Deserted(m, h);
      hide BooksOk, Total;
      if m.hosts[h].exclusive {
        var k :| ExclusiveAt(m, k, h);
        assert RunsAt(m, k, h);
      } else {
        assert forall k :: RunsAt(m, k, h) ==> !ExclusiveAt(m, k, h);
      }
    }
  }

  lemma {:induction false} RoomIsFeasible(m: Tables, job: Job)
    requires BooksOk(m) && CandidatesExact(m.hosts) && job.cpus >= 1 && MachinesOk(job)
    ensures (exists hs :: RoomOn(m, job, hs)) <==> Feasible(m, job)
  {
    forall h
      ensures Room(m, job, h) <==> Eligible(m, job, h)
    {
      RoomIsEligible(m, job, h);
    }
    hide BooksOk, Room, Eligible;
    if hs :| RoomOn(m, job, hs) {
      assert AllEligible(m, job, hs);
    }
    if Feasible(m, job) {
      if job.machines != [] {
        assert RoomOn(m, job, job.machines);
      } else {
        var hs :| |hs| == job.nhosts && DistinctHosts(hs) && AllEligible(m, job, hs);
        assert RoomOn(m, job, hs);
      }
    }
  }

  lemma {:induction false} TokensLeft(m: Tables, ts: seq<Token>)
    requires BooksOk(m)
    ensures TokensAvailable(m.pools, ts) <==> forall i :: 0 <= i < |ts| ==>
              ts[i].pool in m.pools && m.pools[ts[i].pool].total - Total(PoolUsed(ts[i].pool), m.jobs, m.lastId) >= ts[i].count
  {
    forall i | 0 <= i < |ts| && ts[i].pool in m.pools
      ensures m.pools[ts[i].pool].total - Total(PoolUsed(ts[i].pool), m.jobs, m.lastId) == m.pools[ts[i].pool].free
    {
      PoolConservation(m, ts[i].pool);
    }
  }

  /** What schedule() asks of a job is what the job needs. */
  lemma {:induction false} RunnableExactly(m: Tables, j: JobId, now: int)
    requires BooksOk(m) && CandidatesExact(m.hosts) && now > 0
    requires j in m.jobs && m.jobs[j].list == OnPend ==> m.jobs[j].cpus >= 1 && MachinesOk(m.jobs[j])
    ensures Runnable(m, j, now) <==> CanRun(m, j, now)
  {
    if j in m.jobs && m.jobs[j].list == OnPend {
      RoomIsFeasible(m, m.jobs[j]);
      TokensLeft(m, m.jobs[j].tokens);
    }
  }

  // -------------------------------------------------------------------
  // Through a cycle
  // -------------------------------------------------------------------

  lemma {:induction false} MarkedExactly(hosts: map<HostId, Host>)
    ensures CandidatesExact(MarkedHosts(hosts))
  {
  }

  lemma {:induction false} ChargedExactly(hosts: map<HostId, Host>, hs: seq<HostId>, job: Job)
    requires CandidatesExact(hosts) && job.cpus >= 0
    ensures CandidatesExact(ChargeAll(hosts, hs, job))
    decreases |hs|
  {
    if hs != [] {
      if hs[0] in hosts {
        ChargedExactly(hosts[hs[0] := Charge(hosts[hs[0]], job)], hs[1..], job);
      } else {
        ChargedExactly(hosts, hs[1..], job);
      }
    }
  }

  /** Marking touches no counter, and sorting the pending list none either. */
  lemma {:induction false} MarkedBooks(m: Tables, t: Tables)
    requires BooksOk(m) && t == m.(hosts := MarkedHosts(m.hosts), pend := t.pend)
    ensures BooksOk(t)
  {
    forall x | Configured(x, t)
      ensures Counter(x, t) == Total(x, t.jobs, t.lastId)
    {
      assert Configured(x, m);
      assert Counter(x, t) == Counter(x, m);
    }
  }

  /** A plan the scheduler may choose is one there is room on, and least left. */
  lemma {:induction false} GoodPlanHasRoom(m: Tables, job: Job, plan: seq<HostId>)
    requires BooksOk(m) && CandidatesExact(m.hosts) && job.cpus >= 1 && GoodPlan(m, job, plan)
    ensures RoomOn(m, job, plan) && LeastLeft(m, job, plan)
  {
    forall h
      ensures Room(m, job, h) <==> Eligible(m, job, h)
      ensures h in m.hosts ==> LeftCpu(m, h) == m.hosts[h].freeCpu
    {
      RoomIsEligible(m, job, h);
      if h in m.hosts { HostConservation(m, h); }
    }
    hide BooksOk;
  }
}
