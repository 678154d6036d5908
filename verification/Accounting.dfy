/**
 Every counter of every host, queue and token pool is, in every state, the
 recount over the job lists; nothing is charged or returned twice, and no
 free amount goes below zero.
 */
module Accounting {
  import opened Mbd

  // -------------------------------------------------------------------
  // Counters as sums over the job table
  // -------------------------------------------------------------------

  /** One name for each counter; HostCpu, HostMem and HostStorage are what is
      not free, PoolUsed the tokens out of the pool.  RefsTo and ElementsOf
      are kept in job records and are the business of other modules. */
  datatype Measure =
    | HostCpu(h: HostId) | HostMem(h: HostId) | HostStorage(h: HostId)
    | HostJobs(h: HostId) | HostRun(h: HostId) | HostUsed(h: HostId) | HostExclusive(h: HostId)
    | QueueJobs(q: QueueId) | QueuePend(q: QueueId) | QueueHeld(q: QueueId) | QueueRun(q: QueueId)
    | QueueCpus(q: QueueId) | QueueHosts(q: QueueId)
    | PoolUsed(p: PoolId)
    | RefsTo(t: JobId) | ElementsOf(a: JobId)

  /** The part of a job record that counts. */
  datatype Load = Load(
    queue: QueueId, state: JobState, list: JobList, exclusive: bool,
    cpus: int, mem: nat, storage: nat, tokens: seq<Token>, runHosts: seq<HostId>,
    deps: seq<D.Instr>, tag: ArrayTag)

  function LoadOf(job: Job): Load {
    Load(job.queue, job.state, job.list, job.exclusive, job.cpus, job.mem, job.storage, job.tokens, job.runHosts,
         job.deps, job.tag)
  }

  function TokensOf(ts: seq<Token>, p: PoolId): nat {
    if ts == [] then 0 else (if ts[0].pool == p then ts[0].count else 0) + TokensOf(ts[1..], p)
  }

  function One(b: bool): nat { if b then 1 else 0 }

  predicate OfHost(x: Measure) {
    x.HostCpu? || x.HostMem? || x.HostStorage? || x.HostJobs? || x.HostRun? || x.HostUsed? || x.HostExclusive?
  }

  predicate OfQueue(x: Measure) {
    x.QueueJobs? || x.QueuePend? || x.QueueHeld? || x.QueueRun? || x.QueueCpus? || x.QueueHosts?
  }

  /** What a running job takes on each of its hosts. */
  function Share(x: Measure, l: Load): int {
    match x
    case HostCpu(_) => l.cpus
    case HostMem(_) => l.mem
    case HostStorage(_) => l.storage
    case HostJobs(_) => 1
    case HostRun(_) => 1
    case HostUsed(_) => l.cpus
    case HostExclusive(_) => One(l.exclusive)
    case _ => 0
  }

  /** What a job adds to its queue. */
  function QueueShare(x: Measure, l: Load): int {
    match x
    case QueueJobs(_) => One(l.list != OnFinish)
    case QueuePend(_) => One(l.list == OnPend && l.state == Pending)
    case QueueHeld(_) => One(l.list == OnPend && l.state == Held)
    case QueueRun(_) => One(l.list == OnRun)
    case QueueCpus(_) => if l.list == OnRun then l.cpus * |l.runHosts| else 0
    case QueueHosts(_) => if l.list == OnRun then |l.runHosts| else 0
    case _ => 0
  }

  /** What one job contributes to a counter: the recount of mbd_assert_counters. */
  function Weight(x: Measure, l: Load): int {
    if OfHost(x) then (if l.list == OnRun && x.h in l.runHosts then Share(x, l) else 0)
    else if x.PoolUsed? then (if l.list == OnRun then TokensOf(l.tokens, x.p) else 0)
    else if x.RefsTo? then (if l.list == OnPend then Refs(l.deps, x.t) else 0)
    else if x.ElementsOf? then One(l.list != OnFinish && l.tag.id == x.a)
    else if l.queue == x.q then QueueShare(x, l) else 0
  }

  predicate Configured(x: Measure, m: Tables) {
    if OfHost(x) then x.h in m.hosts
    else if x.PoolUsed? then x.p in m.pools
    else OfQueue(x) && x.q in m.queues
  }

  function HostCounter(x: Measure, h: Host): int {
    match x
    case HostCpu(_) => h.totalCpu - h.freeCpu
    case HostMem(_) => h.totalMem - h.freeMem
    case HostStorage(_) => h.totalStorage - h.freeStorage
    case HostJobs(_) => h.numJobs
    case HostRun(_) => h.numRun
    case HostUsed(_) => h.cpusUsed
    case HostExclusive(_) => One(h.exclusive)
    case _ => 0
  }

  function QueueCounter(x: Measure, q: Queue): int {
    match x
    case QueueJobs(_) => q.numJobs
    case QueuePend(_) => q.numPend
    case QueueHeld(_) => q.numHeld
    case QueueRun(_) => q.numRun
    case QueueCpus(_) => q.cpusUsed
    case QueueHosts(_) => q.hostsUsed
    case _ => 0
  }

  /** What the daemon has in the counter. */
  function Counter(x: Measure, m: Tables): int
    requires Configured(x, m)
  {
    if OfHost(x) then HostCounter(x, m.hosts[x.h])
    else if x.PoolUsed? then m.pools[x.p].total - m.pools[x.p].free
    else QueueCounter(x, m.queues[x.q])
  }

  /** The recount over the jobs numbered 1..n. */
  function Total(x: Measure, jobs: map<JobId, Job>, n: nat): int {
    if n == 0 then 0
    else Total(x, jobs, n - 1) + if n in jobs then Weight(x, LoadOf(jobs[n])) else 0
  }

  ghost predicate CountersOk(m: Tables) {
    forall x :: Configured(x, m) ==> Counter(x, m) == Total(x, m.jobs, m.lastId)
  }

  // -------------------------------------------------------------------
  // Sums
  // -------------------------------------------------------------------

  ghost predicate SameLoads(a: map<JobId, Job>, b: map<JobId, Job>) {
    a.Keys == b.Keys && forall j :: j in a ==> LoadOf(a[j]) == LoadOf(b[j])
  }

  lemma {:induction false} TotalSame(x: Measure, a: map<JobId, Job>, b: map<JobId, Job>, n: nat)
    requires forall j :: 0 < j <= n ==> (j in a <==> j in b) && (j in a ==> LoadOf(a[j]) == LoadOf(b[j]))
    ensures Total(x, a, n) == Total(x, b, n)
  {
    if n > 0 { TotalSame(x, a, b, n - 1); }
  }

  lemma {:induction false} TotalReplaced(x: Measure, a: map<JobId, Job>, b: map<JobId, Job>, j: JobId, n: nat)
    requires 0 < j <= n && j in a && j in b
    requires forall k :: 0 < k <= n && k != j ==> (k in a <==> k in b) && (k in a ==> LoadOf(a[k]) == LoadOf(b[k]))
    ensures Total(x, b, n) == Total(x, a, n) - Weight(x, LoadOf(a[j])) + Weight(x, LoadOf(b[j]))
  {
    if n == j {
      TotalSame(x, a, b, n - 1);
    } else {
      TotalReplaced(x, a, b, j, n - 1);
    }
  }

  /** Jobs that weigh nothing may be in the table or not. */
  lemma {:induction false} TotalDropped(x: Measure, a: map<JobId, Job>, b: map<JobId, Job>, n: nat)
    requires forall j :: j in b ==> j in a && b[j] == a[j]
    requires forall j :: j in a && j !in b ==> Weight(x, LoadOf(a[j])) == 0
    ensures Total(x, a, n) == Total(x, b, n)
  {
    if n > 0 { TotalDropped(x, a, b, n - 1); }
  }

  lemma {:induction false} TotalAdded(x: Measure, jobs: map<JobId, Job>, j: JobId, job: Job, n: nat)
    requires 0 < j <= n && j !in jobs
    ensures Total(x, jobs[j := job], n) == Total(x, jobs, n) + Weight(x, LoadOf(job))
  {
    if n == j {
      TotalSame(x, jobs, jobs[j := job], n - 1);
    } else {
      TotalAdded(x, jobs, j, job, n - 1);
    }
  }

  lemma {:induction false} TotalExtended(x: Measure, jobs: map<JobId, Job>, n: nat, k: nat)
    requires n <= k && forall j :: j in jobs ==> j <= n
    ensures Total(x, jobs, k) == Total(x, jobs, n)
  {
    if k > n { TotalExtended(x, jobs, n, k - 1); }
  }

  // -------------------------------------------------------------------
  // Charging and releasing a whole plan
  // -------------------------------------------------------------------

  lemma {:induction false} ChargedEach(hosts: map<HostId, Host>, hs: seq<HostId>, job: Job)
    requires DistinctHosts(hs)
    ensures ChargeAll(hosts, hs, job).Keys == hosts.Keys
    ensures forall h :: h in hosts ==>
              ChargeAll(hosts, hs, job)[h] == if h in hs then Charge(hosts[h], job) else hosts[h]
  {
    if hs != [] {
      assert DistinctHosts(hs[1..]);
      assert hs == [hs[0]] + hs[1..] && hs[0] !in hs[1..];
      if hs[0] in hosts {
        var next := hosts[hs[0] := Charge(hosts[hs[0]], job)];
        ChargedEach(next, hs[1..], job);
      } else {
        ChargedEach(hosts, hs[1..], job);
      }
    }
  }

  lemma {:induction false} ReleasedEach(hosts: map<HostId, Host>, hs: seq<HostId>, job: Job)
    requires DistinctHosts(hs)
    ensures ReleaseAll(hosts, hs, job).Keys == hosts.Keys
    ensures forall h :: h in hosts ==>
              ReleaseAll(hosts, hs, job)[h] == if h in hs then Release(hosts[h], job) else hosts[h]
  {
    if hs != [] {
      assert DistinctHosts(hs[1..]);
      assert hs == [hs[0]] + hs[1..] && hs[0] !in hs[1..];
      if hs[0] in hosts {
        var next := hosts[hs[0] := Release(hosts[hs[0]], job)];
        ReleasedEach(next, hs[1..], job);
      } else {
        ReleasedEach(hosts, hs[1..], job);
      }
    }
  }

  lemma {:induction false} TokensMoved(pools: map<PoolId, Pool>, ts: seq<Token>, sign: int)
    requires sign == 1 || sign == -1
    ensures MoveTokens(pools, ts, sign).Keys == pools.Keys
    ensures forall p :: p in pools ==>
              && MoveTokens(pools, ts, sign)[p].total == pools[p].total
              && MoveTokens(pools, ts, sign)[p].free == pools[p].free + sign * TokensOf(ts, p)
  {
    if ts != [] {
      if ts[0].pool in pools {
        var p := pools[ts[0].pool];
        var next := pools[ts[0].pool := p.(free := p.free + sign * ts[0].count)];
        TokensMoved(next, ts[1..], sign);
      } else {
        TokensMoved(pools, ts[1..], sign);
      }
    }
  }

  // -------------------------------------------------------------------
  // What the handlers rely on
  // -------------------------------------------------------------------

  /** Ids are drawn in order; running jobs sit on distinct configured hosts. */
  ghost predicate JobsOk(m: Tables) {
    && (forall j :: j in m.jobs ==> 0 < j <= m.lastId && m.jobs[j].queue in m.queues && m.jobs[j].cpus >= 0)
    && (forall j :: j in m.jobs && m.jobs[j].list == OnRun ==>
          DistinctHosts(m.jobs[j].runHosts) && m.jobs[j].state == Running
          && forall h :: h in m.jobs[j].runHosts ==> h in m.hosts)
    && (forall j :: j in m.jobs && m.jobs[j].list == OnPend ==> m.jobs[j].state in {Pending, Held})
  }

  /** Nothing is overdrawn, and an exclusive host has its one job. */
  ghost predicate HostsOk(m: Tables) {
    forall h :: h in m.hosts ==>
      && m.hosts[h].freeCpu >= 0 && m.hosts[h].freeMem >= 0 && m.hosts[h].freeStorage >= 0
      && (m.hosts[h].exclusive ==> m.hosts[h].numJobs == 1)
  }

  ghost predicate BooksOk(m: Tables) {
    JobsOk(m) && HostsOk(m) && CountersOk(m)
  }

  /** j is the only job whose load changed, and the counters moved with it. */
  lemma {:induction false} OneJobMoved(m: Tables, t: Tables, j: JobId)
    requires CountersOk(m) && j in m.jobs && j in t.jobs && 0 < j <= m.lastId && t.lastId == m.lastId
    requires forall k :: k != j ==> (k in m.jobs <==> k in t.jobs) && (k in m.jobs ==> LoadOf(m.jobs[k]) == LoadOf(t.jobs[k]))
    requires t.hosts.Keys == m.hosts.Keys && t.queues.Keys == m.queues.Keys && t.pools.Keys == m.pools.Keys
    requires forall x :: Configured(x, m) ==>
               Counter(x, t) - Counter(x, m) == Weight(x, LoadOf(t.jobs[j])) - Weight(x, LoadOf(m.jobs[j]))
    ensures CountersOk(t)
  {
    forall x | Configured(x, t)
      ensures Counter(x, t) == Total(x, t.jobs, t.lastId)
    {
      assert Configured(x, m);
      TotalReplaced(x, m.jobs, t.jobs, j, m.lastId);
    }
  }

  lemma {:induction false} SameBooks(m: Tables, t: Tables)
    requires CountersOk(m) && SameLoads(m.jobs, t.jobs) && t.lastId == m.lastId
    requires t.hosts == m.hosts && t.queues == m.queues && t.pools == m.pools
    ensures CountersOk(t)
  {
    forall x | Configured(x, t)
      ensures Counter(x, t) == Total(x, t.jobs, t.lastId)
    {
      assert Configured(x, m);
      TotalSame(x, m.jobs, t.jobs, m.lastId);
    }
  }

  lemma {:induction false} AdjustKeepsLoads(jobs: map<JobId, Job>, deps: seq<D.Instr>, delta: int)
    ensures SameLoads(jobs, AdjustRefs(jobs, deps, delta))
  {
  }

  lemma {:induction false} ElementKeepsLoads(jobs: map<JobId, Job>, head: JobId)
    ensures SameLoads(jobs, ElementFinished(jobs, head))
  {
  }
}
