/**
 One scheduling cycle: in what order jobs are tried, on which hosts they go,
 and why a job that could not be placed when its turn came cannot be placed
 at the end of the cycle either.
 */
module Scheduler {
  import opened Mbd
  import opened JobLists
  import opened Accounting
  import opened AccountingSteps
  import opened Conditions
  import opened Int32

  // -------------------------------------------------------------------
  // The order of pending jobs
  // -------------------------------------------------------------------

  /** What decides a job's turn: priority of its queue, its own, its id. */
  datatype Rank = Rank(queue: int, job: int, id: int)

  predicate Fits(r: Rank) {
    INT_MIN <= r.queue <= INT_MAX && INT_MIN <= r.job <= INT_MAX
  }

  /** pend_job_cmp */
  function Cmp(a: Rank, b: Rank): int {
    var q := Wrap(b.queue - a.queue);
    if q != 0 then q
    else
      var p := Wrap(b.job - a.job);
      if p != 0 then p else if a.id < b.id then -1 else if a.id > b.id then 1 else 0
  }

  /** What the comparison is for. */
  predicate Ahead(a: Rank, b: Rank) {
    || a.queue > b.queue
    || (a.queue == b.queue && a.job > b.job)
    || (a.queue == b.queue && a.job == b.job && a.id < b.id)
  }

  predicate NoWrap(x: int, y: int) {
    INT_MIN <= x - y <= INT_MAX
  }

  lemma {:induction false} WrapSign(x: int, y: int)
    requires INT_MIN <= x <= INT_MAX && INT_MIN <= y <= INT_MAX
    ensures Wrap(x - y) == 0 <==> x == y
    ensures NoWrap(x, y) <==> (Wrap(x - y) < 0 <==> x < y)
  {
  }

  /** The comparison is the intended order exactly while differences of
      priorities fit an int. */
  lemma {:induction false} CmpExact(a: Rank, b: Rank)
    requires Fits(a) && Fits(b)
    ensures (Cmp(a, b) < 0 <==> Ahead(a, b))
            <==> (if a.queue != b.queue then NoWrap(b.queue, a.queue) else NoWrap(b.job, a.job))
  {
    WrapSign(b.queue, a.queue);
    WrapSign(b.job, a.job);
  }

  /** Priorities of opposite sign can go round in a circle: jobs submitted to
      queues of these priorities, whose priority they take. */
  lemma {:induction false} CmpCircle()
    ensures var a, b, c := Rank(INT_MAX, INT_MAX, 1), Rank(0, 0, 2), Rank(-INT_MAX, -INT_MAX, 3);
            Fits(a) && Fits(b) && Fits(c) && Cmp(a, b) < 0 && Cmp(b, c) < 0 && Cmp(c, a) < 0
  {
    assert Wrap(-INT_MAX) == -INT_MAX;
    assert Wrap(INT_MAX - -INT_MAX) == -2;
  }

  ghost predicate Tame(ranks: seq<Rank>) {
    forall i, k :: 0 <= i < |ranks| && 0 <= k < |ranks| ==>
      Fits(ranks[i]) && NoWrap(ranks[i].queue, ranks[k].queue) && NoWrap(ranks[i].job, ranks[k].job)
  }

  /** No two priorities that are not negative are too far apart. */
  lemma {:induction false} NotNegativeIsTame(ranks: seq<Rank>)
    requires forall i :: 0 <= i < |ranks| ==> 0 <= ranks[i].queue <= INT_MAX && 0 <= ranks[i].job <= INT_MAX
    ensures Tame(ranks)
  {
    forall i, k | 0 <= i < |ranks| && 0 <= k < |ranks|
      ensures Fits(ranks[i]) && NoWrap(ranks[i].queue, ranks[k].queue) && NoWrap(ranks[i].job, ranks[k].job)
    {
    }
  }

  /** A list sorted by the comparison. */
  ghost predicate Sorted(ranks: seq<Rank>) {
    forall i, k :: 0 <= i < k < |ranks| ==> Cmp(ranks[i], ranks[k]) < 0
  }

  lemma {:induction false} SortedAhead(ranks: seq<Rank>)
    requires Tame(ranks)
    ensures Sorted(ranks) <==> InOrder(ranks)
  {
    forall i, k | 0 <= i < |ranks| && 0 <= k < |ranks|
      ensures Cmp(ranks[i], ranks[k]) < 0 <==> Ahead(ranks[i], ranks[k])
    {
      CmpExact(ranks[i], ranks[k]);
    }
  }

  ghost predicate InOrder(s: seq<Rank>) {
    forall i, k :: 0 <= i < k < |s| ==> Ahead(s[i], s[k])
  }

  lemma {:induction false} SameRest(a: seq<Rank>, b: seq<Rank>)
    requires a != [] && b != [] && a[0] == b[0] && multiset(a) == multiset(b)
    ensures multiset(a[1..]) == multiset(b[1..])
  {
    assert a == [a[0]] + a[1..] && b == [b[0]] + b[1..];
    assert multiset(a[1..]) == multiset(a) - multiset{a[0]};
    assert multiset(b[1..]) == multiset(b) - multiset{b[0]};
  }

  lemma {:induction false} SameFirst(a: seq<Rank>, b: seq<Rank>)
    requires a != [] && b != [] && InOrder(a) && InOrder(b) && multiset(a) == multiset(b)
    ensures a[0] == b[0]
  {
    assert a[0] in multiset(b) && b[0] in multiset(a);
    FirstIsLeast(a, b[0]);
    FirstIsLeast(b, a[0]);
  }

  lemma {:induction false} InOrderUnique(a: seq<Rank>, b: seq<Rank>)
    requires InOrder(a) && InOrder(b) && multiset(a) == multiset(b)
    ensures a == b
  {
    assert |a| == |multiset(a)| == |multiset(b)| == |b|;
    if a != [] {
      SameFirst(a, b);
      SameRest(a, b);
      InOrderUnique(a[1..], b[1..]);
      assert a == [a[0]] + a[1..] && b == [b[0]] + b[1..];
    }
  }

  /** Whatever qsort does, there is one sorted list. */
  lemma {:induction false} SortedUnique(a: seq<Rank>, b: seq<Rank>)
    requires Tame(a) && Tame(b) && Sorted(a) && Sorted(b) && multiset(a) == multiset(b)
    ensures a == b
  {
    SortedAhead(a);
    SortedAhead(b);
    InOrderUnique(a, b);
  }

  lemma {:induction false} FirstIsLeast(s: seq<Rank>, x: Rank)
    requires s != [] && x in s && InOrder(s)
    ensures x == s[0] || Ahead(s[0], x)
  {
  }

  // -------------------------------------------------------------------
  // Who could be dispatched
  // -------------------------------------------------------------------

  /** job_is_ready */
  predicate Ready(job: Job, now: int) {
    job.state == Pending && !(job.beginTime > 0 && job.beginTime > now)
  }

  predicate Eligible(m: Tables, job: Job, h: HostId) {
    h in m.hosts && job.queue in m.queues && h in m.queues[job.queue].members && Meets(m.hosts[h], job)
  }

  ghost predicate AllEligible(m: Tables, job: Job, hs: seq<HostId>) {
    forall h :: h in hs ==> Eligible(m, job, h)
  }

  /** Some host plan exists. */
  ghost predicate Feasible(m: Tables, job: Job) {
    if job.machines != [] then AllEligible(m, job, job.machines)
    else exists hs :: |hs| == job.nhosts && DistinctHosts(hs) && AllEligible(m, job, hs)
  }

  /** Everything schedule() asks of a job. */
  ghost predicate CanRun(m: Tables, j: JobId, now: int) {
    && OnList(m, j, OnPend) && Ready(m.jobs[j], now) && m.queues[m.jobs[j].queue].open
    && TokensAvailable(m.pools, m.jobs[j].tokens) && Satisfied(m, m.jobs[j].deps) && Feasible(m, m.jobs[j])
  }

  /** What build_host_plan may return: the hosts asked for, or the ones with
      least free cpus. */
  ghost predicate GoodPlan(m: Tables, job: Job, plan: seq<HostId>) {
    && |plan| == job.nhosts && DistinctHosts(plan) && AllEligible(m, job, plan)
    && (if job.machines != [] then forall h :: h in job.machines <==> h in plan
        else forall h, g :: h in plan && Eligible(m, job, g) && g !in plan ==>
               h in m.hosts && m.hosts[h].freeCpu <= m.hosts[g].freeCpu)
  }

  lemma {:induction false} GoodPlanPlaceable(m: Tables, job: Job, plan: seq<HostId>)
    requires GoodPlan(m, job, plan) && job.queue in m.queues && TokensAvailable(m.pools, job.tokens)
    ensures Placeable(m, job, plan)
  {
    forall i | 0 <= i < |plan|
      ensures Eligible(m, job, plan[i])
    {
      assert plan[i] in plan;
    }
  }

  // -------------------------------------------------------------------
  // Resources only shrink during a cycle
  // -------------------------------------------------------------------

  predicate NoMore(h: Host, g: Host) {
    && (h.candidate ==> g.candidate) && (!h.exclusive ==> !g.exclusive) && h.numJobs >= g.numJobs
    && h.freeCpu <= g.freeCpu && h.freeMem <= g.freeMem && h.freeStorage <= g.freeStorage
  }

  /** t offers no more than m, to jobs that m and t describe alike. */
  ghost predicate Shrunk(m: Tables, t: Tables) {
    && t.hosts.Keys == m.hosts.Keys && t.pools.Keys == m.pools.Keys && t.queues.Keys == m.queues.Keys
    && (forall h :: h in m.hosts ==> NoMore(t.hosts[h], m.hosts[h]))
    && (forall p :: p in m.pools ==> t.pools[p].free <= m.pools[p].free)
    && (forall q :: q in m.queues ==> t.queues[q].open == m.queues[q].open && t.queues[q].members == m.queues[q].members)
  }

  /** A job as far as the scheduler looks at it. */
  predicate SameAsk(a: Job, b: Job) {
    b == a.(depRefcnt := b.depRefcnt)
  }

  lemma {:induction false} EligibleBefore(m: Tables, t: Tables, a: Job, b: Job, h: HostId)
    requires Shrunk(m, t) && SameAsk(a, b) && Eligible(t, b, h)
    ensures Eligible(m, a, h)
  {
    assert NoMore(t.hosts[h], m.hosts[h]);
  }

  lemma {:induction false} FeasibleBefore(m: Tables, t: Tables, a: Job, b: Job)
    requires Shrunk(m, t) && SameAsk(a, b) && Feasible(t, b)
    ensures Feasible(m, a)
  {
    if a.machines != [] {
      forall h | h in a.machines
        ensures Eligible(m, a, h)
      {
        EligibleBefore(m, t, a, b, h);
      }
    } else {
      var hs :| |hs| == b.nhosts && DistinctHosts(hs) && AllEligible(t, b, hs);
      forall h | h in hs
        ensures Eligible(m, a, h)
      {
        EligibleBefore(m, t, a, b, h);
      }
      assert AllEligible(m, a, hs);
    }
  }

  lemma {:induction false} TokensBefore(m: Tables, t: Tables, ts: seq<Token>)
    requires Shrunk(m, t) && TokensAvailable(t.pools, ts)
    ensures TokensAvailable(m.pools, ts)
  {
  }

  lemma {:induction false} ChargedLess(h: Host, job: Job)
    requires job.cpus >= 0
    ensures NoMore(Charge(h, job), h)
  {
  }

  /** A dispatch takes and gives nothing. */
  lemma {:induction false} DispatchShrinks(m: Tables, j: JobId, plan: seq<HostId>, now: int)
    requires OnList(m, j, OnPend) && DistinctHosts(plan) && m.jobs[j].cpus >= 0
    ensures Shrunk(m, Dispatch(m, j, plan, now))
  {
    var job := m.jobs[j].(state := Running, list := OnRun, dispatchTime := now, runHosts := plan);
    ChargedEach(m.hosts, plan, job);
    TokensMoved(m.pools, job.tokens, -1);
    forall h | h in m.hosts
      ensures NoMore(Dispatch(m, j, plan, now).hosts[h], m.hosts[h])
    {
      ChargedLess(m.hosts[h], job);
    }
  }

  // -------------------------------------------------------------------
  // Conditions do not change during a cycle
  // -------------------------------------------------------------------

  /** Dispatching never finishes a job: no condition can tell. */
  ghost predicate SameEnds(m: Tables, t: Tables) {
    && ListsOk(m) && ListsOk(t) && t.jobs.Keys == m.jobs.Keys
    && forall j :: j in m.jobs ==>
         && t.jobs[j].tag == m.jobs[j].tag
         && (t.jobs[j].list == OnFinish <==> m.jobs[j].list == OnFinish)
         && (t.jobs[j].state == JobState.Done <==> m.jobs[j].state == JobState.Done)
         && (t.jobs[j].state == Exited <==> m.jobs[j].state == Exited)
  }

  lemma {:induction false} SameCalls(m: Tables, t: Tables, k: D.Kind, j: int)
    requires SameEnds(m, t)
    ensures CallEval(m, k, j) == CallEval(t, k, j)
  {
    if j in m.jobs && IsHead(j, m.jobs[j]) {
      ArrayCheckMeans(m, j, k);
      ArrayCheckMeans(t, j, k);
    }
  }

  lemma {:induction false} SameSatisfied(m: Tables, t: Tables, deps: seq<D.Instr>)
    requires SameEnds(m, t)
    ensures Satisfied(m, deps) == Satisfied(t, deps)
  {
    forall k, j
      ensures Checker(m)(k, j) == Checker(t)(k, j)
    {
      SameCalls(m, t, k, j);
    }
    ExecAgree(deps, [], Checker(m), Checker(t));
  }

  lemma {:induction false} DispatchEnds(m: Tables, j: JobId, plan: seq<HostId>, now: int)
    requires ListsOk(m) && OnList(m, j, OnPend) && m.jobs[j].state == Pending
    ensures SameEnds(m, Dispatch(m, j, plan, now))
  {
    DispatchKeepsLists(m, j, plan, now);
  }

  // -------------------------------------------------------------------
  // A job that cannot run now cannot run later in the cycle
  // -------------------------------------------------------------------

  /** t is a later state of m's cycle, in which j is still pending. */
  ghost predicate Later(m: Tables, t: Tables, j: JobId) {
    Shrunk(m, t) && SameEnds(m, t) && j in m.jobs && SameAsk(m.jobs[j], t.jobs[j])
  }

  lemma {:induction false} CannotLater(m: Tables, t: Tables, j: JobId, now: int)
    requires Later(m, t, j) && CanRun(t, j, now)
    ensures CanRun(m, j, now)
  {
    TokensBefore(m, t, t.jobs[j].tokens);
    SameSatisfied(m, t, t.jobs[j].deps);
    FeasibleBefore(m, t, m.jobs[j], t.jobs[j]);
  }

  lemma {:induction false} DispatchLater(m: Tables, j: JobId, plan: seq<HostId>, now: int, k: JobId)
    requires ListsOk(m) && OnList(m, j, OnPend) && m.jobs[j].state == Pending && DistinctHosts(plan) && m.jobs[j].cpus >= 0
    requires k in m.jobs && k != j
    ensures Later(m, Dispatch(m, j, plan, now), k)
  {
    DispatchShrinks(m, j, plan, now);
    DispatchEnds(m, j, plan, now);
  }

  // -------------------------------------------------------------------
  // Asking for less
  // -------------------------------------------------------------------

  ghost predicate TokensNoMore(a: seq<Token>, b: seq<Token>) {
    forall i :: 0 <= i < |a| ==> exists k :: 0 <= k < |b| && b[k].pool == a[i].pool && a[i].count <= b[k].count
  }

  lemma {:induction false} LessTokens(pools: map<PoolId, Pool>, a: seq<Token>, b: seq<Token>)
    requires TokensNoMore(a, b) && TokensAvailable(pools, b)
    ensures TokensAvailable(pools, a)
  {
    forall i | 0 <= i < |a|
      ensures a[i].pool in pools && pools[a[i].pool].free >= a[i].count
    {
      var k :| 0 <= k < |b| && b[k].pool == a[i].pool && a[i].count <= b[k].count;
    }
  }

  /** a asks for no more than b in every dimension. */
  ghost predicate AsksNoMore(a: Job, b: Job) {
    && a.queue == b.queue && a.machines == [] && b.machines == []
    && 0 <= a.nhosts <= b.nhosts && a.cpus <= b.cpus && a.mem <= b.mem && a.storage <= b.storage
    && (a.exclusive ==> b.exclusive)
    && TokensNoMore(a.tokens, b.tokens)
  }

  lemma {:induction false} LessIsFeasible(m: Tables, a: Job, b: Job)
    requires AsksNoMore(a, b) && Feasible(m, b)
    ensures Feasible(m, a)
  {
    var hs :| |hs| == b.nhosts && DistinctHosts(hs) && AllEligible(m, b, hs);
    var less := hs[..a.nhosts];
    forall h | h in less
      ensures Eligible(m, a, h)
    {
      assert h in hs;
    }
    assert |less| == a.nhosts && DistinctHosts(less) && AllEligible(m, a, less);
  }

  /** If b can run, a job that asks for less can. */
  lemma {:induction false} LessCanRun(m: Tables, a: JobId, b: JobId, now: int)
    requires CanRun(m, b, now) && OnList(m, a, OnPend) && AsksNoMore(m.jobs[a], m.jobs[b])
    requires Ready(m.jobs[a], now) && Satisfied(m, m.jobs[a].deps)
    ensures CanRun(m, a, now)
  {
    LessIsFeasible(m, m.jobs[a], m.jobs[b]);
    LessTokens(m.pools, m.jobs[a].tokens, m.jobs[b].tokens);
  }
}
