/**
 Runs that show where a tempting property fails: each state here is reached
 from empty tables by steps the daemon takes.
 */
module Witnesses {
  import opened Mbd
  import opened JobLists
  import opened Accounting
  import opened MbdSafety
  import opened Refcount
  import opened Conditions
  import opened Int32
  import opened Scheduler
  import opened SchedulerCycle
  import N = Names

  ghost predicate Reachable(m: Tables) {
    exists tr, steps, clock :: IsRun(tr, steps, clock) && tr[|steps|] == m
  }

  lemma {:induction false} Begins(m: Tables)
    requires Init(m)
    ensures Reachable(m)
  {
    var tr, steps: seq<Step>, clock: seq<int> := [m], [], [];
    assert IsRun(tr, steps, clock) && tr[|steps|] == m;
  }

  lemma {:induction false} GoesOn(m: Tables, step: Step, now: int)
    requires Reachable(m) && Enabled(m, step, now)
    ensures Reachable(Next(m, step, now))
  {
    var tr, steps, clock :| IsRun(tr, steps, clock) && tr[|steps|] == m;
    var t := Next(m, step, now);
    var tr2, steps2, clock2 := tr + [t], steps + [step], clock + [now];
    assert IsRun(tr2, steps2, clock2) && tr2[|steps2|] == t;
  }

  // -------------------------------------------------------------------
  // A small installation
  // -------------------------------------------------------------------

  const HOST := N.HostId("h")
  const QUEUE := N.QueueId("q")
  const POOL := N.PoolId("p")

  function NoWords(): Words {
    Words(7, 0, "u", "n", "", "", "", "", "")
  }

  function Ask(queue: QueueId, deps: seq<D.Instr>, tokens: seq<Token>): Request {
    Request(7, queue, false, false, 1, 1, 0, 0, [], [], tokens, deps, 0, 0, false, 0, 0, 1, NoWords())
  }

  function FreeHost(up: bool, busy: int): Host {
    Host(up, up, up, false, 4, 4 - busy, 0, 0, 0, 0, busy, busy, busy)
  }

  function OneQueue(pend: int, run: int): Queue {
    Queue(true, 1, {HOST}, pend + run, pend, 0, run, run, run)
  }

  function Empty(): Tables {
    Tables(map[], [], [], [], map[HOST := FreeHost(false, 0)], map[QUEUE := OneQueue(0, 0)],
           map[POOL := Pool(1, 1)], 0, 0, [])
  }

  lemma {:induction false} EmptyBegins()
    ensures Reachable(Empty())
  {
    Begins(Empty());
  }

  /** One job, not an array: it takes the next id. */
  lemma {:induction false} SubmitOne(m: Tables, req: Request, now: int)
    requires GoodRequest(m, req) && !req.isArray && forall j :: j in m.jobs ==> j <= m.lastId
    ensures var id := m.lastId + 1;
            Submit(m, req, now)
            == Commit(m, id, Prepared(req, m.queues[req.queue].priority, id, 0, 1, now), req.nhosts).(lastId := id, savedId := id)
  {
    var ids := DrawIds(m.jobs, m.lastId, 1);
    assert NextId(m.jobs, m.lastId) == m.lastId + 1;
    assert ids == [m.lastId + 1] + DrawIds(m.jobs, m.lastId + 1, 0) == [m.lastId + 1];
    var t := CommitNth(m, req, ids, 0, now);
    assert CommitRest(m, req, ids, 1, now) == CommitRest(t, req, ids, 0, now) == t;
  }

  /** What a submission leaves: the new job at the end of the pending list. */
  lemma {:induction false} Submitted(m: Tables, req: Request, now: int, job: Job)
    requires GoodRequest(m, req) && !req.isArray && forall j :: j in m.jobs ==> j <= m.lastId
    requires job == Prepared(req, m.queues[req.queue].priority, m.lastId + 1, 0, 1, now)
    ensures var t := Submit(m, req, now);
            && t.jobs == AdjustRefs(m.jobs[m.lastId + 1 := job], req.deps, 1)
            && t.pend == m.pend + [m.lastId + 1] && t.run == m.run && t.fin == m.fin
            && t.hosts == m.hosts && t.pools == m.pools && t.lastId == m.lastId + 1
            && t.queues.Keys == m.queues.Keys
            && forall q :: q in m.queues ==> t.queues[q].members == m.queues[q].members && t.queues[q].priority == m.queues[q].priority
  {
    hide LoggedWords, KeptWords, Refs, AdjustRefs;
    SubmitOne(m, req, now);
  }

  lemma {:induction false} NoRefs(jobs: map<JobId, Job>, delta: int)
    ensures AdjustRefs(jobs, [], delta) == jobs
  {
  }

  /** A job that one cpu of the host is enough for. */
  predicate Small(job: Job) {
    && job.queue == QUEUE && job.nhosts == 1 && job.cpus == 1 && job.mem == 0 && job.storage == 0
    && !job.exclusive && job.tokens == []
  }

  /** The host is up with nothing on it, or with one small job. */
  predicate Site(m: Tables, busy: int) {
    m.hosts == map[HOST := FreeHost(true, busy)] && QUEUE in m.queues && m.queues[QUEUE].members == {HOST}
  }

  lemma {:induction false} Dispatched(m: Tables, j: JobId)
    requires Reachable(m) && Site(m, 0) && j in m.jobs && Small(m.jobs[j])
    requires m.jobs[j].list == OnPend && m.jobs[j].state == Pending
    ensures var t := Dispatch(m, j, [HOST], 2);
            && Reachable(t) && Site(t, 1) && t.lastId == m.lastId
            && t.jobs == AdjustRefs(m.jobs[j := m.jobs[j].(state := Running, list := OnRun, dispatchTime := 2, runHosts := [HOST])],
                                    m.jobs[j].deps, -1)
            && t.pend == Without(m.pend, j) && t.run == m.run + [j] && t.fin == m.fin
  {
    hide AdjustRefs, N.LoggedHosts;
    assert Meets(m.hosts[HOST], m.jobs[j]);
    GoesOn(m, DoDispatch(j, [HOST]), 2);
    var job := m.jobs[j].(state := Running, list := OnRun, dispatchTime := 2, runHosts := [HOST]);
    assert [HOST][1..] == [];
    assert ChargeAll(m.hosts, [HOST], job) == m.hosts[HOST := Charge(m.hosts[HOST], job)];
  }

  lemma {:induction false} Released(m: Tables, j: JobId)
    requires Site(m, 1) && j in m.jobs && Small(m.jobs[j]) && m.jobs[j].runHosts == [HOST]
    ensures ReleaseAll(m.hosts, m.jobs[j].runHosts, m.jobs[j]) == map[HOST := FreeHost(true, 0)]
  {
    assert [HOST][1..] == [];
  }

  lemma {:induction false} Finished(m: Tables, j: JobId, success: bool)
    requires Reachable(m) && Site(m, 1) && j in m.jobs && Small(m.jobs[j]) && m.jobs[j].runHosts == [HOST] && m.jobs[j].list == OnRun
    ensures var t := Finish(m, j, success, 0, 3);
            && Reachable(t) && Site(t, 0) && t.lastId == m.lastId
            && t.jobs == ElementFinished(m.jobs[j := m.jobs[j].(endTime := 3, exitStatus := 0, list := OnFinish,
                                                               state := if success then JobState.Done else Exited)],
                                         m.jobs[j].tag.id)
            && t.pend == m.pend && t.run == Without(m.run, j) && t.fin == m.fin + [j]
  {
    hide ElementFinished, ReleaseAll;
    GoesOn(m, DoFinish(j, success, 0), 3);
    Released(m, j);
  }

  lemma {:induction false} Rejected(m: Tables, j: JobId)
    requires Reachable(m) && Site(m, 1) && j in m.jobs && Small(m.jobs[j]) && m.jobs[j].runHosts == [HOST] && m.jobs[j].list == OnRun
    ensures var t := Reject(m, j, 4);
            && Reachable(t) && t.lastId == m.lastId
            && t.jobs == m.jobs[j := m.jobs[j].(pid := 0, forkTime := 0, dispatchTime := 0, state := Pending, list := OnPend, runHosts := [])]
            && t.pend == m.pend + [j] && t.run == Without(m.run, j) && t.fin == m.fin
  {
    hide ReleaseAll;
    GoesOn(m, DoReject(j), 4);
    Released(m, j);
  }

  // -------------------------------------------------------------------
  // A pool named twice
  // -------------------------------------------------------------------

  const TWICE := [Token(POOL, 1), Token(POOL, 1)]

  lemma {:induction false} TokenJobPending() returns (m: Tables)
    ensures Reachable(m) && m.pools == map[POOL := Pool(1, 1)] && m.hosts == map[HOST := FreeHost(true, 0)]
    ensures QUEUE in m.queues && m.queues[QUEUE].members == {HOST}
    ensures 1 in m.jobs && m.jobs[1].tokens == TWICE && m.jobs[1].nhosts == 1 && m.jobs[1].queue == QUEUE
    ensures m.jobs[1].list == OnPend && m.jobs[1].state == Pending && m.jobs[1].cpus == 1
    ensures !m.jobs[1].exclusive && m.jobs[1].mem == 0 && m.jobs[1].storage == 0
  {
    EmptyBegins();
    var req := Ask(QUEUE, [], TWICE);
    var job := Prepared(req, 1, 1, 0, 1, 1);
    Submitted(Empty(), req, 1, job);
    GoesOn(Empty(), DoSubmit(req), 1);
    NoRefs(map[1 := job], 1);
    var t := Submit(Empty(), req, 1);
    MarkedUp(t);
    m := Next(t, DoMark(map[HOST := Up(true, true)]), 1);
  }

  lemma {:induction false} MarkedUp(m: Tables)
    requires Reachable(m) && m.hosts == map[HOST := FreeHost(false, 0)]
    ensures var step := DoMark(map[HOST := Up(true, true)]);
            && Enabled(m, step, 1) && Reachable(Next(m, step, 1))
            && Next(m, step, 1) == m.(hosts := map[HOST := FreeHost(true, 0)])
  {
    GoesOn(m, DoMark(map[HOST := Up(true, true)]), 1);
  }

  lemma {:induction false} TwiceTaken(pools: map<PoolId, Pool>)
    requires pools == map[POOL := Pool(1, 1)]
    ensures TokensAvailable(pools, TWICE) && POOL in MoveTokens(pools, TWICE, -1) && MoveTokens(pools, TWICE, -1)[POOL].free == -1
  {
    TokensMoved(pools, TWICE, -1);
    assert TWICE[1..] == [Token(POOL, 1)] && TWICE[1..][1..] == [];
    assert TokensOf(TWICE, POOL) == 1 + TokensOf(TWICE[1..], POOL) == 2;
  }

  /** A dispatch the daemon makes overdraws a pool that its job names twice. */
  lemma {:induction false} SamePoolTwiceOverdraws() returns (m: Tables)
    ensures Reachable(m) && FullPools(m.pools) && Enabled(m, DoDispatch(1, [HOST]), 2)
    ensures POOL in Next(m, DoDispatch(1, [HOST]), 2).pools && Next(m, DoDispatch(1, [HOST]), 2).pools[POOL].free == -1
  {
    m := TokenJobPending();
    TwiceTaken(m.pools);
  }

  // -------------------------------------------------------------------
  // A request for less than no cpus
  // -------------------------------------------------------------------

  predicate AsksFor(step: Step, c: int) {
    !step.DoRestart? && (step.DoSubmit? ==> step.req.cpus == c)
  }

  ghost predicate ReachableAsking(m: Tables, c: int) {
    exists tr, steps, clock ::
      && IsRun(tr, steps, clock) && tr[|steps|] == m
      && forall k :: 0 <= k < |steps| ==> AsksFor(steps[k], c)
  }

  lemma {:induction false} GoesOnAsking(m: Tables, step: Step, now: int, c: int)
    requires ReachableAsking(m, c) && Enabled(m, step, now) && AsksFor(step, c)
    ensures ReachableAsking(Next(m, step, now), c)
  {
    var tr, steps, clock :|
      && IsRun(tr, steps, clock) && tr[|steps|] == m
      && forall k :: 0 <= k < |steps| ==> AsksFor(steps[k], c);
    var t := Next(m, step, now);
    var tr2, steps2, clock2 := tr + [t], steps + [step], clock + [now];
    assert IsRun(tr2, steps2, clock2) && tr2[|steps2|] == t;
    assert forall k :: 0 <= k < |steps2| ==> AsksFor(steps2[k], c);
  }

  lemma {:induction false} EmptyAsking(c: int)
    ensures ReachableAsking(Empty(), c)
  {
    var tr, steps: seq<Step>, clock: seq<int> := [Empty()], [], [];
    assert IsRun(tr, steps, clock) && tr[|steps|] == Empty();
  }

  lemma {:induction false} MinusPending(c: int) returns (m: Tables)
    ensures ReachableAsking(m, c) && Site(m, 0) && 1 in m.jobs && m.jobs[1].list == OnPend && m.jobs[1].state == Pending
    ensures Small(m.jobs[1].(cpus := 1)) && m.jobs[1].cpus == c && m.jobs[1].deps == []
  {
    hide Submit, ReachableAsking, KeptWords, AdjustRefs;
    EmptyAsking(c);
    var req := Ask(QUEUE, [], []).(cpus := c);
    var job := Prepared(req, 1, 1, 0, 1, 1);
    Submitted(Empty(), req, 1, job);
    GoesOnAsking(Empty(), DoSubmit(req), 1, c);
    NoRefs(map[1 := job], 1);
    var s := Submit(Empty(), req, 1);
    GoesOnAsking(s, DoMark(map[HOST := Up(true, true)]), 1, c);
    m := Next(s, DoMark(map[HOST := Up(true, true)]), 1);
  }

  /** Nothing refuses it, and its dispatch leaves more free than there is. */
  lemma {:induction false} NegativeCpusOverfill(c: int) returns (m: Tables)
    requires c < 0
    ensures ReachableAsking(m, c) && HOST in m.hosts && m.hosts[HOST].freeCpu > m.hosts[HOST].totalCpu
  {
    var u := MinusPending(c);
    hide ReachableAsking, AdjustRefs, N.HostsText;
    assert Meets(u.hosts[HOST], u.jobs[1]);
    GoesOnAsking(u, DoDispatch(1, [HOST]), 2, c);
    m := Dispatch(u, 1, [HOST], 2);
    var job := u.jobs[1].(state := Running, list := OnRun, dispatchTime := 2, runHosts := [HOST]);
    assert [HOST][1..] == [];
    assert ChargeAll(u.hosts, [HOST], job) == u.hosts[HOST := Charge(u.hosts[HOST], job)];
  }

  /** Free cpus stay between none and all, whatever the run, exactly if requests ask for no less than none. */
  lemma {:induction false} CpusExactly(c: int)
    ensures (forall m, h :: ReachableAsking(m, c) && h in m.hosts ==> 0 <= m.hosts[h].freeCpu <= m.hosts[h].totalCpu) <==> c >= 0
  {
    if c < 0 {
      var m := NegativeCpusOverfill(c);
    } else {
      forall m, h | ReachableAsking(m, c) && h in m.hosts
        ensures 0 <= m.hosts[h].freeCpu <= m.hosts[h].totalCpu
      {
        var tr, steps, clock :|
          && IsRun(tr, steps, clock) && tr[|steps|] == m
          && forall k :: 0 <= k < |steps| ==> AsksFor(steps[k], c);
        RunKeepsBooks(tr, steps, clock, |steps|);
        HostConservation(m, h);
      }
    }
  }

  // -------------------------------------------------------------------
  // A plan too long to be made
  // -------------------------------------------------------------------

  function Farm(n: nat, up: bool): map<HostId, Host> {
    map h | h in N.LongHosts(n) :: FreeHost(up, 0)
  }

  function FarmQueue(n: nat): Queue {
    Queue(true, 1, set h | h in N.LongHosts(n), 0, 0, 0, 0, 0, 0)
  }

  function FarmTables(n: nat): Tables {
    Tables(map[], [], [], [], Farm(n, false), map[QUEUE := FarmQueue(n)], map[], 0, 0, [])
  }

  lemma {:induction false} FarmPending(n: nat) returns (m: Tables)
    requires n >= 1
    ensures Reachable(m) && m.hosts == Farm(n, true) && QUEUE in m.queues && m.queues[QUEUE].open
    ensures m.queues[QUEUE].members == set h | h in N.LongHosts(n)
    ensures 1 in m.jobs && Small(m.jobs[1].(nhosts := 1)) && m.jobs[1].nhosts == n && m.jobs[1].machines == []
    ensures m.jobs[1].list == OnPend && m.jobs[1].state == Pending && m.jobs[1].beginTime == 0 && m.jobs[1].deps == []
  {
    var s := FarmSubmitted(n);
    hide Reachable, N.LongHosts;
    var step := DoMark(map h | h in s.hosts :: Up(true, true));
    GoesOn(s, step, 1);
    m := Next(s, step, 1);
  }

  lemma {:induction false} FarmSubmitted(n: nat) returns (m: Tables)
    requires n >= 1
    ensures Reachable(m) && m.hosts == Farm(n, false) && QUEUE in m.queues && m.queues[QUEUE].open
    ensures m.queues[QUEUE].members == set h | h in N.LongHosts(n)
    ensures 1 in m.jobs && Small(m.jobs[1].(nhosts := 1)) && m.jobs[1].nhosts == n && m.jobs[1].machines == []
    ensures m.jobs[1].list == OnPend && m.jobs[1].state == Pending && m.jobs[1].beginTime == 0 && m.jobs[1].deps == []
  {
    hide Reachable, KeptWords, LoggedWords, AdjustRefs, N.LongHosts;
    var u := FarmTables(n);
    Begins(u);
    var req := Ask(QUEUE, [], []).(nhosts := n);
    var job := Prepared(req, 1, 1, 0, 1, 1);
    SubmitOne(u, req, 1);
    GoesOn(u, DoSubmit(req), 1);
    NoRefs(map[1 := job], 1);
    m := Submit(u, req, 1);
  }

  /** From 104 hosts with the longest names on, a job that could run is never
      dispatched: whatever plan is picked for it is too long. */
  lemma {:induction false} ManyHostsRefused(n: nat) returns (m: Tables)
    requires 104 <= n <= 126
    ensures Reachable(m) && Overlong(m, 1, 1)
    ensures forall plan :: GoodPlan(m, m.jobs[1], plan) ==> N.PlanLength(plan) >= N.LL_BUFSIZ_8K
  {
    m := FarmPending(n);
    hide Reachable;
    var all := N.LongHosts(n);
    forall i, k | 0 <= i < k < n
      ensures all[i] != all[k]
    {
      N.LongNamesDiffer(i, k);
    }
    forall h | h in all
      ensures Eligible(m, m.jobs[1], h)
    {
    }
    assert |all| == m.jobs[1].nhosts && DistinctHosts(all) && AllEligible(m, m.jobs[1], all);
    forall plan: seq<HostId> | GoodPlan(m, m.jobs[1], plan)
      ensures N.PlanLength(plan) >= N.LL_BUFSIZ_8K
    {
      forall i | 0 <= i < |plan|
        ensures |plan[i].name| == 63
      {
        assert plan[i] in plan && Eligible(m, m.jobs[1], plan[i]) && plan[i] in all;
      }
      N.AllLong(plan);
    }
    assert GoodPlan(m, m.jobs[1], all);
  }

  // -------------------------------------------------------------------
  // A rejected job loses what it waits for
  // -------------------------------------------------------------------

  const AFTER_ONE := [D.Call(D.Done, 1)]

  lemma {:induction false} RefsToOne(t: JobId)
    ensures Refs(AFTER_ONE, t) == if t == 1 then 1 else 0
  {
    assert AFTER_ONE[1..] == [];
  }

  /** Job 1 has run and is done. */
  predicate OneDone(m: Tables) {
    && Site(m, 0) && m.lastId == 1 && m.pend == [] && m.run == [] && m.fin == [1] && m.jobs.Keys == {1}
    && m.jobs[1].state == JobState.Done && m.jobs[1].list == OnFinish && m.jobs[1].deps == []
    && m.jobs[1].depRefcnt == 0 && m.jobs[1].tag.id == 0
  }

  lemma {:induction false} FirstPending() returns (m: Tables)
    ensures Reachable(m) && Site(m, 0) && m.lastId == 1 && m.pend == [1] && m.run == [] && m.fin == []
    ensures m.jobs.Keys == {1} && Small(m.jobs[1]) && m.jobs[1].list == OnPend && m.jobs[1].state == Pending
    ensures m.jobs[1].deps == [] && m.jobs[1].depRefcnt == 0 && m.jobs[1].tag.id == 0
  {
    hide Submit, Reachable, KeptWords, AdjustRefs;
    EmptyBegins();
    var req := Ask(QUEUE, [], []);
    var job := Prepared(req, 1, 1, 0, 1, 1);
    Submitted(Empty(), req, 1, job);
    GoesOn(Empty(), DoSubmit(req), 1);
    NoRefs(map[1 := job], 1);
    var s := Submit(Empty(), req, 1);
    MarkedUp(s);
    m := Next(s, DoMark(map[HOST := Up(true, true)]), 1);
  }

  lemma {:induction false} FirstIsDone() returns (m: Tables)
    ensures Reachable(m) && OneDone(m)
  {
    var u := FirstPending();
    hide Reachable, Dispatch, Finish, AdjustRefs;
    Dispatched(u, 1);
    var v := Dispatch(u, 1, [HOST], 2);
    NoRefs(u.jobs[1 := u.jobs[1].(state := Running, list := OnRun, dispatchTime := 2, runHosts := [HOST])], -1);
    Finished(v, 1, true);
    m := Finish(v, 1, true, 0, 3);
  }

  /** Job 2 waits for it, and is on the run list. */
  lemma {:induction false} SecondPending() returns (m: Tables)
    ensures Reachable(m) && Site(m, 0) && m.lastId == 2 && m.pend == [2] && m.run == [] && m.fin == [1]
    ensures m.jobs.Keys == {1, 2} && Small(m.jobs[2]) && m.jobs[2].list == OnPend && m.jobs[2].state == Pending
    ensures m.jobs[2].deps == AFTER_ONE && m.jobs[2].tag.id == 0 && m.jobs[2].depRefcnt == 0
    ensures m.jobs[1].state == JobState.Done && m.jobs[1].list == OnFinish && m.jobs[1].deps == []
    ensures m.jobs[1].depRefcnt == 1 && m.jobs[1].tag.id == 0
  {
    var u := FirstIsDone();
    var req := Ask(QUEUE, AFTER_ONE, []);
    var job := Prepared(req, u.queues[QUEUE].priority, 2, 0, 1, 1);
    Submitted(u, req, 1, job);
    GoesOn(u, DoSubmit(req), 1);
    m := Submit(u, req, 1);
    hide Submit, Reachable, Refs;
    RefsToOne(1);
    RefsToOne(2);
  }

  lemma {:induction false} SecondRunning() returns (m: Tables)
    ensures Reachable(m) && Site(m, 1) && m.lastId == 2 && m.pend == [] && m.run == [2] && m.fin == [1]
    ensures m.jobs.Keys == {1, 2} && Small(m.jobs[2]) && m.jobs[2].list == OnRun && m.jobs[2].runHosts == [HOST]
    ensures m.jobs[2].deps == AFTER_ONE && m.jobs[2].tag.id == 0 && m.jobs[2].depRefcnt == 0
    ensures m.jobs[1].state == JobState.Done && m.jobs[1].list == OnFinish && m.jobs[1].deps == []
    ensures m.jobs[1].depRefcnt == 0 && m.jobs[1].tag.id == 0
  {
    var u := SecondPending();
    hide Reachable, Dispatch, Refs;
    Dispatched(u, 2);
    m := Dispatch(u, 2, [HOST], 2);
    RefsToOne(1);
    RefsToOne(2);
  }

  lemma {:induction false} TwoTotals(jobs: map<JobId, Job>, t: JobId)
    ensures Total(RefsTo(t), jobs, 2)
            == (if 1 in jobs then Weight(RefsTo(t), LoadOf(jobs[1])) else 0)
               + (if 2 in jobs then Weight(RefsTo(t), LoadOf(jobs[2])) else 0)
  {
    assert Total(RefsTo(t), jobs, 0) == 0;
    assert Total(RefsTo(t), jobs, 1) == if 1 in jobs then Weight(RefsTo(t), LoadOf(jobs[1])) else 0;
  }

  /** Job 2 waits for job 1, is dispatched when job 1 is done, and rejected.
      The reference is not taken again: the count is wrong, compaction purges
      job 1, and the condition, true before, never holds again. */
  lemma {:induction false} RejectedReferencePurged() returns (m: Tables)
    ensures Reachable(m) && RefsOk(m) && OnList(m, 2, OnRun)
    ensures var t := Reject(m, 2, 4);
            && Reachable(t) && !RefsOk(t) && t.jobs[2].list == OnPend && t.jobs[2].deps == AFTER_ONE && Satisfied(t, AFTER_ONE)
            && Reachable(Compact(t)) && 1 !in Compact(t).jobs && !Satisfied(Compact(t), AFTER_ONE)
  {
    hide Reachable, Reject, Satisfied;
    m := SecondRunning();
    RefsToOne(1);
    TwoTotals(m.jobs, 1);
    TwoTotals(m.jobs, 2);
    Rejected(m, 2);
    var t := Reject(m, 2, 4);
    TwoTotals(t.jobs, 1);
    GoesOn(t, DoCompact, 5);
    OneCall(t, D.Done, 1);
    OneCall(Compact(t), D.Done, 1);
  }

  // -------------------------------------------------------------------
  // Three queues whose jobs go round in a circle
  // -------------------------------------------------------------------

  const HIGH := N.QueueId("high")
  const MIDDLE := N.QueueId("middle")
  const LOW := N.QueueId("low")

  function Idle(priority: int): Queue {
    Queue(true, priority, {}, 0, 0, 0, 0, 0, 0)
  }

  function ThreeQueues(): Tables {
    Tables(map[], [], [], [], map[], map[HIGH := Idle(INT_MAX), MIDDLE := Idle(0), LOW := Idle(-INT_MAX)], map[], 0, 0, [])
  }

  function QueueOf(j: nat): QueueId {
    if j == 1 then HIGH else if j == 2 then MIDDLE else LOW
  }

  predicate ThreeConfigured(m: Tables) {
    && HIGH in m.queues && MIDDLE in m.queues && LOW in m.queues
    && m.queues[HIGH].priority == INT_MAX && m.queues[MIDDLE].priority == 0 && m.queues[LOW].priority == -INT_MAX
  }

  /** Jobs 1..n are pending with the priorities of their queues. */
  ghost predicate Ranked(m: Tables, n: nat) {
    && m.lastId == n && ThreeConfigured(m)
    && (forall j :: j in m.jobs <==> 1 <= j <= n)
    && (forall j :: j in m.jobs ==>
          && m.jobs[j].list == OnPend && m.jobs[j].queue == QueueOf(j)
          && m.jobs[j].priority == m.queues[QueueOf(j)].priority)
  }

  lemma {:induction false} OneMoreRanked(m: Tables, n: nat) returns (t: Tables)
    requires Reachable(m) && Ranked(m, n)
    ensures Reachable(t) && Ranked(t, n + 1)
  {
    hide Reachable, KeptWords, LoggedWords, AdjustRefs, Submit;
    var req := Ask(QueueOf(n + 1), [], []);
    var job := Prepared(req, m.queues[req.queue].priority, n + 1, 0, 1, 1);
    Submitted(m, req, 1, job);
    GoesOn(m, DoSubmit(req), 1);
    t := Submit(m, req, 1);
    NoRefs(m.jobs[n + 1 := job], 1);
    hide Enabled, Next, GoodRequest;
  }

  lemma {:induction false} ThreeStarts()
    ensures Init(ThreeQueues()) && ThreeConfigured(ThreeQueues())
  {
    assert |HIGH.name| == 4 && |MIDDLE.name| == 6 && |LOW.name| == 3;
  }

  /** Three plain submissions, and no order of their jobs is sorted. */
  lemma {:induction false} QueuesInACircle() returns (m: Tables)
    ensures Reachable(m) && OnList(m, 1, OnPend) && OnList(m, 2, OnPend) && OnList(m, 3, OnPend)
    ensures Cmp(RankOf(m, 1), RankOf(m, 2)) < 0 && Cmp(RankOf(m, 2), RankOf(m, 3)) < 0 && Cmp(RankOf(m, 3), RankOf(m, 1)) < 0
  {
    hide Reachable;
    ThreeStarts();
    Begins(ThreeQueues());
    m := OneMoreRanked(ThreeQueues(), 0);
    m := OneMoreRanked(m, 1);
    m := OneMoreRanked(m, 2);
    CmpCircle();
    assert 1 in m.jobs && 2 in m.jobs && 3 in m.jobs;
    assert RankOf(m, 1) == Rank(INT_MAX, INT_MAX, 1) && RankOf(m, 2) == Rank(0, 0, 2) && RankOf(m, 3) == Rank(-INT_MAX, -INT_MAX, 3);
  }

  // -------------------------------------------------------------------
  // A whole array, after compaction
  // -------------------------------------------------------------------

  /** Two elements, indices 1 and 2. */
  function AskTwo(): Request {
    Ask(QUEUE, [], []).(isArray := true, start := 1, end := 2)
  }

  function Element(k: nat): Job {
    Prepared(AskTwo(), 1, 1, k, 2, 1)
  }

  lemma {:induction false} TwoIds()
    ensures DrawIds(map[], 0, 2) == [1, 2]
  {
    var none: map<JobId, Job> := map[];
    assert NextId(none, 0) == 1 && NextId(none, 1) == 2;
    assert DrawIds(none, 0, 2) == [1] + DrawIds(none, 1, 1);
    assert DrawIds(none, 1, 1) == [2] + DrawIds(none, 2, 0);
  }

  lemma {:induction false} CommittedOne(m: Tables, id: JobId, job: Job, nhosts: int)
    requires job.queue in m.queues && job.deps == []
    ensures var t := Commit(m, id, job, nhosts);
            && t.jobs == m.jobs[id := job] && t.pend == m.pend + [id] && t.run == m.run && t.fin == m.fin && t.hosts == m.hosts
            && t.queues.Keys == m.queues.Keys
            && forall q :: q in m.queues ==> t.queues[q].members == m.queues[q].members && t.queues[q].priority == m.queues[q].priority
  {
    hide LoggedWords;
    NoRefs(m.jobs[id := job], 1);
  }

  lemma {:induction false} ArraySubmitted() returns (m: Tables)
    ensures Reachable(m) && m.hosts == map[HOST := FreeHost(false, 0)] && QUEUE in m.queues && m.queues[QUEUE].members == {HOST}
    ensures m.lastId == 2 && m.pend == [1, 2] && m.run == [] && m.fin == [] && m.jobs == map[1 := Element(0), 2 := Element(1)]
  {
    hide Prepared, Commit, Submit, Reachable, CommitRest, DrawIds, Element;
    EmptyBegins();
    SubmitIs();
    TwoCommits(Empty(), AskTwo(), [1, 2]);
    assert Enabled(Empty(), DoSubmit(AskTwo()), 1);
    GoesOn(Empty(), DoSubmit(AskTwo()), 1);
    m := Submit(Empty(), AskTwo(), 1);
  }

  lemma {:induction false} SubmitIs()
    ensures GoodRequest(Empty(), AskTwo())
    ensures Submit(Empty(), AskTwo(), 1) == CommitRest(Empty(), AskTwo(), [1, 2], 2, 1).(lastId := 2, savedId := 2)
  {
    TwoIds();
  }

  lemma {:induction false} TwoCommits(m: Tables, req: Request, ids: seq<JobId>)
    requires m == Empty() && req == AskTwo() && ids == [1, 2]
    ensures var t := CommitRest(m, req, ids, 2, 1);
            && t.jobs == map[1 := Element(0), 2 := Element(1)] && t.pend == [1, 2] && t.run == [] && t.fin == [] && t.hosts == m.hosts
            && QUEUE in t.queues && t.queues[QUEUE].members == {HOST}
  {
    var u := CommitNth(m, req, ids, 0, 1);
    CommittedOne(m, 1, Element(0), req.nhosts);
    var v := CommitNth(u, req, ids, 1, 1);
    CommittedOne(u, 2, Element(1), req.nhosts);
    assert CommitRest(m, req, ids, 2, 1) == CommitRest(u, req, ids, 1, 1) == CommitRest(v, req, ids, 0, 1) == v;
  }

  lemma {:induction false} ArrayMarked() returns (m: Tables)
    ensures Reachable(m) && Site(m, 0) && m.lastId == 2 && m.pend == [1, 2] && m.run == [] && m.fin == []
    ensures m.jobs == map[1 := Element(0), 2 := Element(1)]
  {
    hide Reachable, Element;
    var s := ArraySubmitted();
    MarkedUp(s);
    m := Next(s, DoMark(map[HOST := Up(true, true)]), 1);
  }

  lemma {:induction false} ElementIs(k: nat)
    ensures var job := Element(k);
            && Small(job) && job.list == OnPend && job.state == Pending && job.deps == [] && job.depRefcnt == 0 && job.tag.id == 1
            && job.elementCnt == if k == 0 then 2 else 0
  {
  }

  /** Job 3 waits for the whole array. */
  lemma {:induction false} WaiterSubmitted() returns (m: Tables)
    ensures Reachable(m) && Site(m, 0) && m.lastId == 3 && m.pend == [1, 2, 3] && m.run == [] && m.fin == []
    ensures m.jobs.Keys == {1, 2, 3}
    ensures m.jobs[1] == Element(0).(depRefcnt := 1) && m.jobs[2] == Element(1)
    ensures m.jobs[3].list == OnPend && m.jobs[3].deps == AFTER_ONE && m.jobs[3].tag.id == 0 && m.jobs[3].queue == QUEUE
  {
    hide Reachable, Element, KeptWords, Refs, Submit;
    var u := ArrayMarked();
    ElementIs(0);
    ElementIs(1);
    var req := Ask(QUEUE, AFTER_ONE, []);
    var job := Prepared(req, u.queues[QUEUE].priority, 3, 0, 1, 1);
    Submitted(u, req, 1, job);
    GoesOn(u, DoSubmit(req), 1);
    m := Submit(u, req, 1);
    hide Prepared;
    RefsToOne(1);
    RefsToOne(2);
    RefsToOne(3);
  }

  /** A job without condition runs and ends. */
  lemma {:induction false} RunsThrough(m: Tables, j: JobId, success: bool) returns (t: Tables)
    requires Reachable(m) && Site(m, 0) && j in m.jobs && Small(m.jobs[j]) && m.jobs[j].deps == []
    requires m.jobs[j].list == OnPend && m.jobs[j].state == Pending
    ensures Reachable(t) && Site(t, 0) && t.lastId == m.lastId
    ensures t.jobs == ElementFinished(m.jobs[j := m.jobs[j].(state := if success then JobState.Done else Exited, list := OnFinish,
                                                             dispatchTime := 2, runHosts := [HOST], endTime := 3, exitStatus := 0)],
                                      m.jobs[j].tag.id)
    ensures t.pend == Without(m.pend, j) && t.run == Without(m.run + [j], j) && t.fin == m.fin + [j]
  {
    hide Reachable, ElementFinished, Finish, Dispatch, Without;
    Dispatched(m, j);
    var u := Dispatch(m, j, [HOST], 2);
    NoRefs(m.jobs[j := m.jobs[j].(state := Running, list := OnRun, dispatchTime := 2, runHosts := [HOST])], -1);
    Finished(u, j, success);
    t := Finish(u, j, success, 0, 3);
    var over := m.jobs[j].(state := if success then JobState.Done else Exited, list := OnFinish,
                           dispatchTime := 2, runHosts := [HOST], endTime := 3, exitStatus := 0);
    assert u.jobs[j := over] == m.jobs[j := over];
  }

  /** Element 1 is done, element 2 failed. */
  predicate ArrayOver(m: Tables) {
    && m.pend == [3] && m.run == [] && m.fin == [1, 2] && m.jobs.Keys == {1, 2, 3} && QUEUE in m.queues
    && m.jobs[1].list == OnFinish && m.jobs[1].state == JobState.Done && m.jobs[1].tag.id == 1 && m.jobs[1].depRefcnt == 1
    && m.jobs[2].list == OnFinish && m.jobs[2].state == Exited && m.jobs[2].tag.id == 1 && m.jobs[2].depRefcnt == 0
    && m.jobs[3].list == OnPend && m.jobs[3].deps == AFTER_ONE && m.jobs[3].tag.id == 0 && m.jobs[3].queue == QUEUE
  }

  lemma {:induction false} ArrayEnds() returns (m: Tables)
    ensures Reachable(m) && ArrayOver(m)
  {
    hide Reachable, Element, Prepared;
    ElementIs(0);
    ElementIs(1);
    var u := WaiterSubmitted();
    var v := RunsThrough(u, 1, true);
    assert v.jobs[2] == Element(1) && v.pend == [2, 3] && v.run == [];
    m := RunsThrough(v, 2, false);
  }

  /** Compaction keeps the head, which job 3 names, and purges the element that
      failed: done() of the array, false before, is true after it. */
  lemma {:induction false} ArrayVerdictFlips() returns (m: Tables)
    ensures Reachable(m) && OnList(m, 3, OnPend) && m.jobs[3].deps == AFTER_ONE
    ensures !Satisfied(m, AFTER_ONE) && Reachable(Compact(m)) && Satisfied(Compact(m), AFTER_ONE)
  {
    hide Reachable, Satisfied;
    m := ArrayEnds();
    GoesOn(m, DoCompact, 4);
    OneCall(m, D.Done, 1);
    OneCall(Compact(m), D.Done, 1);
    ElementFailed(m);
    ElementGone(m);
  }

  lemma {:induction false} ElementFailed(m: Tables)
    requires ArrayOver(m)
    ensures !CallEval(m, D.Done, 1)
  {
    assert m.fin[1] == 2;
  }

  lemma {:induction false} ElementGone(m: Tables)
    requires ArrayOver(m)
    ensures CallEval(Compact(m), D.Done, 1)
  {
    assert m.fin[..1] == [1] && [1][..0] == [];
    assert Keep([], m.jobs) == [];
    assert Keep([1], m.jobs) == [] + [1];
    assert Keep(m.fin, m.jobs) == [1] + [];
  }
}
