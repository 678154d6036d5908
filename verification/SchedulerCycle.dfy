/**
 schedule(): one pass over the sorted pending list.  It dispatches until
 nothing more can run, and never passes over a job for one that asks for
 at least as much.
 */
module SchedulerCycle {
  import opened Mbd
  import opened JobLists
  import opened Accounting
  import opened AccountingSteps
  import opened Available
  import opened Conditions
  import opened MbdSafety
  import opened PlacementSafety
  import opened Scheduler
  import opened SchedulerPlan
  import N = Names

  datatype Placement = Placement(j: JobId, plan: seq<HostId>)

  function Place(m: Tables, d: Placement, now: int): Tables {
    if d.j in m.jobs && m.jobs[d.j].queue in m.queues then Dispatch(m, d.j, d.plan, now) else m
  }

  /** A dispatch the daemon may make, on a plan the scheduler may choose. */
  ghost predicate GoodPlace(m: Tables, d: Placement, now: int) {
    && CanRun(m, d.j, now) && GoodPlan(m, m.jobs[d.j], d.plan)
    && Enabled(m, DoDispatch(d.j, d.plan), now)
  }

  /** tr goes from m to t by the dispatches ds. */
  ghost predicate Ran(m: Tables, t: Tables, tr: seq<Tables>, ds: seq<Placement>, now: int) {
    && |tr| == |ds| + 1 && tr[0] == m && tr[|ds|] == t
    && forall i :: 0 <= i < |ds| ==> GoodPlace(tr[i], ds[i], now) && tr[i + 1] == Place(tr[i], ds[i], now)
  }

  function Gone(ds: seq<Placement>): set<JobId> {
    set i | 0 <= i < |ds| :: ds[i].j
  }

  lemma {:induction false} GoneMore(ds: seq<Placement>, d: Placement)
    ensures Gone(ds + [d]) == Gone(ds) + {d.j}
  {
    forall j
      ensures j in Gone(ds + [d]) <==> j in Gone(ds) || j == d.j
    {
      if j in Gone(ds) {
        var i :| 0 <= i < |ds| && ds[i].j == j;
        assert (ds + [d])[i].j == j;
      }
      if j == d.j { assert (ds + [d])[|ds|].j == j; }
    }
  }

  // -------------------------------------------------------------------
  // What every turn keeps
  // -------------------------------------------------------------------

  /** a's time had come, its condition held, and it asked for no more than b. */
  ghost predicate Wronged(m: Tables, a: JobId, b: JobId, now: int) {
    && a in m.jobs && b in m.jobs && AsksNoMore(m.jobs[a], m.jobs[b])
    && m.jobs[a].state == Pending && m.jobs[a].beginTime <= now && Satisfied(m, m.jobs[a].deps)
  }

  /** Jobs are ordered as tried; all ask for something. */
  ghost predicate Workload(m: Tables, order: seq<JobId>) {
    && ListIs(order, m.jobs, OnPend)
    && forall j :: j in m.jobs && m.jobs[j].list == OnPend ==>
         && m.jobs[j].queue in m.queues && m.jobs[j].cpus >= 1 && m.jobs[j].nhosts >= 1 && MachinesOk(m.jobs[j])
         && (m.jobs[j].deps == [] || Compiled(m.jobs[j].deps))
  }

  ghost predicate Untried(m: Tables, t: Tables, ds: seq<Placement>) {
    && Shrunk(m, t) && SameEnds(m, t)
    && (forall j :: j in m.jobs && j !in Gone(ds) ==> SameAsk(m.jobs[j], t.jobs[j]))
    && (forall j :: j in Gone(ds) ==> j in t.jobs && t.jobs[j].list == OnRun)
  }

  /** Everybody before k was dispatched, refused for the length of a plan, or
      cannot run. */
  ghost predicate Tried(t: Tables, order: seq<JobId>, k: nat, ds: seq<Placement>, refused: set<JobId>, now: int) {
    && k <= |order|
    && (forall j :: j in Gone(ds) || j in refused ==> j in order[..k])
    && (forall i :: 0 <= i < k ==> order[i] in Gone(ds) || order[i] in refused || !CanRun(t, order[i], now))
  }

  /** Nobody tried was passed over for somebody who asks as much. */
  ghost predicate Fair(m: Tables, order: seq<JobId>, k: nat, ds: seq<Placement>, refused: set<JobId>, now: int) {
    k <= |order| && forall a, b :: 0 <= a < b < k && order[b] in Gone(ds) && order[a] !in Gone(ds) && order[a] !in refused ==>
      !Wronged(m, order[a], order[b], now)
  }

  ghost predicate Hosts(t: Tables, list: seq<HostId>, slots: int) {
    AllHosts(list, t.hosts) && CandidatesOk(t.hosts) && slots == SlotSum(list, t.hosts)
  }

  ghost predicate CycleInv(m: Tables, t: Tables, order: seq<JobId>, k: nat, ds: seq<Placement>, refused: set<JobId>,
                           list: seq<HostId>, slots: int, now: int) {
    && Untried(m, t, ds) && Tried(t, order, k, ds, refused, now) && Fair(m, order, k, ds, refused, now) && Hosts(t, list, slots)
  }

  lemma {:induction false} ShrunkTrans(m: Tables, t: Tables, u: Tables)
    requires Shrunk(m, t) && Shrunk(t, u)
    ensures Shrunk(m, u)
  {
    forall h | h in m.hosts
      ensures NoMore(u.hosts[h], m.hosts[h])
    {
      assert NoMore(u.hosts[h], t.hosts[h]) && NoMore(t.hosts[h], m.hosts[h]);
    }
    forall p | p in m.pools
      ensures u.pools[p].free <= m.pools[p].free
    {
      assert u.pools[p].free <= t.pools[p].free <= m.pools[p].free;
    }
  }

  lemma {:induction false} EndsTrans(m: Tables, t: Tables, u: Tables)
    requires SameEnds(m, t) && SameEnds(t, u)
    ensures SameEnds(m, u)
  {
    forall i | i in m.jobs
      ensures && u.jobs[i].tag == m.jobs[i].tag && (u.jobs[i].list == OnFinish <==> m.jobs[i].list == OnFinish)
              && (u.jobs[i].state == JobState.Done <==> m.jobs[i].state == JobState.Done)
              && (u.jobs[i].state == Exited <==> m.jobs[i].state == Exited)
    {
      assert u.jobs[i].tag == t.jobs[i].tag == m.jobs[i].tag;
    }
  }

  /** The job whose turn it is, as the tables have it. */
  lemma {:induction false} OnTurn(m: Tables, t: Tables, order: seq<JobId>, k: nat, ds: seq<Placement>, refused: set<JobId>, now: int)
    requires Workload(m, order) && Untried(m, t, ds) && Tried(t, order, k, ds, refused, now) && k < |order|
    ensures var j := order[k];
            && j in m.jobs && j !in Gone(ds) && Later(m, t, j) && OnList(t, j, OnPend)
            && t.jobs[j].cpus >= 1 && t.jobs[j].nhosts >= 1 && MachinesOk(t.jobs[j])
            && (t.jobs[j].deps == [] || Compiled(t.jobs[j].deps))
  {
    var j := order[k];
    assert j in order && j !in order[..k];
    assert Later(m, t, j);
  }

  lemma {:induction false} SkipTurn(m: Tables, t: Tables, order: seq<JobId>, k: nat, ds: seq<Placement>, refused: set<JobId>,
                 list: seq<HostId>, slots: int, now: int)
    requires CycleInv(m, t, order, k, ds, refused, list, slots, now) && k < |order| && !CanRun(t, order[k], now)
    requires order[k] !in Gone(ds)
    ensures CycleInv(m, t, order, k + 1, ds, refused, list, slots, now)
  {
    SkipTried(t, order, k, ds, refused, now);
    SkipFair(m, order, k, ds, refused, now);
  }

  lemma {:induction false} SkipTried(t: Tables, order: seq<JobId>, k: nat, ds: seq<Placement>, refused: set<JobId>, now: int)
    requires Tried(t, order, k, ds, refused, now) && k < |order| && !CanRun(t, order[k], now)
    ensures Tried(t, order, k + 1, ds, refused, now)
  {
    assert order[..k + 1] == order[..k] + [order[k]];
  }

  lemma {:induction false} SkipFair(m: Tables, order: seq<JobId>, k: nat, ds: seq<Placement>, refused: set<JobId>, now: int)
    requires Fair(m, order, k, ds, refused, now) && k < |order| && order[k] !in Gone(ds)
    ensures Fair(m, order, k + 1, ds, refused, now)
  {
  }

  lemma {:induction false} RefuseTurn(m: Tables, t: Tables, order: seq<JobId>, k: nat, ds: seq<Placement>, refused: set<JobId>,
                   list: seq<HostId>, slots: int, now: int)
    requires CycleInv(m, t, order, k, ds, refused, list, slots, now) && k < |order| && order[k] !in Gone(ds)
    ensures CycleInv(m, t, order, k + 1, ds, refused + {order[k]}, list, slots, now)
  {
    RefuseTried(t, order, k, ds, refused, now);
    SkipFair(m, order, k, ds, refused, now);
    RefuseFair(m, order, k + 1, ds, refused, refused + {order[k]}, now);
  }

  lemma {:induction false} RefuseTried(t: Tables, order: seq<JobId>, k: nat, ds: seq<Placement>, refused: set<JobId>, now: int)
    requires Tried(t, order, k, ds, refused, now) && k < |order|
    ensures Tried(t, order, k + 1, ds, refused + {order[k]}, now)
  {
    assert order[..k + 1] == order[..k] + [order[k]];
  }

  lemma {:induction false} RefuseFair(m: Tables, order: seq<JobId>, k: nat, ds: seq<Placement>, refused: set<JobId>, more: set<JobId>, now: int)
    requires Fair(m, order, k, ds, refused, now) && refused <= more
    ensures Fair(m, order, k, ds, more, now)
  {
  }

  // -------------------------------------------------------------------
  // A turn that dispatches
  // -------------------------------------------------------------------

  lemma {:induction false} PlaceUntried(m: Tables, t: Tables, j: JobId, plan: seq<HostId>, ds: seq<Placement>, now: int)
    requires Untried(m, t, ds) && OnList(t, j, OnPend) && t.jobs[j].state == Pending
    requires DistinctHosts(plan) && t.jobs[j].cpus >= 0
    ensures Untried(m, Dispatch(t, j, plan, now), ds + [Placement(j, plan)])
  {
    hide ChargeAll, MoveTokens, Without, Shrunk, N.HostsText;
    var u := Dispatch(t, j, plan, now);
    GoneMore(ds, Placement(j, plan));
    DispatchShrinks(t, j, plan, now);
    ShrunkTrans(m, t, u);
    DispatchEnds(t, j, plan, now);
    EndsTrans(m, t, u);
    forall x | x in m.jobs && x !in Gone(ds) && x != j
      ensures SameAsk(m.jobs[x], u.jobs[x])
    {
      assert SameAsk(m.jobs[x], t.jobs[x]);
    }
  }

  lemma {:induction false} PlaceTried(t: Tables, order: seq<JobId>, k: nat, plan: seq<HostId>, ds: seq<Placement>, refused: set<JobId>, now: int)
    requires Tried(t, order, k, ds, refused, now) && k < |order| && ListsOk(t)
    requires OnList(t, order[k], OnPend) && t.jobs[order[k]].state == Pending
    requires DistinctHosts(plan) && t.jobs[order[k]].cpus >= 0
    ensures Tried(Dispatch(t, order[k], plan, now), order, k + 1, ds + [Placement(order[k], plan)], refused, now)
  {
    var j := order[k];
    GoneMore(ds, Placement(j, plan));
    forall i | 0 <= i < k && order[i] !in Gone(ds) && order[i] !in refused && order[i] != j
      ensures !CanRun(Dispatch(t, j, plan, now), order[i], now)
    {
      StillCannot(t, j, plan, now, order[i]);
    }
    TriedMore(t, Dispatch(t, j, plan, now), order, k, ds, refused, Placement(j, plan), now);
  }

  lemma {:induction false} TriedMore(t: Tables, u: Tables, order: seq<JobId>, k: nat, ds: seq<Placement>, refused: set<JobId>, d: Placement, now: int)
    requires Tried(t, order, k, ds, refused, now) && k < |order| && d.j == order[k] && Gone(ds + [d]) == Gone(ds) + {d.j}
    requires forall i :: 0 <= i < k && order[i] !in Gone(ds) && order[i] !in refused && order[i] != d.j ==>
               !CanRun(u, order[i], now)
    ensures Tried(u, order, k + 1, ds + [d], refused, now)
  {
    assert order[..k + 1] == order[..k] + [order[k]];
  }

  lemma {:induction false} StillCannot(t: Tables, j: JobId, plan: seq<HostId>, now: int, x: JobId)
    requires ListsOk(t) && OnList(t, j, OnPend) && t.jobs[j].state == Pending && DistinctHosts(plan) && t.jobs[j].cpus >= 0
    requires x != j && !CanRun(t, x, now)
    ensures !CanRun(Dispatch(t, j, plan, now), x, now)
  {
    var u := Dispatch(t, j, plan, now);
    if CanRun(u, x, now) {
      DispatchLater(t, j, plan, now, x);
      CannotLater(t, u, x, now);
    }
  }

  /** Whoever was passed over could not run when b could. */
  lemma {:induction false} PassedOver(m: Tables, t: Tables, a: JobId, b: JobId, now: int)
    requires Later(m, t, a) && Later(m, t, b) && CanRun(t, b, now) && !CanRun(t, a, now)
    requires m.jobs[a].list == OnPend
    ensures !Wronged(m, a, b, now)
  {
    if Wronged(m, a, b, now) {
      SameSatisfied(m, t, m.jobs[a].deps);
      LessCanRun(t, a, b, now);
    }
  }

  lemma {:induction false} NotPassedOver(m: Tables, t: Tables, order: seq<JobId>, k: nat, ds: seq<Placement>, refused: set<JobId>, now: int, a: nat)
    requires Workload(m, order) && Untried(m, t, ds) && Tried(t, order, k, ds, refused, now)
    requires a < k < |order| && CanRun(t, order[k], now) && order[a] !in Gone(ds) && order[a] !in refused
    ensures !Wronged(m, order[a], order[k], now)
  {
    OnTurn(m, t, order, k, ds, refused, now);
    assert order[a] in order;
    PassedOver(m, t, order[a], order[k], now);
  }

  lemma {:induction false} PlaceFair(m: Tables, t: Tables, order: seq<JobId>, k: nat, plan: seq<HostId>, ds: seq<Placement>, refused: set<JobId>, now: int)
    requires Fair(m, order, k, ds, refused, now) && Workload(m, order) && Untried(m, t, ds) && Tried(t, order, k, ds, refused, now)
    requires k < |order| && CanRun(t, order[k], now)
    ensures Fair(m, order, k + 1, ds + [Placement(order[k], plan)], refused, now)
  {
    var d := Placement(order[k], plan);
    GoneMore(ds, d);
    forall a | 0 <= a < k && order[a] !in Gone(ds) && order[a] !in refused
      ensures !Wronged(m, order[a], order[k], now)
    {
      NotPassedOver(m, t, order, k, ds, refused, now, a);
    }
    FairMore(m, order, k, ds, refused, d, now);
  }

  lemma {:induction false} FairMore(m: Tables, order: seq<JobId>, k: nat, ds: seq<Placement>, refused: set<JobId>, d: Placement, now: int)
    requires Fair(m, order, k, ds, refused, now) && NoDup(order) && k < |order| && d.j == order[k]
    requires Gone(ds + [d]) == Gone(ds) + {d.j}
    requires forall a :: 0 <= a < k && order[a] !in Gone(ds) && order[a] !in refused ==> !Wronged(m, order[a], order[k], now)
    ensures Fair(m, order, k + 1, ds + [d], refused, now)
  {
    forall a, b | 0 <= a < b < k + 1 && order[b] in Gone(ds + [d]) && order[a] !in Gone(ds + [d]) && order[a] !in refused
      ensures !Wronged(m, order[a], order[b], now)
    {
      if b < k { assert order[b] != order[k]; }
    }
  }

  lemma {:induction false} PlaceHosts(t: Tables, j: JobId, plan: seq<HostId>, list: seq<HostId>, slots: int, now: int)
    requires Hosts(t, list, slots) && OnList(t, j, OnPend) && GoodPlan(t, t.jobs[j], plan) && t.jobs[j].cpus >= 0
    ensures Hosts(Dispatch(t, j, plan, now), list, slots - t.jobs[j].cpus * |plan|)
  {
    var job := t.jobs[j].(state := Running, list := OnRun, dispatchTime := now, runHosts := plan);
    ChargedEach(t.hosts, plan, job);
    forall h | h in plan
      ensures h in list && h in t.hosts && t.hosts[h].candidate && t.hosts[h].freeCpu >= job.cpus
    {
      assert Eligible(t, t.jobs[j], h);
    }
    DispatchSlots(list, t.hosts, plan, job);
    ChargedCandidates(t.hosts, plan, job);
  }

  lemma {:induction false} PlaceGood(t: Tables, j: JobId, plan: seq<HostId>, now: int)
    requires CanRun(t, j, now) && GoodPlan(t, t.jobs[j], plan) && now > 0
    ensures GoodPlace(t, Placement(j, plan), now)
  {
    GoodPlanPlaceable(t, t.jobs[j], plan);
  }

  lemma {:induction false} PlaceRun(m: Tables, t: Tables, tr: seq<Tables>, ds: seq<Placement>, d: Placement, now: int)
    requires Ran(m, t, tr, ds, now) && GoodPlace(t, d, now)
    ensures Ran(m, Place(t, d, now), tr + [Place(t, d, now)], ds + [d], now)
  {
  }

  lemma {:induction false} PlaceTurn(m: Tables, t: Tables, order: seq<JobId>, k: nat, plan: seq<HostId>, ds: seq<Placement>, refused: set<JobId>,
                  list: seq<HostId>, slots: int, now: int)
    requires Workload(m, order) && CycleInv(m, t, order, k, ds, refused, list, slots, now) && k < |order| && now > 0
    requires CanRun(t, order[k], now) && GoodPlan(t, t.jobs[order[k]], plan)
    ensures CycleInv(m, Dispatch(t, order[k], plan, now), order, k + 1, ds + [Placement(order[k], plan)], refused,
                     list, slots - t.jobs[order[k]].cpus * |plan|, now)
  {
    var j := order[k];
    OnTurn(m, t, order, k, ds, refused, now);
    PlaceUntried(m, t, j, plan, ds, now);
    PlaceTried(t, order, k, plan, ds, refused, now);
    PlaceFair(m, t, order, k, plan, ds, refused, now);
    PlaceHosts(t, j, plan, list, slots, now);
  }

  // -------------------------------------------------------------------
  // The end of the pass
  // -------------------------------------------------------------------

  lemma {:induction false} SomeHost(t: Tables, job: Job) returns (h: HostId)
    requires Feasible(t, job) && job.nhosts >= 1 && MachinesOk(job)
    ensures Eligible(t, job, h)
  {
    if job.machines != [] {
      h := job.machines[0];
    } else {
      var hs :| |hs| == job.nhosts && DistinctHosts(hs) && AllEligible(t, job, hs);
      h := hs[0];
    }
    assert Eligible(t, job, h);
  }

  /** No slots left: no job can be placed, so stopping early loses nothing. */
  lemma {:induction false} NoSlotsNoRun(t: Tables, list: seq<HostId>, slots: int, j: JobId, now: int)
    requires Hosts(t, list, slots) && slots <= 0 && j in t.jobs && t.jobs[j].nhosts >= 1 && MachinesOk(t.jobs[j])
    ensures !CanRun(t, j, now)
  {
    SlotSumPositive(list, t.hosts);
    if Feasible(t, t.jobs[j]) {
      var h := SomeHost(t, t.jobs[j]);
    }
  }

  lemma {:induction false} Maximal(m: Tables, t: Tables, order: seq<JobId>, k: nat, ds: seq<Placement>, refused: set<JobId>,
                list: seq<HostId>, slots: int, now: int, j: JobId)
    requires Workload(m, order) && CycleInv(m, t, order, k, ds, refused, list, slots, now) && (k == |order| || slots <= 0)
    ensures CanRun(t, j, now) ==> j in refused
  {
    if j in t.jobs && t.jobs[j].list == OnPend {
      assert j !in Gone(ds) && Later(m, t, j);
      assert j in order;
      var i :| 0 <= i < |order| && order[i] == j;
      if i >= k { NoSlotsNoRun(t, list, slots, j, now); }
    }
  }

  // -------------------------------------------------------------------
  // The method
  // -------------------------------------------------------------------

  /** tokens_available */
  method CheckTokens(pools: map<PoolId, Pool>, ts: seq<Token>) returns (ok: bool)
    ensures ok <==> TokensAvailable(pools, ts)
  {
    var i := 0;
    while i < |ts|
      invariant 0 <= i <= |ts| && TokensAvailable(pools, ts[..i])
    {
      if ts[i].pool !in pools || pools[ts[i].pool].free < ts[i].count {
        return false;
      }
      i := i + 1;
    }
    return true;
  }

  ghost predicate CouldBePlan(m: Tables, job: Job, hs: seq<HostId>) {
    |hs| == job.nhosts && DistinctHosts(hs) && forall h :: h in hs ==> h in m.hosts
  }

  /** No choice of hosts for a pending job has too long a host string. */
  ghost predicate NamesFit(m: Tables) {
    forall j, hs :: j in m.jobs && m.jobs[j].list == OnPend && CouldBePlan(m, m.jobs[j], hs) ==>
      N.PlanLength(hs) < N.LL_BUFSIZ_8K
  }

  /** j could run, and the plan picked for it was refused for its length. */
  ghost predicate Overlong(t: Tables, j: JobId, now: int) {
    CanRun(t, j, now) && OverlongPlan(t, t.jobs[j])
  }

  lemma {:induction false} OverlongNames(m: Tables, t: Tables, j: JobId, now: int)
    requires Later(m, t, j) && Overlong(t, j, now)
    ensures !NamesFit(m)
  {
    var plan :| GoodPlan(t, t.jobs[j], plan) && N.PlanLength(plan) >= N.LL_BUFSIZ_8K;
    forall h | h in plan
      ensures h in m.hosts
    {
      assert Eligible(t, t.jobs[j], h);
    }
    assert CouldBePlan(m, m.jobs[j], plan);
  }

  datatype Outcome = Planned(plan: seq<HostId>) | Cannot | Refused

  /** What a turn says about its job is so. */
  ghost predicate Told(t: Tables, j: JobId, now: int, r: Outcome) {
    match r
    case Planned(plan) => CanRun(t, j, now) && GoodPlan(t, t.jobs[j], plan)
    case Cannot => !CanRun(t, j, now)
    case Refused => Overlong(t, j, now)
  }

  /** One turn: the plan of the job at k, if it can run. */
  method TryJob(t: Tables, j: JobId, list: seq<HostId>, qsort: QSort, now: int) returns (r: Outcome)
    requires OnList(t, j, OnPend) && AllHosts(list, t.hosts) && MachinesOk(t.jobs[j]) && t.jobs[j].nhosts >= 1
    requires Sorts(qsort) && (t.jobs[j].deps == [] || Compiled(t.jobs[j].deps))
    ensures Told(t, j, now, r)
  {
    var job := t.jobs[j];
    if !Ready(job, now) || !t.queues[job.queue].open {
      return Cannot;
    }
    var tokens := CheckTokens(t.pools, job.tokens);
    if !tokens {
      return Cannot;
    }
    var satisfied := DepSatisfied(t, job.deps);
    if !satisfied {
      return Cannot;
    }
    var p := BuildHostPlan(t, job, list, qsort);
    match p {
      case NoPlan =>
        return Cannot;
      case TooLong =>
        ghost var plan :| GoodPlan(t, job, plan) && N.PlanLength(plan) >= N.LL_BUFSIZ_8K;
        PlanIsFeasible(t, job, plan);
        return Refused;
      case Plan(hosts) =>
        PlanIsFeasible(t, job, hosts);
        return Planned(hosts);
    }
  }

  lemma {:induction false} TurnReady(m: Tables, t: Tables, order: seq<JobId>, k: nat, ds: seq<Placement>, refused: set<JobId>, list: seq<HostId>, slots: int,
                  now: int)
    requires Workload(m, order) && CycleInv(m, t, order, k, ds, refused, list, slots, now) && k < |order|
    ensures var j := order[k];
            && OnList(t, j, OnPend) && AllHosts(list, t.hosts) && MachinesOk(t.jobs[j]) && t.jobs[j].nhosts >= 1
            && (t.jobs[j].deps == [] || Compiled(t.jobs[j].deps)) && j !in Gone(ds) && Later(m, t, j)
  {
    OnTurn(m, t, order, k, ds, refused, now);
  }

  /** The plan of the job whose turn it is, if it can run. */
  method TurnPlan(ghost m: Tables, was: Tables, order: seq<JobId>, k: nat, ghost placed: seq<Placement>, ghost refused: set<JobId>,
                  list: seq<HostId>, ghost free: int, qsort: QSort, now: int)
    returns (r: Outcome)
    requires Workload(m, order) && CycleInv(m, was, order, k, placed, refused, list, free, now) && k < |order| && Sorts(qsort)
    ensures Told(was, order[k], now, r) && order[k] !in Gone(placed)
    ensures r.Refused? ==> !NamesFit(m)
  {
    TurnReady(m, was, order, k, placed, refused, list, free, now);
    r := TryJob(was, order[k], list, qsort, now);
    if r.Refused? { OverlongNames(m, was, order[k], now); }
  }

  /** One turn of the while loop of schedule(). */
  method Turn(ghost m: Tables, was: Tables, order: seq<JobId>, k: nat, placed: seq<Placement>, ghost out: set<JobId>,
              list: seq<HostId>, free: int, qsort: QSort, now: int)
    returns (t: Tables, ds: seq<Placement>, ghost refused: set<JobId>, slots: int)
    requires Workload(m, order) && CycleInv(m, was, order, k, placed, out, list, free, now) && k < |order|
    requires Sorts(qsort) && now > 0
    ensures CycleInv(m, t, order, k + 1, ds, refused, list, slots, now)
    ensures if ds == placed then t == was
            else |ds| == |placed| + 1 && ds[..|placed|] == placed
                 && GoodPlace(was, ds[|placed|], now) && t == Place(was, ds[|placed|], now)
    ensures refused == out || (refused == out + {order[k]} && Overlong(was, order[k], now) && !NamesFit(m) && t == was && ds == placed)
  {
    hide CycleInv, GoodPlace, Overlong, NamesFit;
    var r := TurnPlan(m, was, order, k, placed, out, list, free, qsort, now);
    var j := order[k];
    match r {
      case Planned(plan) =>
        PlaceGood(was, j, plan, now);
        PlaceTurn(m, was, order, k, plan, placed, out, list, free, now);
        t, ds, slots := Dispatch(was, j, plan, now), placed + [Placement(j, plan)], free - was.jobs[j].cpus * |plan|;
        refused := out;
      case Cannot =>
        SkipTurn(m, was, order, k, placed, out, list, free, now);
        t, ds, slots, refused := was, placed, free, out;
      case Refused =>
        RefuseTurn(m, was, order, k, placed, out, list, free, now);
        t, ds, slots, refused := was, placed, free, out + {j};
    }
  }

  /** Everybody refused was so in one of the states the pass went through. */
  ghost predicate RefusedThen(tr: seq<Tables>, refused: set<JobId>, now: int) {
    forall j :: j in refused ==> exists i :: 0 <= i < |tr| && Overlong(tr[i], j, now)
  }

  lemma {:induction false} RefusedMore(tr: seq<Tables>, refused: set<JobId>, j: JobId, now: int)
    requires RefusedThen(tr, refused, now) && tr != [] && Overlong(tr[|tr| - 1], j, now)
    ensures RefusedThen(tr, refused + {j}, now)
  {
  }

  lemma {:induction false} RefusedStill(tr: seq<Tables>, refused: set<JobId>, t: Tables, now: int)
    requires RefusedThen(tr, refused, now)
    ensures RefusedThen(tr + [t], refused, now)
  {
    forall j | j in refused
      ensures exists i :: 0 <= i < |tr + [t]| && Overlong((tr + [t])[i], j, now)
    {
      var i :| 0 <= i < |tr| && Overlong(tr[i], j, now);
      assert (tr + [t])[i] == tr[i];
    }
  }

  /** The while loop of schedule(). */
  method Pass(m: Tables, order: seq<JobId>, list: seq<HostId>, free: int, qsort: QSort, now: int)
    returns (t: Tables, ds: seq<Placement>, ghost tr: seq<Tables>, ghost refused: set<JobId>)
    requires ListsOk(m) && Workload(m, order) && Hosts(m, list, free) && Sorts(qsort) && now > 0
    ensures Ran(m, t, tr, ds, now)
    ensures forall j :: CanRun(t, j, now) ==> j in refused
    ensures forall a, b :: 0 <= a < b < |order| && order[b] in Gone(ds) && order[a] !in Gone(ds) && order[a] !in refused ==>
              !Wronged(m, order[a], order[b], now)
    ensures RefusedThen(tr, refused, now) && (NamesFit(m) ==> refused == {})
  {
    hide CycleInv, Overlong, NamesFit;
    t, ds, tr, refused := m, [], [m], {};
    var slots := free;
    var k := 0;
    PassStarts(m, order, list, free, now);
    while k < |order|
      invariant 0 <= k <= |order| && CycleInv(m, t, order, k, ds, refused, list, slots, now)
      invariant Ran(m, t, tr, ds, now) && RefusedThen(tr, refused, now) && (NamesFit(m) ==> refused == {})
    {
      ghost var out;
      var u, more, left;
      u, more, out, left := Turn(m, t, order, k, ds, refused, list, slots, qsort, now);
      if out != refused {
        RefusedMore(tr, refused, order[k], now);
      }
      if more != ds {
        assert more == ds + [more[|ds|]];
        PlaceRun(m, t, tr, ds, more[|ds|], now);
        RefusedStill(tr, refused, u, now);
        tr := tr + [u];
      }
      var dispatched := more != ds;
      t, ds, slots, k, refused := u, more, left, k + 1, out;
      if dispatched && slots <= 0 {
        break;
      }
    }
    PassEnds(m, t, order, k, ds, refused, list, slots, now);
  }

  lemma {:induction false} PassStarts(m: Tables, order: seq<JobId>, list: seq<HostId>, free: int, now: int)
    requires ListsOk(m) && Hosts(m, list, free)
    ensures CycleInv(m, m, order, 0, [], {}, list, free, now)
  {
  }

  lemma {:induction false} PassEnds(m: Tables, t: Tables, order: seq<JobId>, k: nat, ds: seq<Placement>, refused: set<JobId>,
                 list: seq<HostId>, slots: int, now: int)
    requires Workload(m, order) && CycleInv(m, t, order, k, ds, refused, list, slots, now) && (k == |order| || slots <= 0)
    ensures forall j :: CanRun(t, j, now) ==> j in refused
    ensures forall a, b :: 0 <= a < b < |order| && order[b] in Gone(ds) && order[a] !in Gone(ds) && order[a] !in refused ==>
              !Wronged(m, order[a], order[b], now)
  {
    forall j: JobId
      ensures CanRun(t, j, now) ==> j in refused
    {
      Maximal(m, t, order, k, ds, refused, list, slots, now, j);
    }
    StoppedFair(m, t, order, k, ds, refused, now);
  }

  lemma {:induction false} StoppedFair(m: Tables, t: Tables, order: seq<JobId>, k: nat, ds: seq<Placement>, refused: set<JobId>, now: int)
    requires Fair(m, order, k, ds, refused, now) && Tried(t, order, k, ds, refused, now) && NoDup(order)
    ensures forall a, b :: 0 <= a < b < |order| && order[b] in Gone(ds) && order[a] !in Gone(ds) && order[a] !in refused ==>
              !Wronged(m, order[a], order[b], now)
  {
    forall a, b | 0 <= a < b < |order| && order[b] in Gone(ds) && order[a] !in Gone(ds) && order[a] !in refused
      ensures !Wronged(m, order[a], order[b], now)
    {
      var i :| 0 <= i < k && order[..k][i] == order[b];
      assert order[i] == order[b];
    }
  }

  // -------------------------------------------------------------------
  // schedule()
  // -------------------------------------------------------------------

  function RankOf(m: Tables, j: JobId): Rank
    requires j in m.jobs && m.jobs[j].queue in m.queues
  {
    Rank(m.queues[m.jobs[j].queue].priority, m.jobs[j].priority, j)
  }

  function RanksOf(m: Tables, js: seq<JobId>): seq<Rank>
    requires forall j :: j in js ==> j in m.jobs && m.jobs[j].queue in m.queues
  {
    seq(|js|, i requires 0 <= i < |js| => assert js[i] in js; RankOf(m, js[i]))
  }

  /** order is the pending list as ll_list_sort_buf leaves it. */
  ghost predicate SortedPending(m: Tables, order: seq<JobId>) {
    && ListIs(order, m.jobs, OnPend)
    && (forall j :: j in order ==> j in m.jobs && m.jobs[j].queue in m.queues)
    && Tame(RanksOf(m, order)) && Sorted(RanksOf(m, order))
  }

  /** Of two pending jobs, the one ahead is tried first. */
  lemma {:induction false} AheadIsFirst(m: Tables, order: seq<JobId>, a: JobId, b: JobId) returns (i: nat, k: nat)
    requires SortedPending(m, order) && a in order && b in order && Ahead(RankOf(m, a), RankOf(m, b))
    ensures i < k < |order| && order[i] == a && order[k] == b
  {
    SortedAhead(RanksOf(m, order));
    i :| 0 <= i < |order| && order[i] == a;
    k :| 0 <= k < |order| && order[k] == b;
    assert RanksOf(m, order)[i] == RankOf(m, a) && RanksOf(m, order)[k] == RankOf(m, b);
  }

  // -------------------------------------------------------------------
  // Placement in a cycle
  // -------------------------------------------------------------------

  lemma {:induction false} MarkedIsOk(hosts: map<HostId, Host>)
    ensures CandidatesOk(MarkedHosts(hosts))
  {
  }

  /** Candidates stay what they are marked as through the cycle. */
  lemma {:induction false} RanCandidates(m: Tables, t: Tables, tr: seq<Tables>, ds: seq<Placement>, now: int, i: nat)
    requires Ran(m, t, tr, ds, now) && CandidatesOk(m.hosts) && i <= |ds|
    ensures CandidatesOk(tr[i].hosts)
  {
    if i > 0 {
      RanCandidates(m, t, tr, ds, now, i - 1);
      var was, d := tr[i - 1], ds[i - 1];
      assert GoodPlace(was, d, now);
      ChargedCandidates(was.hosts, d.plan,
                        was.jobs[d.j].(state := Running, list := OnRun, dispatchTime := now, runHosts := d.plan));
    }
  }

  /** Every placement of the cycle is safe, and takes the hosts with least free
      cpus among the eligible unless the job names its machines. */
  ghost predicate SafePlaces(tr: seq<Tables>, ds: seq<Placement>) {
    && |tr| == |ds| + 1
    && forall i :: 0 <= i < |ds| ==>
         && ds[i].j in tr[i].jobs && SafePlan(tr[i], tr[i].jobs[ds[i].j], ds[i].plan)
         && GoodPlan(tr[i], tr[i].jobs[ds[i].j], ds[i].plan)
  }

  lemma {:induction false} RanSafely(m: Tables, t: Tables, tr: seq<Tables>, ds: seq<Placement>, now: int)
    requires Ran(m, t, tr, ds, now) && CandidatesOk(m.hosts)
    ensures SafePlaces(tr, ds)
  {
    forall i | 0 <= i < |ds|
      ensures ds[i].j in tr[i].jobs && SafePlan(tr[i], tr[i].jobs[ds[i].j], ds[i].plan)
              && GoodPlan(tr[i], tr[i].jobs[ds[i].j], ds[i].plan)
    {
      RanCandidates(m, t, tr, ds, now, i);
      assert GoodPlace(tr[i], ds[i], now);
      PlaceableIsSafe(tr[i], tr[i].jobs[ds[i].j], ds[i].plan);
    }
  }

  // -------------------------------------------------------------------
  // A cycle in terms of what is there
  // -------------------------------------------------------------------

  /** What the recount lemmas need of a state of the cycle. */
  ghost predicate Accounted(m: Tables) {
    && BooksOk(m) && CandidatesExact(m.hosts)
    && forall j :: j in m.jobs && m.jobs[j].list == OnPend ==> m.jobs[j].cpus >= 1 && MachinesOk(m.jobs[j])
  }

  lemma {:induction false} PlaceAccounted(m: Tables, d: Placement, now: int)
    requires Accounted(m) && GoodPlace(m, d, now)
    ensures Accounted(Place(m, d, now))
  {
    var job := m.jobs[d.j].(state := Running, list := OnRun, dispatchTime := now, runHosts := d.plan);
    StepKeepsBooks(m, DoDispatch(d.j, d.plan), now);
    ChargedExactly(m.hosts, d.plan, job);
    hide BooksOk, ChargeAll, MoveTokens, Without, N.HostsText;
  }

  lemma {:induction false} RanAccounted(m: Tables, t: Tables, tr: seq<Tables>, ds: seq<Placement>, now: int, i: nat)
    requires Ran(m, t, tr, ds, now) && Accounted(m) && i <= |ds|
    ensures Accounted(tr[i])
  {
    if i > 0 {
      RanAccounted(m, t, tr, ds, now, i - 1);
      hide Accounted, GoodPlace, Place;
      PlaceAccounted(tr[i - 1], ds[i - 1], now);
    }
  }

  /** Every dispatch was of a job that could run, on hosts with room for it and
      least left; and whoever can run at the end was refused. */
  ghost predicate Exhausted(t: Tables, tr: seq<Tables>, ds: seq<Placement>, refused: set<JobId>, now: int) {
    && |tr| == |ds| + 1 && BooksOk(t)
    && (forall j :: Runnable(t, j, now) ==> j in refused)
    && (forall i :: 0 <= i < |ds| ==>
          && Runnable(tr[i], ds[i].j, now)
          && RoomOn(tr[i], tr[i].jobs[ds[i].j], ds[i].plan) && LeastLeft(tr[i], tr[i].jobs[ds[i].j], ds[i].plan))
  }

  lemma {:induction false} PlacedThere(m: Tables, d: Placement, now: int)
    requires Accounted(m) && GoodPlace(m, d, now)
    ensures Runnable(m, d.j, now) && RoomOn(m, m.jobs[d.j], d.plan) && LeastLeft(m, m.jobs[d.j], d.plan)
  {
    RunnableExactly(m, d.j, now);
    GoodPlanHasRoom(m, m.jobs[d.j], d.plan);
  }

  lemma {:induction false} RanOut(m: Tables, t: Tables, tr: seq<Tables>, ds: seq<Placement>, refused: set<JobId>, now: int)
    requires Ran(m, t, tr, ds, now) && Accounted(m) && now > 0 && forall j :: CanRun(t, j, now) ==> j in refused
    ensures Exhausted(t, tr, ds, refused, now)
  {
    RanAccounted(m, t, tr, ds, now, |ds|);
    hide GoodPlace, Place, RoomOn, LeastLeft;
    forall j | Runnable(t, j, now)
      ensures j in refused
    {
      RunnableExactly(t, j, now);
    }
    forall i | 0 <= i < |ds|
      ensures && Runnable(tr[i], ds[i].j, now)
              && RoomOn(tr[i], tr[i].jobs[ds[i].j], ds[i].plan) && LeastLeft(tr[i], tr[i].jobs[ds[i].j], ds[i].plan)
    {
      RanAccounted(m, t, tr, ds, now, i);
      PlacedThere(tr[i], ds[i], now);
    }
  }

  lemma {:induction false} CycleExhausts(m: Tables, start: Tables, t: Tables, tr: seq<Tables>, ds: seq<Placement>, refused: set<JobId>,
                                         order: seq<JobId>, now: int)
    requires BooksOk(m) && Workload(m, order) && now > 0 && start == m.(hosts := MarkedHosts(m.hosts), pend := start.pend)
    requires Ran(start, t, tr, ds, now) && forall j :: CanRun(t, j, now) ==> j in refused
    ensures Exhausted(t, tr, ds, refused, now)
  {
    MarkedBooks(m, start);
    MarkedExactly(m.hosts);
    hide Ran, CanRun, BooksOk;
    RanOut(start, t, tr, ds, refused, now);
  }

  lemma {:induction false} NobodyPends(m: Tables, now: int)
    requires BooksOk(m) && ListsOk(m) && m.pend == []
    ensures Exhausted(m, [m], [], {}, now)
  {
    forall j
      ensures !Runnable(m, j, now)
    {
      assert j !in m.pend;
    }
  }

  method Schedule(m: Tables, order: seq<JobId>, list: seq<HostId>, qsort: QSort, now: int)
    returns (start: Tables, t: Tables, ds: seq<Placement>, ghost tr: seq<Tables>, ghost refused: set<JobId>)
    requires ListsOk(m) && Workload(m, order) && SortedPending(m, order) && AllHosts(list, m.hosts)
    requires Sorts(qsort) && now > 0
    ensures start.jobs == m.jobs && start.queues == m.queues && start.pools == m.pools
    ensures start.hosts == if m.pend == [] then m.hosts else MarkedHosts(m.hosts)
    ensures Ran(start, t, tr, ds, now) && SafePlaces(tr, ds)
    ensures forall j :: CanRun(t, j, now) ==> j in refused
    ensures forall a, b ::
              a in m.pend && b in m.pend && Ahead(RankOf(m, a), RankOf(m, b)) && b in Gone(ds) && a !in Gone(ds) && a !in refused
              ==> !Wronged(start, a, b, now)
    ensures RefusedThen(tr, refused, now) && (NamesFit(m) ==> refused == {})
    ensures BooksOk(m) ==> Exhausted(t, tr, ds, refused, now)
  {
    refused := {};
    if |m.pend| == 0 {
      start, t, ds, tr := m, m, [], [m];
      if BooksOk(m) { NobodyPends(m, now); }
      return;
    }
    var marked, slots := MarkCandidates(m.hosts, list);
    start := m.(hosts := marked);
    MarkedIsOk(m.hosts);
    if slots == 0 {
      t, ds, tr := start, [], [start];
      NothingFree(start, list, now);
      if BooksOk(m) { CycleExhausts(m, start, t, tr, ds, refused, order, now); }
      return;
    }
    start := start.(pend := order);
    t, ds, tr, refused := Pass(start, order, list, slots, qsort, now);
    RanSafely(start, t, tr, ds, now);
    forall a, b | a in m.pend && b in m.pend && Ahead(RankOf(m, a), RankOf(m, b)) && b in Gone(ds) && a !in Gone(ds) && a !in refused
      ensures !Wronged(start, a, b, now)
    {
      var i, k := AheadIsFirst(m, order, a, b);
    }
    if BooksOk(m) { CycleExhausts(m, start, t, tr, ds, refused, order, now); }
  }

  lemma {:induction false} NothingFree(t: Tables, list: seq<HostId>, now: int)
    requires AllHosts(list, t.hosts) && CandidatesOk(t.hosts) && SlotSum(list, t.hosts) == 0
    requires forall j :: j in t.jobs && t.jobs[j].list == OnPend ==> t.jobs[j].nhosts >= 1 && MachinesOk(t.jobs[j])
    ensures forall j :: !CanRun(t, j, now)
  {
    forall j | j in t.jobs && t.jobs[j].list == OnPend
      ensures !CanRun(t, j, now)
    {
      NoSlotsNoRun(t, list, 0, j, now);
    }
  }
}
