/**
 The loops of one cycle: marking candidates and counting their free cpus,
 and building the host plan of one job.
 */
module SchedulerPlan {
  import opened Mbd
  import opened JobLists
  import opened PlacementSafety
  import opened Scheduler
  import N = Names

  // -------------------------------------------------------------------
  // Free slots
  // -------------------------------------------------------------------

  function SlotsOf(h: Host): int {
    if h.candidate then h.freeCpu else 0
  }

  /** The free cpus of the candidates on a list of hosts. */
  function SlotSum(list: seq<HostId>, hosts: map<HostId, Host>): int {
    if list == [] then 0
    else
      var n := |list| - 1;
      SlotSum(list[..n], hosts) + if list[n] in hosts then SlotsOf(hosts[list[n]]) else 0
  }

  /** host_list holds every host once. */
  ghost predicate AllHosts(list: seq<HostId>, hosts: map<HostId, Host>) {
    DistinctHosts(list) && forall h :: h in list <==> h in hosts
  }

  lemma {:induction false} LastHost(s: seq<HostId>)
    requires DistinctHosts(s) && s != []
    ensures var n := |s| - 1;
            && s == s[..n] + [s[n]] && DistinctHosts(s[..n]) && s[n] !in s[..n]
            && forall h :: h in s <==> h in s[..n] || h == s[n]
  {
    assert s == s[..|s| - 1] + [s[|s| - 1]];
  }

  lemma {:induction false} SlotSumSame(list: seq<HostId>, a: map<HostId, Host>, b: map<HostId, Host>)
    requires forall h :: h in list ==> (h in a <==> h in b) && (h in a ==> SlotsOf(a[h]) == SlotsOf(b[h]))
    ensures SlotSum(list, a) == SlotSum(list, b)
  {
    if list != [] {
      var n := |list| - 1;
      assert list[n] in list && forall h :: h in list[..n] ==> h in list;
      SlotSumSame(list[..n], a, b);
    }
  }

  lemma {:induction false} SlotSumUpdate(list: seq<HostId>, hosts: map<HostId, Host>, h: HostId, g: Host)
    requires DistinctHosts(list) && h in list && h in hosts
    ensures SlotSum(list, hosts[h := g]) == SlotSum(list, hosts) - SlotsOf(hosts[h]) + SlotsOf(g)
  {
    var n := |list| - 1;
    LastHost(list);
    if list[n] == h {
      SlotSumSame(list[..n], hosts, hosts[h := g]);
    } else {
      SlotSumUpdate(list[..n], hosts, h, g);
    }
  }

  lemma {:induction false} SlotSumPositive(list: seq<HostId>, hosts: map<HostId, Host>)
    requires CandidatesOk(hosts)
    ensures SlotSum(list, hosts) >= 0
    ensures SlotSum(list, hosts) == 0 ==> forall h :: h in list && h in hosts ==> !hosts[h].candidate
  {
    if list != [] {
      var n := |list| - 1;
      assert list == list[..n] + [list[n]];
      SlotSumPositive(list[..n], hosts);
    }
  }

  lemma {:induction false} Times(x: int, n: int)
    ensures x * (n + 1) == x + x * n
  {
  }

  /** What a dispatch takes from the candidates is what it takes from the sum. */
  lemma {:induction false} DispatchSlots(list: seq<HostId>, hosts: map<HostId, Host>, plan: seq<HostId>, job: Job)
    requires DistinctHosts(list) && DistinctHosts(plan) && job.cpus >= 0
    requires forall h :: h in plan ==> h in list && h in hosts && hosts[h].candidate && hosts[h].freeCpu >= job.cpus
    ensures SlotSum(list, ChargeAll(hosts, plan, job)) == SlotSum(list, hosts) - job.cpus * |plan|
  {
    if plan != [] {
      var h, rest := plan[0], plan[1..];
      assert plan == [h] + rest && h in plan && h !in rest && forall g :: g in rest ==> g in plan;
      SlotSumUpdate(list, hosts, h, Charge(hosts[h], job));
      assert SlotsOf(Charge(hosts[h], job)) == SlotsOf(hosts[h]) - job.cpus;
      DispatchSlots(list, hosts[h := Charge(hosts[h], job)], rest, job);
      Times(job.cpus, |rest|);
    }
  }

  function MarkedHosts(hosts: map<HostId, Host>): map<HostId, Host> {
    map h | h in hosts :: Marked(hosts[h])
  }

  /** The first i hosts of the list are marked, and counted. */
  ghost predicate MarkedUpTo(hosts: map<HostId, Host>, marked: map<HostId, Host>, list: seq<HostId>, i: nat, slots: int) {
    && i <= |list| && marked.Keys == hosts.Keys && slots == SlotSum(list[..i], marked)
    && (forall h :: h in hosts ==> marked[h] == if h in list[..i] then Marked(hosts[h]) else hosts[h])
  }

  lemma {:induction false} MarkOne(hosts: map<HostId, Host>, marked: map<HostId, Host>, list: seq<HostId>, i: nat, slots: int)
    requires AllHosts(list, hosts) && i < |list| && MarkedUpTo(hosts, marked, list, i, slots)
    ensures list[i] in hosts && list[i] in marked && marked[list[i]] == hosts[list[i]]
    ensures MarkedUpTo(hosts, marked[list[i] := Marked(hosts[list[i]])], list, i + 1, slots + SlotsOf(Marked(hosts[list[i]])))
  {
    hide Marked;
    var h := list[i];
    var next := marked[h := Marked(hosts[h])];
    assert h in list && list[..i + 1] == list[..i] + [h] && h !in list[..i];
    SlotSumSame(list[..i], marked, next);
    assert list[..i + 1][..i] == list[..i];
  }

  /** mark_candidates */
  method MarkCandidates(hosts: map<HostId, Host>, list: seq<HostId>) returns (marked: map<HostId, Host>, slots: int)
    requires AllHosts(list, hosts)
    ensures marked == MarkedHosts(hosts) && slots == SlotSum(list, marked)
  {
    marked, slots := hosts, 0;
    var i := 0;
    while i < |list|
      invariant 0 <= i <= |list| && MarkedUpTo(hosts, marked, list, i, slots)
    {
      MarkOne(hosts, marked, list, i, slots);
      var h := list[i];
      var candidate := hosts[h].ok && hosts[h].connected && hosts[h].freeCpu > 0;
      marked := marked[h := hosts[h].(candidate := candidate)];
      if candidate {
        slots := slots + hosts[h].freeCpu;
      }
      i := i + 1;
    }
    assert list[..|list|] == list;
  }

  // -------------------------------------------------------------------
  // Host plans
  // -------------------------------------------------------------------

  type QSort = (map<HostId, Host>, seq<HostId>) -> seq<HostId>

  ghost predicate ByFreeCpu(hosts: map<HostId, Host>, s: seq<HostId>) {
    forall i, k :: 0 <= i < k < |s| && s[i] in hosts && s[k] in hosts ==> hosts[s[i]].freeCpu <= hosts[s[k]].freeCpu
  }

  /** Any sort by host_plan_cmp: ties as it likes. */
  ghost predicate Sorts(q: QSort) {
    forall hosts: map<HostId, Host>, s: seq<HostId> ::
      multiset(q(hosts, s)) == multiset(s) && ByFreeCpu(hosts, q(hosts, s))
  }

  method HostsLength(hs: seq<HostId>) returns (n: nat)
    ensures n == N.PlanLength(hs)
  {
    n := 0;
    var i := 0;
    while i < |hs|
      invariant 0 <= i <= |hs| && n == N.PlanLength(hs[..i])
    {
      assert hs[..i + 1][..i] == hs[..i];
      n := n + |hs[i].name| + 16;
      i := i + 1;
    }
    assert hs[..|hs|] == hs;
  }

  /** A plan build_host_plan may pick and then refuse for the length of its names. */
  ghost predicate OverlongPlan(m: Tables, job: Job) {
    exists plan :: GoodPlan(m, job, plan) && N.PlanLength(plan) >= N.LL_BUFSIZ_8K
  }

  datatype PlanResult = Plan(hosts: seq<HostId>) | NoPlan | TooLong

  /** The machine list is a set, and fixes the host count. */
  predicate MachinesOk(job: Job) {
    job.machines != [] ==> DistinctHosts(job.machines) && job.nhosts == |job.machines|
  }

  /** The collecting loop of build_host_plan_machines. */
  method MachinePlan(m: Tables, job: Job) returns (plan: seq<HostId>)
    requires job.queue in m.queues
    ensures |plan| == |job.machines| ==> plan == job.machines && AllEligible(m, job, plan)
    ensures |plan| < |job.machines| ==> !AllEligible(m, job, job.machines)
    ensures |plan| <= |job.machines|
  {
    plan := [];
    var i := 0;
    while i < |job.machines|
      invariant 0 <= i <= |job.machines| && |plan| <= i
      invariant |plan| == i ==> plan == job.machines[..i] && AllEligible(m, job, plan)
      invariant |plan| < i ==> !AllEligible(m, job, job.machines)
    {
      var h := job.machines[i];
      assert h in job.machines && job.machines[..i + 1] == job.machines[..i] + [h];
      if h in m.hosts && h in m.queues[job.queue].members && Meets(m.hosts[h], job) {
        plan := plan + [h];
      }
      i := i + 1;
    }
    assert job.machines[..|job.machines|] == job.machines;
  }

  /** The collecting loop of build_host_plan. */
  method EligibleHosts(m: Tables, job: Job, list: seq<HostId>) returns (plan: seq<HostId>)
    requires job.queue in m.queues && AllHosts(list, m.hosts)
    ensures DistinctHosts(plan) && forall h :: h in plan <==> Eligible(m, job, h)
  {
    plan := [];
    var i := 0;
    while i < |list|
      invariant 0 <= i <= |list|
      invariant DistinctHosts(plan) && forall h :: h in plan <==> h in list[..i] && Eligible(m, job, h)
    {
      var h := list[i];
      assert h in list && h !in list[..i] && list[..i + 1] == list[..i] + [h];
      if h in m.queues[job.queue].members && Meets(m.hosts[h], job) {
        plan := plan + [h];
      }
      i := i + 1;
    }
    assert list[..|list|] == list;
  }

  function Elems(s: seq<HostId>): set<HostId> {
    set h | h in s
  }

  lemma {:induction false} DistinctSize(s: seq<HostId>)
    requires DistinctHosts(s)
    ensures |Elems(s)| == |s|
  {
    if s != [] {
      var n := |s| - 1;
      assert s == s[..n] + [s[n]] && s[n] !in s[..n];
      DistinctSize(s[..n]);
      assert Elems(s) == Elems(s[..n]) + {s[n]};
    }
  }

  lemma {:induction false} SubsetSize(a: set<HostId>, b: set<HostId>)
    requires a <= b
    ensures |a| <= |b|
  {
    if a != {} {
      var x :| x in a;
      SubsetSize(a - {x}, b - {x});
    }
  }

  /** Too few hosts: no plan at all. */
  lemma {:induction false} TooFew(m: Tables, job: Job, all: seq<HostId>)
    requires job.machines == [] && DistinctHosts(all) && |all| < job.nhosts
    requires forall h :: h in all <==> Eligible(m, job, h)
    ensures !Feasible(m, job)
  {
    forall hs | |hs| == job.nhosts && DistinctHosts(hs) && AllEligible(m, job, hs)
      ensures false
    {
      DistinctSize(hs);
      DistinctSize(all);
      SubsetSize(Elems(hs), Elems(all));
    }
  }

  lemma {:induction false} SortedDistinct(all: seq<HostId>, sorted: seq<HostId>)
    requires DistinctHosts(all) && multiset(sorted) == multiset(all)
    ensures |sorted| == |all| && DistinctHosts(sorted) && forall h :: h in sorted <==> h in all
  {
    assert |sorted| == |multiset(sorted)| == |all|;
    assert forall h :: h in sorted <==> h in multiset(sorted);
    assert forall h :: h in all <==> h in multiset(all);
    forall i, k | 0 <= i < k < |sorted|
      ensures sorted[i] != sorted[k]
    {
      if sorted[i] == sorted[k] {
        TwiceCounted(sorted, i, k);
        OnceCounted(all, sorted[i]);
      }
    }
  }

  lemma {:induction false} TwiceCounted(s: seq<HostId>, i: nat, k: nat)
    requires i < k < |s| && s[i] == s[k]
    ensures multiset(s)[s[i]] >= 2
  {
    assert s == s[..k] + s[k..];
    assert s[i] in s[..k] && s[k] in s[k..];
    assert s[i] in multiset(s[..k]) && s[i] in multiset(s[k..]);
  }

  lemma {:induction false} OnceCounted(s: seq<HostId>, h: HostId)
    requires DistinctHosts(s)
    ensures multiset(s)[h] <= 1
  {
    if s != [] {
      var n := |s| - 1;
      LastHost(s);
      OnceCounted(s[..n], h);
      assert multiset(s) == multiset(s[..n]) + multiset{s[n]};
      if h == s[n] { assert h !in multiset(s[..n]); }
    }
  }

  /** The front of the sorted hosts is a good plan. */
  lemma {:induction false} FrontIsGood(m: Tables, job: Job, all: seq<HostId>, sorted: seq<HostId>)
    requires job.machines == [] && 0 <= job.nhosts <= |all| && DistinctHosts(all) && multiset(sorted) == multiset(all)
    requires forall h :: h in all <==> Eligible(m, job, h)
    requires ByFreeCpu(m.hosts, sorted)
    ensures |sorted| == |all| && GoodPlan(m, job, sorted[..job.nhosts])
  {
    SortedDistinct(all, sorted);
    var plan := sorted[..job.nhosts];
    forall h | h in plan
      ensures Eligible(m, job, h)
    {
      assert h in sorted;
    }
    forall h, g | h in plan && Eligible(m, job, g) && g !in plan
      ensures h in m.hosts && m.hosts[h].freeCpu <= m.hosts[g].freeCpu
    {
      var rest := sorted[job.nhosts..];
      assert sorted == plan + rest && g in sorted;
      var i :| 0 <= i < |plan| && plan[i] == h;
      var k :| 0 <= k < |rest| && rest[k] == g;
      assert sorted[i] == h && sorted[job.nhosts + k] == g;
    }
  }

  lemma {:induction false} PlanIsFeasible(m: Tables, job: Job, plan: seq<HostId>)
    requires GoodPlan(m, job, plan)
    ensures Feasible(m, job)
  {
  }

  /** build_host_plan */
  method BuildHostPlan(m: Tables, job: Job, list: seq<HostId>, qsort: QSort) returns (r: PlanResult)
    requires job.queue in m.queues && AllHosts(list, m.hosts) && MachinesOk(job) && job.nhosts >= 1 && Sorts(qsort)
    ensures r.Plan? ==> GoodPlan(m, job, r.hosts) && N.PlanLength(r.hosts) < N.LL_BUFSIZ_8K
    ensures r.NoPlan? ==> !Feasible(m, job)
    ensures r.TooLong? ==> OverlongPlan(m, job)
  {
    var plan: seq<HostId>;
    if |job.machines| > 0 {
      plan := MachinePlan(m, job);
      if |plan| < |job.machines| {
        return NoPlan;
      }
    } else {
      var all := EligibleHosts(m, job, list);
      if |all| < job.nhosts {
        TooFew(m, job, all);
        return NoPlan;
      }
      var sorted := qsort(m.hosts, all);
      FrontIsGood(m, job, all, sorted);
      plan := sorted[..job.nhosts];
    }
    var len := HostsLength(plan);
    if len >= N.LL_BUFSIZ_8K {
      return TooLong;
    }
    return Plan(plan);
  }
}
