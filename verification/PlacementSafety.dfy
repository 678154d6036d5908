/**
 Where jobs go: in every run, each dispatch is to hosts that are open,
 connected, of the job's queue and large enough.
 */
module PlacementSafety {
  import opened Mbd
  import opened MbdSafety

  /** Candidates are open, connected, and have cpus to give. */
  ghost predicate CandidatesOk(hosts: map<HostId, Host>) {
    forall h :: h in hosts && hosts[h].candidate ==> hosts[h].freeCpu > 0 && hosts[h].ok && hosts[h].connected
  }

  lemma {:induction false} ChargedCandidates(hosts: map<HostId, Host>, hs: seq<HostId>, job: Job)
    requires CandidatesOk(hosts)
    ensures CandidatesOk(ChargeAll(hosts, hs, job))
    decreases |hs|
  {
    if hs != [] {
      if hs[0] in hosts {
        ChargedCandidates(hosts[hs[0] := Charge(hosts[hs[0]], job)], hs[1..], job);
      } else {
        ChargedCandidates(hosts, hs[1..], job);
      }
    }
  }

  // -------------------------------------------------------------------
  // Every run
  // -------------------------------------------------------------------

  /** Candidates are open and connected, between cycles too. */
  ghost predicate CandidatesUp(hosts: map<HostId, Host>) {
    forall h :: h in hosts && hosts[h].candidate ==> hosts[h].ok && hosts[h].connected
  }

  lemma {:induction false} ChargedUp(hosts: map<HostId, Host>, hs: seq<HostId>, job: Job)
    requires CandidatesUp(hosts)
    ensures CandidatesUp(ChargeAll(hosts, hs, job)) && CandidatesUp(ReleaseAll(hosts, hs, job))
    decreases |hs|
  {
    if hs != [] {
      ChargedUp(hosts, hs[1..], job);
      if hs[0] in hosts {
        ChargedUp(hosts[hs[0] := Charge(hosts[hs[0]], job)], hs[1..], job);
        ChargedUp(hosts[hs[0] := Release(hosts[hs[0]], job)], hs[1..], job);
      }
    }
  }

  lemma {:induction false} RebuiltUp(hosts: map<HostId, Host>, run: seq<JobId>, jobs: map<JobId, Job>)
    requires CandidatesUp(hosts)
    ensures CandidatesUp(RebuildHosts(hosts, run, jobs))
  {
    if run != [] {
      var n := |run| - 1;
      RebuiltUp(hosts, run[..n], jobs);
      if run[n] in jobs { ChargedUp(RebuildHosts(hosts, run[..n], jobs), jobs[run[n]].runHosts, jobs[run[n]]); }
    }
  }

  lemma {:induction false} SubmitSpares(m: Tables, req: Request, now: int)
    requires GoodRequest(m, req)
    ensures Submit(m, req, now).hosts == m.hosts
  {
    var ids := DrawIds(m.jobs, m.lastId, Elements(req));
    var P := (t: Tables, k: nat) => t.hosts == m.hosts && req.queue in t.queues;
    hide Prepared, NewEvent, AdjustRefs;
    CommitLoop(P, m, req, ids, |ids|, now);
  }

  lemma {:induction false} StepKeepsUp(m: Tables, step: Step, now: int)
    requires CandidatesUp(m.hosts) && Enabled(m, step, now)
    ensures CandidatesUp(Next(m, step, now).hosts)
  {
    hide ChargeAll, ReleaseAll, RebuildHosts, CommitRest, AdjustRefs, Replay;
    match step
    case DoSubmit(req) => SubmitSpares(m, req, now);
    case DoDispatch(j, plan) =>
      ChargedUp(m.hosts, plan, m.jobs[j].(state := Running, list := OnRun, dispatchTime := now, runHosts := plan));
    case DoReject(j) => ChargedUp(m.hosts, m.jobs[j].runHosts, m.jobs[j]);
    case DoMissing(j) => ChargedUp(m.hosts, m.jobs[j].runHosts, m.jobs[j]);
    case DoFinish(j, _, _) => ChargedUp(m.hosts, m.jobs[j].runHosts, m.jobs[j]);
    case DoRestart =>
      var r := Replay(m.manifest, m.queues);
      if r.Some? { RebuiltUp(FreshHosts(m.hosts), r.value.run, r.value.jobs); }
    case _ =>
  }

  /** In every state of every run, whatever restarts on whatever log. */
  lemma {:induction false} RunKeepsUp(tr: seq<Tables>, steps: seq<Step>, clock: seq<int>, i: nat)
    requires IsRun(tr, steps, clock) && i < |tr|
    ensures CandidatesUp(tr[i].hosts)
  {
    if i == 0 {
      forall h | h in tr[0].hosts
        ensures !tr[0].hosts[h].candidate
      {
        assert tr[0].hosts[h] == FreshHost(tr[0].hosts[h]);
      }
    } else {
      RunKeepsUp(tr, steps, clock, i - 1);
      StepKeepsUp(tr[i - 1], steps[i - 1], clock[i - 1]);
    }
  }

  // -------------------------------------------------------------------
  // Placement
  // -------------------------------------------------------------------

  /** As many hosts as asked for, each once, each open, connected, of the
      queue, large enough, and shared with nobody if somebody wants that. */
  ghost predicate SafePlan(m: Tables, job: Job, plan: seq<HostId>) {
    && |plan| == job.nhosts && DistinctHosts(plan) && job.queue in m.queues
    && forall h :: h in plan ==>
         && h in m.hosts && m.hosts[h].ok && m.hosts[h].connected && h in m.queues[job.queue].members
         && m.hosts[h].freeCpu >= job.cpus && m.hosts[h].freeMem >= job.mem && m.hosts[h].freeStorage >= job.storage
         && !m.hosts[h].exclusive && (job.exclusive ==> m.hosts[h].numJobs <= 0)
  }

  lemma {:induction false} PlaceableIsSafe(m: Tables, job: Job, plan: seq<HostId>)
    requires CandidatesUp(m.hosts) && Placeable(m, job, plan)
    ensures SafePlan(m, job, plan)
  {
    forall h | h in plan
      ensures h in m.hosts && h in m.queues[job.queue].members && Meets(m.hosts[h], job)
    {
      var i :| 0 <= i < |plan| && plan[i] == h;
    }
  }

  /** Every dispatch of every run. */
  lemma {:induction false} PlacementSafe(tr: seq<Tables>, steps: seq<Step>, clock: seq<int>, i: nat)
    requires IsRun(tr, steps, clock) && i < |steps| && steps[i].DoDispatch?
    ensures SafePlan(tr[i], tr[i].jobs[steps[i].j], steps[i].plan)
  {
    RunKeepsUp(tr, steps, clock, i);
    PlaceableIsSafe(tr[i], tr[i].jobs[steps[i].j], steps[i].plan);
  }

  /** In every state of every run whose log holds what it is given, an
      exclusive job is alone on its hosts, and exactly they carry the flag. */
  lemma {:induction false} RunExclusive(tr: seq<Tables>, steps: seq<Step>, clock: seq<int>, i: nat, h: HostId, a: JobId, b: JobId)
    requires IsRun(tr, steps, clock) && i < |tr| && h in tr[i].hosts
    requires forall k :: 0 <= k < |steps| ==> Proper(steps[k])
    ensures tr[i].hosts[h].exclusive <==> exists j :: ExclusiveAt(tr[i], j, h)
    ensures ExclusiveAt(tr[i], a, h) && b in tr[i].jobs && tr[i].jobs[b].list == OnRun && h in tr[i].jobs[b].runHosts
            ==> a == b
  {
    RunInv(tr, steps, clock, i);
    ExclusiveFlag(tr[i], h);
    if ExclusiveAt(tr[i], a, h) && b in tr[i].jobs && tr[i].jobs[b].list == OnRun && h in tr[i].jobs[b].runHosts {
      ExclusiveAlone(tr[i], a, b, h);
    }
  }

  // -------------------------------------------------------------------
  // Who is up
  // -------------------------------------------------------------------

  /** What was last said about a host: nobody is up until a cycle finds him so,
      nor after a restart. */
  function LastSaid(steps: seq<Step>, i: nat, h: HostId): Up
    requires i <= |steps|
  {
    if i == 0 then Up(false, false)
    else
      match steps[i - 1]
      case DoMark(up) => if h in up then up[h] else LastSaid(steps, i - 1, h)
      case DoRestart => Up(false, false)
      case _ => LastSaid(steps, i - 1, h)
  }

  predicate SameUp(a: map<HostId, Host>, b: map<HostId, Host>) {
    a.Keys == b.Keys && forall h :: h in a ==> a[h].ok == b[h].ok && a[h].connected == b[h].connected
  }

  lemma {:induction false} ChargedSame(hosts: map<HostId, Host>, hs: seq<HostId>, job: Job)
    ensures SameUp(hosts, ChargeAll(hosts, hs, job)) && SameUp(hosts, ReleaseAll(hosts, hs, job))
    decreases |hs|
  {
    if hs != [] {
      ChargedSame(hosts, hs[1..], job);
      if hs[0] in hosts {
        ChargedSame(hosts[hs[0] := Charge(hosts[hs[0]], job)], hs[1..], job);
        ChargedSame(hosts[hs[0] := Release(hosts[hs[0]], job)], hs[1..], job);
      }
    }
  }

  lemma {:induction false} RebuiltSame(hosts: map<HostId, Host>, run: seq<JobId>, jobs: map<JobId, Job>)
    ensures SameUp(hosts, RebuildHosts(hosts, run, jobs))
  {
    if run != [] {
      var n := |run| - 1;
      RebuiltSame(hosts, run[..n], jobs);
      if run[n] in jobs { ChargedSame(RebuildHosts(hosts, run[..n], jobs), jobs[run[n]].runHosts, jobs[run[n]]); }
    }
  }

  lemma {:induction false} StepSameUp(m: Tables, step: Step, now: int)
    requires Enabled(m, step, now) && !step.DoMark? && !step.DoRestart?
    ensures SameUp(m.hosts, Next(m, step, now).hosts)
  {
    hide ChargeAll, ReleaseAll, CommitRest, AdjustRefs, MoveTokens, Without;
    match step
    case DoSubmit(req) => SubmitSpares(m, req, now);
    case DoDispatch(j, plan) =>
      ChargedSame(m.hosts, plan, m.jobs[j].(state := Running, list := OnRun, dispatchTime := now, runHosts := plan));
    case DoReject(j) => ChargedSame(m.hosts, m.jobs[j].runHosts, m.jobs[j]);
    case DoMissing(j) => ChargedSame(m.hosts, m.jobs[j].runHosts, m.jobs[j]);
    case DoFinish(j, _, _) => ChargedSame(m.hosts, m.jobs[j].runHosts, m.jobs[j]);
    case _ =>
  }

  lemma {:induction false} RestartAllDown(m: Tables, r: Replayed)
    ensures var t := Restart(m, r).hosts; t.Keys == m.hosts.Keys && forall h :: h in t ==> !t[h].ok && !t[h].connected
  {
    hide RebuildQueues, RebuildElements, RebuildRefs, MaxId;
    RebuiltSame(FreshHosts(m.hosts), r.run, r.jobs);
  }

  /** In every state of every run whose log holds what it is given, a host is
      open and connected as it was last found. */
  lemma {:induction false} RunUp(tr: seq<Tables>, steps: seq<Step>, clock: seq<int>, i: nat, h: HostId)
    requires IsRun(tr, steps, clock) && i < |tr| && h in tr[i].hosts
    requires forall k :: 0 <= k < |steps| ==> Proper(steps[k])
    ensures tr[i].hosts[h].ok == LastSaid(steps, i, h).ok && tr[i].hosts[h].connected == LastSaid(steps, i, h).connected
  {
    if i == 0 {
      assert tr[0].hosts[h] == FreshHost(tr[0].hosts[h]);
    } else {
      RunInv(tr, steps, clock, i - 1);
      hide MbdInv, Enabled, Next, Proper;
      OneStepUp(tr[i - 1], steps[i - 1], clock[i - 1], h);
      RunUp(tr, steps, clock, i - 1, h);
    }
  }

  lemma {:induction false} OneStepUp(m: Tables, step: Step, now: int, h: HostId)
    requires Enabled(m, step, now) && MbdInv(m) && h in Next(m, step, now).hosts
    ensures h in m.hosts
    ensures var g := Next(m, step, now).hosts[h];
            if step.DoMark? then h in step.up && g.ok == step.up[h].ok && g.connected == step.up[h].connected
            else if step.DoRestart? then !g.ok && !g.connected
            else g.ok == m.hosts[h].ok && g.connected == m.hosts[h].connected
  {
    if step.DoRestart? {
      var r := Replay(m.manifest, m.queues).value;
      hide Replay, Restart;
      RestartAllDown(m, r);
    } else if !step.DoMark? {
      StepSameUp(m, step, now);
      hide Next;
    }
  }
}
