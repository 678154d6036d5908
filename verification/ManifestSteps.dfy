/**
 Every handler logs what it did: the manifest goes on showing the live table.
 */
module ManifestSteps {
  import opened Mbd
  import opened JobLists
  import opened Manifest
  import N = Names

  /** The host count replay settles on is the daemon's. */
  predicate HostCountLogged(req: Request) {
    (if |req.logged| > 0 then |req.logged| else req.nhosts) == HostCount(req)
  }

  /** A live record and the line that introduces it agree exactly when the
      logged machine list gives the host count the daemon settles on, and the
      GPU model is no longer than the log's field. */
  predicate NewLoggable(req: Request) {
    HostCountLogged(req) && |req.words.gpuModel| < 64
  }

  lemma {:induction false} WordsLoggable(w: Words)
    requires WireWords(w)
    ensures WordsLogged(KeptWords(w)) <==> |w.gpuModel| < 64
  {
  }

  lemma {:induction false} NewSeen(req: Request, priority: int, head: JobId, k: nat, count: nat, now: int, id: JobId)
    requires WireWords(req.words)
    ensures var job := Prepared(req, priority, head, k, count, now);
            See(job) == See(Allocated(NewEvent(id, job, req.nhosts).rec)) <==> NewLoggable(req)
  {
    WordsLoggable(req.words);
  }

  lemma {:induction false} CommitEdits(m: Tables, j: JobId, job: Job, nhosts: int)
    requires job.queue in m.queues && j !in m.jobs && JobSound(job, m.queues)
    ensures var t := Commit(m, j, job, nhosts);
            Edit(m, t, j) && JobSound(t.jobs[j], t.queues) && See(t.jobs[j]) == See(job)
  {
    AdjustSeen(m.jobs[j := job], job.deps, 1);
  }

  lemma {:induction false} CommitMirrors(m: Tables, req: Request, ids: seq<JobId>, k: nat, now: int)
    requires ManifestOk(m) && k < |ids| && req.queue in m.queues && ids[k] !in m.jobs
    requires WireWords(req.words) && NewLoggable(req)
    ensures ManifestOk(CommitNth(m, req, ids, k, now))
  {
    var priority := m.queues[req.queue].priority;
    var job := Prepared(req, priority, ids[0], k, |ids|, now);
    NewSeen(req, priority, ids[0], k, |ids|, now, ids[k]);
    WordsLoggable(req.words);
    CommitEdits(m, ids[k], job, req.nhosts);
    CommitKeepsLists(m, ids[k], job, req.nhosts);
    NewLogged(m, Commit(m, ids[k], job, req.nhosts), ids[k], NewEvent(ids[k], job, req.nhosts).rec);
  }

  lemma {:induction false} DispatchEdits(m: Tables, j: JobId, plan: seq<HostId>, now: int)
    requires OnList(m, j, OnPend) && Placeable(m, m.jobs[j], plan) && now != 0 && JobSound(m.jobs[j], m.queues)
    requires HostsLogged(plan)
    ensures var t := Dispatch(m, j, plan, now);
            && Edit(m, t, j) && JobSound(t.jobs[j], t.queues)
            && See(t.jobs[j]) == See(m.jobs[j].(state := Running, list := OnRun, dispatchTime := now, runHosts := plan))
  {
    var job := m.jobs[j].(state := Running, list := OnRun, dispatchTime := now, runHosts := plan);
    AdjustSeen(m.jobs[j := job], job.deps, -1);
  }

  lemma {:induction false} DispatchMirrors(m: Tables, j: JobId, plan: seq<HostId>, now: int)
    requires ManifestOk(m) && OnList(m, j, OnPend) && Placeable(m, m.jobs[j], plan) && now != 0 && HostsLogged(plan)
    ensures ManifestOk(Dispatch(m, j, plan, now))
  {
    assert JobSound(m.jobs[j], m.queues);
    DispatchEdits(m, j, plan, now);
    DispatchKeepsLists(m, j, plan, now);
    StartLogged(m, Dispatch(m, j, plan, now), j, now, m.jobs[j].cpus, N.Cut(m.jobs[j].words.gpuModel, 64), plan);
  }

  lemma {:induction false} ForkEdits(m: Tables, j: JobId, pid: int, now: int)
    requires OnList(m, j, OnRun) && now != 0 && JobSound(m.jobs[j], m.queues)
    ensures var t := Fork(m, j, pid, now);
            && Edit(m, t, j) && JobSound(t.jobs[j], t.queues)
            && See(t.jobs[j]) == See(m.jobs[j].(pid := pid, forkTime := now))
            && SameLists(m.jobs, t.jobs)
  {
  }

  lemma {:induction false} ForkMirrors(m: Tables, j: JobId, pid: int, now: int)
    requires ManifestOk(m) && OnList(m, j, OnRun) && now != 0
    ensures ManifestOk(Fork(m, j, pid, now))
  {
    var t := Fork(m, j, pid, now);
    assert JobSound(m.jobs[j], m.queues);
    ForkEdits(m, j, pid, now);
    SameListsFiled(m.jobs, t.jobs, m.pend, m.run, m.fin);
    ForkLogged(m, t, j, now, pid);
  }

  lemma {:induction false} BackEdits(m: Tables, j: JobId, runHosts: seq<HostId>, now: int)
    requires OnList(m, j, OnRun) && JobSound(m.jobs[j], m.queues)
    ensures var t := BackToPend(m, j, runHosts, now);
            && Edit(m, t, j) && JobSound(t.jobs[j], t.queues)
            && See(t.jobs[j])
               == See(m.jobs[j].(pid := 0, forkTime := 0, dispatchTime := 0, state := Pending, list := OnPend))
  {
  }

  lemma {:induction false} BackMirrors(m: Tables, j: JobId, runHosts: seq<HostId>, now: int)
    requires ManifestOk(m) && OnList(m, j, OnRun)
    ensures ManifestOk(BackToPend(m, j, runHosts, now))
  {
    assert JobSound(m.jobs[j], m.queues);
    BackEdits(m, j, runHosts, now);
    BackKeepsLists(m, j, runHosts, now);
    PendLogged(m, BackToPend(m, j, runHosts, now), j, now);
  }

  lemma {:induction false} FinishEdits(m: Tables, j: JobId, success: bool, exit: int, now: int)
    requires OnList(m, j, OnRun) && JobSound(m.jobs[j], m.queues)
    ensures var t := Finish(m, j, success, exit, now);
            && Edit(m, t, j) && JobSound(t.jobs[j], t.queues)
            && See(t.jobs[j]) == See(m.jobs[j].(state := if success then Done else Exited, exitStatus := exit,
                                                endTime := now, list := OnFinish))
  {
    hide ReleaseAll, MoveTokens, Without, ElementFinished, HostsLogged, WordsLogged;
    var job := m.jobs[j].(endTime := now, exitStatus := exit, list := OnFinish,
                          state := if success then Done else Exited);
    ElementSeen(m.jobs[j := job], job.tag.id);
  }

  lemma {:induction false} FinishMirrors(m: Tables, j: JobId, success: bool, exit: int, now: int)
    requires ManifestOk(m) && OnList(m, j, OnRun)
    ensures ManifestOk(Finish(m, j, success, exit, now))
  {
    assert JobSound(m.jobs[j], m.queues);
    FinishEdits(m, j, success, exit, now);
    FinishKeepsLists(m, j, success, exit, now);
    FinishLogged(m, Finish(m, j, success, exit, now), j, if success then Done else Exited, exit, now);
  }

  lemma {:induction false} KillEdits(m: Tables, j: JobId, sig: Sig, now: int)
    requires OnList(m, j, OnPend) && JobSound(m.jobs[j], m.queues)
    ensures var t := Kill(m, j, sig, now);
            && Edit(m, t, j) && JobSound(t.jobs[j], t.queues)
            && See(t.jobs[j]) == See(m.jobs[j].(state := Exited, exitStatus := m.jobs[j].exitStatus,
                                                endTime := now, list := OnFinish))
  {
    var job := m.jobs[j].(endTime := now, state := Exited, list := OnFinish);
    AdjustSeen(m.jobs[j := job], job.deps, -1);
    ElementSeen(AdjustRefs(m.jobs[j := job], job.deps, -1), job.tag.id);
  }

  lemma {:induction false} KillMirrors(m: Tables, j: JobId, sig: Sig, now: int)
    requires ManifestOk(m) && OnList(m, j, OnPend)
    ensures ManifestOk(Kill(m, j, sig, now))
  {
    assert JobSound(m.jobs[j], m.queues);
    KillEdits(m, j, sig, now);
    KillKeepsLists(m, j, sig, now);
    FinishLogged(m, Kill(m, j, sig, now), j, Exited, m.jobs[j].exitStatus, now);
  }

  lemma {:induction false} HoldEdits(m: Tables, j: JobId, hold: bool, sig: Sig, now: int)
    requires OnList(m, j, OnPend) && JobSound(m.jobs[j], m.queues)
    ensures var t := SetHeld(m, j, hold, sig, now);
            && Edit(m, t, j) && JobSound(t.jobs[j], t.queues)
            && See(t.jobs[j]) == See(m.jobs[j].(state := if hold then Held else Pending))
            && SameLists(m.jobs, t.jobs)
  {
  }

  lemma {:induction false} HoldMirrors(m: Tables, j: JobId, hold: bool, sig: Sig, now: int)
    requires ManifestOk(m) && OnList(m, j, OnPend) && m.jobs[j].state == (if hold then Pending else Held)
    ensures ManifestOk(SetHeld(m, j, hold, sig, now))
  {
    assert JobSound(m.jobs[j], m.queues);
    HoldEdits(m, j, hold, sig, now);
    SameListsFiled(m.jobs, SetHeld(m, j, hold, sig, now).jobs, m.pend, m.run, m.fin);
    HeldLogged(m, SetHeld(m, j, hold, sig, now), j, hold, now);
  }

  lemma {:induction false} MoveEdits(m: Tables, j: JobId, to: QueueId, now: int)
    requires OnList(m, j, OnPend) && to in m.queues && JobSound(m.jobs[j], m.queues)
    ensures var t := Move(m, j, to, now);
            && Edit(m, t, j) && JobSound(t.jobs[j], t.queues)
            && See(t.jobs[j]) == See(m.jobs[j].(queue := to))
            && SameLists(m.jobs, t.jobs)
  {
  }

  lemma {:induction false} MoveMirrors(m: Tables, j: JobId, to: QueueId, now: int)
    requires ManifestOk(m) && OnList(m, j, OnPend) && to in m.queues
    ensures ManifestOk(Move(m, j, to, now))
  {
    var t := Move(m, j, to, now);
    assert JobSound(m.jobs[j], m.queues);
    MoveEdits(m, j, to, now);
    SameListsFiled(m.jobs, t.jobs, m.pend, m.run, m.fin);
    MoveLogged(m, t, j, now, to);
  }

  lemma {:induction false} PriorityEdits(m: Tables, j: JobId, priority: int, now: int)
    requires j in m.jobs && JobSound(m.jobs[j], m.queues)
    ensures var t := SetPriority(m, j, priority, now);
            && Edit(m, t, j) && JobSound(t.jobs[j], t.queues)
            && See(t.jobs[j]) == See(m.jobs[j].(priority := priority))
            && SameLists(m.jobs, t.jobs)
  {
  }

  lemma {:induction false} PriorityMirrors(m: Tables, j: JobId, priority: int, now: int)
    requires ManifestOk(m) && j in m.jobs
    ensures ManifestOk(SetPriority(m, j, priority, now))
  {
    var t := SetPriority(m, j, priority, now);
    assert JobSound(m.jobs[j], m.queues);
    PriorityEdits(m, j, priority, now);
    SameListsFiled(m.jobs, t.jobs, m.pend, m.run, m.fin);
    PriorityLogged(m, t, j, now, priority);
  }
}
