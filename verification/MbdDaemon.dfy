/**
 The master daemon's handlers as they change its tables in place, loop by
 loop.  Every handler is the step it is in the model, so the tables keep every
 invariant, and mbd_assert_counters never fails.
 */
module MbdDaemon {
  import opened Mbd
  import opened JobLists
  import opened Manifest
  import opened Accounting
  import opened AccountingSteps
  import opened AccountingRestart
  import opened MbdSafety
  import I = Int32
  import N = Names

  // -------------------------------------------------------------------
  // Loops over one list
  // -------------------------------------------------------------------

  /** host_update_resources */
  method HostUpdateResources(hosts: map<HostId, Host>, job: Job) returns (charged: map<HostId, Host>)
    ensures charged == ChargeAll(hosts, job.runHosts, job)
  {
    charged := hosts;
    var i := 0;
    while i < |job.runHosts|
      invariant 0 <= i <= |job.runHosts|
      invariant ChargeAll(charged, job.runHosts[i..], job) == ChargeAll(hosts, job.runHosts, job)
    {
      var h := job.runHosts[i];
      assert job.runHosts[i..][1..] == job.runHosts[i + 1..];
      if h in charged {
        charged := charged[h := Charge(charged[h], job)];
      }
      i := i + 1;
    }
  }

  /** reset_host_resources */
  method ResetHostResources(hosts: map<HostId, Host>, job: Job) returns (released: map<HostId, Host>)
    ensures released == ReleaseAll(hosts, job.runHosts, job)
  {
    released := hosts;
    var i := 0;
    while i < |job.runHosts|
      invariant 0 <= i <= |job.runHosts|
      invariant ReleaseAll(released, job.runHosts[i..], job) == ReleaseAll(hosts, job.runHosts, job)
    {
      var h := job.runHosts[i];
      assert job.runHosts[i..][1..] == job.runHosts[i + 1..];
      if h in released {
        released := released[h := Release(released[h], job)];
      }
      i := i + 1;
    }
  }

  /** token_alloc (sign -1), token_pool_release (sign +1) */
  method TakeTokens(pools: map<PoolId, Pool>, ts: seq<Token>, sign: int) returns (moved: map<PoolId, Pool>)
    ensures moved == MoveTokens(pools, ts, sign)
  {
    moved := pools;
    var i := 0;
    while i < |ts|
      invariant 0 <= i <= |ts| && MoveTokens(moved, ts[i..], sign) == MoveTokens(pools, ts, sign)
    {
      assert ts[i..][1..] == ts[i + 1..];
      var p := ts[i].pool;
      if p in moved {
        moved := moved[p := moved[p].(free := moved[p].free + sign * ts[i].count)];
      }
      i := i + 1;
    }
  }

  lemma {:induction false} RefsSnoc(deps: seq<D.Instr>, d: D.Instr, t: JobId)
    ensures Refs(deps + [d], t) == Refs(deps, t) + if d.Call? && d.job == t then 1 else 0
  {
    if deps == [] {
      assert deps + [d] == [d] && [d][1..] == [];
    } else {
      assert (deps + [d])[0] == deps[0] && (deps + [d])[1..] == deps[1..] + [d];
      RefsSnoc(deps[1..], d, t);
    }
  }

  lemma {:induction false} TimesMore(delta: int, n: int, more: bool)
    ensures delta * (n + if more then 1 else 0) == delta * n + if more then delta else 0
  {
  }

  lemma {:induction false} AdjustOne(jobs: map<JobId, Job>, deps: seq<D.Instr>, d: D.Instr, delta: int, t: JobId)
    requires t in jobs
    ensures AdjustRefs(jobs, deps + [d], delta)[t].depRefcnt
            == AdjustRefs(jobs, deps, delta)[t].depRefcnt + if d.Call? && d.job == t then delta else 0
  {
    hide Refs;
    RefsSnoc(deps, d, t);
    TimesMore(delta, Refs(deps, t), d.Call? && d.job == t);
  }

  lemma {:induction false} AdjustKeys(jobs: map<JobId, Job>, deps: seq<D.Instr>, delta: int, t: JobId)
    ensures t in AdjustRefs(jobs, deps, delta) <==> t in jobs
    ensures t in jobs ==>
              AdjustRefs(jobs, deps, delta)[t] == jobs[t].(depRefcnt := AdjustRefs(jobs, deps, delta)[t].depRefcnt)
  {
  }

  lemma {:induction false} AdjustSnoc(jobs: map<JobId, Job>, deps: seq<D.Instr>, d: D.Instr, delta: int)
    ensures AdjustRefs(jobs, deps + [d], delta)
            == var before := AdjustRefs(jobs, deps, delta);
               if d.Call? && d.job in before
               then before[d.job := before[d.job].(depRefcnt := before[d.job].depRefcnt + delta)] else before
  {
    hide AdjustRefs;
    forall t
      ensures t in AdjustRefs(jobs, deps + [d], delta) <==> t in jobs
      ensures t in AdjustRefs(jobs, deps, delta) <==> t in jobs
      ensures t in jobs ==>
                AdjustRefs(jobs, deps + [d], delta)[t]
                == var was := AdjustRefs(jobs, deps, delta)[t];
                   was.(depRefcnt := was.depRefcnt + if d.Call? && d.job == t then delta else 0)
    {
      AdjustKeys(jobs, deps + [d], delta, t);
      AdjustKeys(jobs, deps, delta, t);
      if t in jobs { AdjustOne(jobs, deps, d, delta, t); }
    }
  }

  /** job_deps_refcnt */
  method DepsRefcnt(jobs: map<JobId, Job>, deps: seq<D.Instr>, delta: int) returns (adjusted: map<JobId, Job>)
    ensures adjusted == AdjustRefs(jobs, deps, delta)
  {
    adjusted := jobs;
    assert AdjustRefs(jobs, deps[..0], delta) == jobs;
    hide AdjustRefs;
    var i := 0;
    while i < |deps|
      invariant 0 <= i <= |deps| && adjusted == AdjustRefs(jobs, deps[..i], delta)
    {
      var d := deps[i];
      assert deps[..i + 1] == deps[..i] + [d];
      AdjustSnoc(jobs, deps[..i], d, delta);
      if d.Call? && d.job in adjusted {
        adjusted := adjusted[d.job := adjusted[d.job].(depRefcnt := adjusted[d.job].depRefcnt + delta)];
      }
      i := i + 1;
    }
    assert deps[..|deps|] == deps;
  }

  // -------------------------------------------------------------------
  // The daemon
  // -------------------------------------------------------------------

  class Master {
    var jobs: map<JobId, Job>
    var pend: seq<JobId>
    var run: seq<JobId>
    var fin: seq<JobId>
    var hosts: map<HostId, Host>
    var queues: map<QueueId, Queue>
    var pools: map<PoolId, Pool>
    var lastId: nat
    var savedId: nat
    var manifest: seq<Event>

    function Now(): Tables
      reads this
    {
      Tables(jobs, pend, run, fin, hosts, queues, pools, lastId, savedId, manifest)
    }

    ghost predicate Valid()
      reads this
    {
      MbdInv(Now())
    }

    /** A daemon as configuration leaves it. */
    constructor (m: Tables)
      requires Init(m)
      ensures Now() == m && Valid()
    {
      jobs, pend, run, fin := m.jobs, m.pend, m.run, m.fin;
      hosts, queues, pools := m.hosts, m.queues, m.pools;
      lastId, savedId, manifest := m.lastId, m.savedId, m.manifest;
      new;
      InitInv(m);
    }

    /** The end of a turn of schedule(), with mbd_dispatch_job */
    method Dispatch(j: JobId, plan: seq<HostId>, now: int)
      requires j in jobs && jobs[j].queue in queues
      modifies this
      ensures Now() == Mbd.Dispatch(old(Now()), j, plan, now)
    {
      hide Without, AdjustRefs, ChargeAll, MoveTokens;
      var job := jobs[j].(dispatchTime := now, runHosts := plan);
      job := job.(state := Running, list := OnRun);
      pend := Without(pend, j);
      run := run + [j];
      manifest := manifest + [StartOn(j, job, plan)];
      jobs := DepsRefcnt(jobs[j := job], job.deps, -1);
      hosts := HostUpdateResources(hosts, job);
      pools := TakeTokens(pools, job.tokens, -1);
      var q := queues[job.queue];
      q := q.(numRun := q.numRun + 1, numPend := q.numPend - 1);
      q := q.(cpusUsed := q.cpusUsed + job.cpus * |plan|, hostsUsed := q.hostsUsed + |plan|);
      queues := queues[job.queue := q];
    }

    /** The queue counters a running job gives back. */
    method Uncharge(job: Job)
      requires job.queue in queues
      modifies this`hosts, this`pools, this`queues
      ensures hosts == ReleaseAll(old(hosts), job.runHosts, job) && pools == MoveTokens(old(pools), job.tokens, 1)
      ensures var q := old(queues)[job.queue];
              queues == old(queues)[job.queue := q.(numRun := q.numRun - 1,
                                                    cpusUsed := q.cpusUsed - job.cpus * |job.runHosts|,
                                                    hostsUsed := q.hostsUsed - |job.runHosts|)]
    {
      hosts := ResetHostResources(hosts, job);
      pools := TakeTokens(pools, job.tokens, 1);
      var q := queues[job.queue];
      q := q.(numRun := q.numRun - 1);
      q := q.(cpusUsed := q.cpusUsed - job.cpus * |job.runHosts|, hostsUsed := q.hostsUsed - |job.runHosts|);
      queues := queues[job.queue := q];
    }

    /** job_array_element_finished */
    method ElementDone(head: JobId)
      modifies this`jobs
      ensures jobs == ElementFinished(old(jobs), head)
    {
      if head != 0 && head in jobs {
        jobs := jobs[head := jobs[head].(elementCnt := jobs[head].elementCnt - 1)];
      }
    }

    /** mbd_job_finish, first report */
    method Finish(j: JobId, success: bool, exit: int, now: int)
      requires j in jobs && jobs[j].queue in queues
      modifies this
      ensures Now() == Mbd.Finish(old(Now()), j, success, exit, now)
    {
      hide Without, ReleaseAll, MoveTokens, ElementFinished;
      var was := jobs[j];
      Uncharge(was);
      var q := queues[was.queue];
      queues := queues[was.queue := q.(numJobs := q.numJobs - 1)];
      var job := was.(endTime := now, exitStatus := exit, list := OnFinish, state := if success then Done else Exited);
      manifest := manifest + [EvFinish(j, job.uid, job.state, exit, now)];
      run := Without(run, j);
      fin := fin + [j];
      jobs := jobs[j := job];
      ElementDone(job.tag.id);
    }

    /** mbd_job_reject_dispatch (forget) and mbd_job_missing (keep the hosts) */
    method BackToPend(j: JobId, forget: bool, now: int)
      requires j in jobs && jobs[j].queue in queues
      modifies this
      ensures Now() == if forget then Reject(old(Now()), j, now) else Missing(old(Now()), j, now)
    {
      hide Without, ReleaseAll, MoveTokens, ElementFinished;
      var was := jobs[j];
      Uncharge(was);
      var q := queues[was.queue];
      queues := queues[was.queue := q.(numPend := q.numPend + 1)];
      var job := was.(pid := 0, forkTime := 0, dispatchTime := 0, state := Pending, list := OnPend);
      if forget {
        job := job.(runHosts := []);
      }
      run := Without(run, j);
      pend := pend + [j];
      jobs := jobs[j := job];
      manifest := manifest + [EvPend(j, now)];
    }

    /** finish_pending_job */
    method KillPending(j: JobId, sig: Sig, now: int)
      requires j in jobs && jobs[j].queue in queues
      modifies this
      ensures Now() == Kill(old(Now()), j, sig, now)
    {
      hide Without, AdjustRefs, ElementFinished;
      var was := jobs[j];
      var q := queues[was.queue];
      if was.state == Pending {
        q := q.(numPend := q.numPend - 1);
      }
      if was.state == Held {
        q := q.(numHeld := q.numHeld - 1);
      }
      queues := queues[was.queue := q.(numJobs := q.numJobs - 1)];
      var job := was.(endTime := now, state := Exited, list := OnFinish);
      jobs := DepsRefcnt(jobs[j := job], job.deps, -1);
      manifest := manifest + [EvSignal(j, now, sig), EvFinish(j, job.uid, Exited, job.exitStatus, now)];
      pend := Without(pend, j);
      fin := fin + [j];
      ElementDone(job.tag.id);
    }

    /** next_job_id */
    method NextJobId() returns (id: JobId)
      modifies this`lastId
      ensures id == lastId == NextId(jobs, old(lastId))
    {
      lastId := lastId + 1;
      while lastId in jobs
        invariant lastId > 0 && NextId(jobs, lastId - 1) == NextId(jobs, old(lastId))
        decreases Above(jobs, lastId - 1)
      {
        assert lastId in Above(jobs, lastId - 1) && lastId !in Above(jobs, lastId);
        lastId := lastId + 1;
      }
      id := lastId;
    }

    /** The loop of job_register: one id for each index of the range, walked in
        32 bits. */
    method DrawAll(req: Request) returns (ids: seq<JobId>)
      requires req.isArray ==> req.stride > 0 && req.end >= req.start
      requires req.isArray ==> I.INT_MIN <= req.start && req.start + Elements(req) * req.stride <= I.INT_MAX
      modifies this`lastId
      ensures ids == DrawIds(jobs, old(lastId), Elements(req)) && lastId == ids[|ids| - 1]
    {
      var start, end, stride := 0, 0, 1;
      if req.isArray {
        start, end, stride := req.start, req.end, req.stride;
      }
      RangeCounted(req, start, end, stride);
      hide Elements, RangeOf, AtIndex, I.Wrap;
      ids := [];
      var index := start;
      assert [] + DrawIds(jobs, lastId, Elements(req)) == DrawIds(jobs, lastId, Elements(req));
      while index <= end
        invariant AtIndex(start, stride, |ids|, index) && |ids| <= Elements(req)
        invariant ids + DrawIds(jobs, lastId, Elements(req) - |ids|) == DrawIds(jobs, old(lastId), Elements(req))
        invariant ids != [] ==> lastId == ids[|ids| - 1]
        decreases Elements(req) - |ids|
      {
        hide DrawIds, NextId;
        RangeTurn(req, start, end, stride, |ids|, index);
        DrawMore(jobs, lastId, ids, Elements(req) - |ids|);
        var id := NextJobId();
        ids := ids + [id];
        index := I.Wrap(index + stride);
      }
      RangeOver(req, start, end, stride, |ids|, index);
      assert ids + [] == ids;
    }

    /** job_commit */
    method CommitJob(id: JobId, job: Job, nhosts: int)
      requires job.queue in queues
      modifies this
      ensures Now() == Commit(old(Now()), id, job, nhosts)
    {
      hide AdjustRefs;
      jobs := DepsRefcnt(jobs[id := job], job.deps, 1);
      pend := pend + [id];
      manifest := manifest + [NewEvent(id, job, nhosts)];
      var q := queues[job.queue];
      if job.state == Pending {
        q := q.(numPend := q.numPend + 1);
      } else if job.state == Held {
        q := q.(numHeld := q.numHeld + 1);
      }
      queues := queues[job.queue := q.(numJobs := q.numJobs + 1)];
    }

    /** job_register: all elements are prepared, then all committed */
    method Register(req: Request, now: int)
      requires GoodRequest(Now(), req)
      modifies this
      ensures Now() == Mbd.Submit(old(Now()), req, now)
    {
      hide Commit, DrawIds, Prepared;
      var ids := DrawAll(req);
      ghost var start := Now().(lastId := old(lastId));
      var k := 0;
      while k < |ids|
        invariant 0 <= k <= |ids| && req.queue in queues && lastId == ids[|ids| - 1]
        invariant CommitRest(Now().(lastId := old(lastId)), req, ids, |ids| - k, now) == CommitRest(start, req, ids, |ids|, now)
      {
        ghost var was := Now();
        CommitKeepsTables(was, ids[k], req, queues[req.queue].priority, ids[0], k, |ids|, now);
        CommitJob(ids[k], Prepared(req, queues[req.queue].priority, ids[0], k, |ids|, now), req.nhosts);
        CommitIgnoresId(was, ids[k], Prepared(req, was.queues[req.queue].priority, ids[0], k, |ids|, now), req.nhosts, old(lastId));
        k := k + 1;
      }
      savedId := lastId;
    }

    /** mbd_new_job_reply with a pid, first time */
    method Fork(j: JobId, pid: int, now: int)
      requires j in jobs
      modifies this`jobs, this`manifest
      ensures Now() == Mbd.Fork(old(Now()), j, pid, now)
    {
      jobs := jobs[j := jobs[j].(pid := pid, forkTime := now, state := Running)];
      manifest := manifest + [EvFork(j, now, pid)];
    }

    /** stop_pending_job and resume_pending_job */
    method SetHeld(j: JobId, hold: bool, sig: Sig, now: int)
      requires j in jobs && jobs[j].queue in queues
      modifies this
      ensures Now() == Mbd.SetHeld(old(Now()), j, hold, sig, now)
    {
      manifest := manifest + [EvSignal(j, now, sig)];
      var q := queues[jobs[j].queue];
      if hold {
        queues := queues[jobs[j].queue := q.(numPend := q.numPend - 1, numHeld := q.numHeld + 1)];
        jobs := jobs[j := jobs[j].(state := Held)];
        manifest := manifest + [EvPendSusp(j, now)];
      } else {
        queues := queues[jobs[j].queue := q.(numPend := q.numPend + 1, numHeld := q.numHeld - 1)];
        jobs := jobs[j := jobs[j].(state := Pending)];
        manifest := manifest + [EvPendResume(j, now)];
      }
    }

    /** job_move */
    method Move(j: JobId, to: QueueId, now: int)
      requires j in jobs && jobs[j].queue in queues && to in queues
      modifies this
      ensures Now() == Mbd.Move(old(Now()), j, to, now)
    {
      var job := jobs[j];
      var from := queues[job.queue];
      from := from.(numJobs := from.numJobs - 1);
      if job.state == Pending {
        from := from.(numPend := from.numPend - 1);
      } else {
        from := from.(numHeld := from.numHeld - 1);
      }
      queues := queues[job.queue := from];
      var dest := queues[to];
      dest := dest.(numJobs := dest.numJobs + 1);
      if job.state == Pending {
        dest := dest.(numPend := dest.numPend + 1);
      } else {
        dest := dest.(numHeld := dest.numHeld + 1);
      }
      queues := queues[to := dest];
      jobs := jobs[j := job.(queue := to)];
      manifest := manifest + [EvMove(j, now, job.queue, to)];
    }

    /** job_priority */
    method SetPriority(j: JobId, priority: int, now: int)
      requires j in jobs
      modifies this`jobs, this`manifest
      ensures Now() == Mbd.SetPriority(old(Now()), j, priority, now)
    {
      var before := jobs[j].priority;
      jobs := jobs[j := jobs[j].(priority := priority)];
      manifest := manifest + [EvPriority(j, now, before, priority)];
    }

    /** jobs_replay after a crash: the old tables are gone, the log is not */
    method Recover()
      modifies this
      ensures Now() == var m := old(Now());
                       var r := Replay(m.manifest, m.queues);
                       if r.None? then m else Mbd.Restart(m, r.value)
    {
      hide Replay, Mbd.Restart;
      var r := JobsReplay(manifest, queues);
      if r.Some? {
        var t := Rebuilt(Now(), r.value);
        Load(t);
      }
    }

    method Load(t: Tables)
      modifies this
      ensures Now() == t
    {
      jobs, pend, run, fin := t.jobs, t.pend, t.run, t.fin;
      hosts, queues, pools := t.hosts, t.queues, t.pools;
      lastId, savedId, manifest := t.lastId, t.savedId, t.manifest;
    }

    /** Any handler keeps the books, the log and the ids. */
    method Take(step: Step, now: int)
      requires Valid() && Enabled(Now(), step, now) && Proper(step)
      modifies this
      ensures Now() == Next(old(Now()), step, now) && Valid()
    {
      hide MbdInv;
      ghost var m := Now();
      StepKeepsInv(m, step, now);
      if OfDispatch(step) {
        TakeDispatch(step, now);
      } else if OfPending(step) {
        TakePending(step, now);
      } else {
        assert step.DoCompact? ==> ListsOk(Now()) by { InvLists(m); }
        TakeOther(step, now);
      }
    }

    method TakeDispatch(step: Step, now: int)
      requires Enabled(Now(), step, now) && OfDispatch(step)
      modifies this
      ensures Now() == Next(old(Now()), step, now)
    {
      hide Mbd.Dispatch, Mbd.Fork, Mbd.Finish, Mbd.Reject, Mbd.Missing;
      match step {
        case DoDispatch(j, plan) => Dispatch(j, plan, now);
        case DoFork(j, pid) => Fork(j, pid, now);
        case DoReject(j) => BackToPend(j, true, now);
        case DoMissing(j) => BackToPend(j, false, now);
        case DoFinish(j, success, exit) => Finish(j, success, exit, now);
        case DoSignal(j, sig) => manifest := manifest + [EvSignal(j, now, sig)];
      }
    }

    method TakePending(step: Step, now: int)
      requires Enabled(Now(), step, now) && OfPending(step)
      modifies this
      ensures Now() == Next(old(Now()), step, now)
    {
      hide Mbd.Kill, Mbd.SetHeld, Mbd.Move, Mbd.SetPriority;
      match step {
        case DoKill(j, sig) => KillPending(j, sig, now);
        case DoHold(j, sig) => SetHeld(j, true, sig, now);
        case DoResume(j, sig) => SetHeld(j, false, sig, now);
        case DoMove(j, to) => Move(j, to, now);
        case DoPriority(j, priority) => SetPriority(j, priority, now);
      }
    }

    method TakeOther(step: Step, now: int)
      requires Enabled(Now(), step, now) && !OfDispatch(step) && !OfPending(step)
      requires step.DoCompact? ==> ListsOk(Now())
      modifies this
      ensures Now() == Next(old(Now()), step, now)
    {
      hide Mbd.Submit, Mbd.Restart, Compact, Replay, Mark;
      match step {
        case DoSubmit(req) => Register(req, now);
        case DoFailSubmit(drawn) => lastId := lastId + drawn;
        case DoMark(up) => hosts := Mark(hosts, up);
        case DoCompact => Rebuild();
        case DoRestart => Recover();
      }
    }

    /** mbd_assert_counters: none of its asserts can fail */
    method AssertCounters(hostList: seq<HostId>, queueList: seq<QueueId>) returns (ok: bool)
      requires Valid()
      requires (forall h :: h in hostList ==> h in hosts) && forall q :: q in queueList ==> q in queues
      ensures ok
    {
      hide MbdInv, BooksOk;
      InvLists(Now());
      ok := true;
      for i := 0 to |hostList|
        invariant ok
      {
        assert hostList[i] in hostList;
        ok := HostAgrees(Now(), hostList[i]);
      }
      for i := 0 to |queueList|
        invariant ok
      {
        assert queueList[i] in queueList;
        ok := QueueAgrees(Now(), queueList[i]);
      }
    }

    /** manifest_rebuild: three loops, the last of which also purges */
    method Rebuild()
      requires ListsOk(Now())
      modifies this
      ensures Now() == Compact(old(Now()))
    {
      hide RewriteAll, Keep, Gone;
      AllListed(Now());
      var log: seq<Event> := [];
      NothingWritten(jobs);
      log := WriteList(log, pend, []);
      assert [] + pend == pend;
      log := WriteList(log, run, pend);
      var kept, gone;
      log, kept, gone := WriteFinished(log);
      Purged(Now());
      manifest := log;
      fin := kept;
      jobs := jobs - gone;
    }

    /** compact_write_* over one list, after the ids already written */
    method WriteList(log: seq<Event>, ids: seq<JobId>, ghost before: seq<JobId>) returns (more: seq<Event>)
      requires log == RewriteAll(before, jobs) && forall j :: j in ids ==> j in jobs
      ensures more == RewriteAll(before + ids, jobs)
    {
      hide RewriteAll, Rewritten;
      more := log;
      assert before + ids[..0] == before;
      var i := 0;
      while i < |ids|
        invariant 0 <= i <= |ids| && more == RewriteAll(before + ids[..i], jobs)
      {
        var j := ids[i];
        assert j in ids;
        RewriteMore(before + ids[..i], j, jobs);
        assert before + ids[..i + 1] == before + ids[..i] + [j];
        more := more + Rewritten(j, jobs[j]);
        i := i + 1;
      }
      assert ids[..|ids|] == ids;
    }

    /** The loop over the finished jobs: kept and written, or freed */
    method WriteFinished(log: seq<Event>) returns (more: seq<Event>, kept: seq<JobId>, gone: set<JobId>)
      requires log == RewriteAll(pend + run, jobs) && forall j :: j in fin ==> j in jobs
      ensures kept == Keep(fin, jobs) && more == RewriteAll(pend + run + kept, jobs) && gone == Gone(fin, jobs)
    {
      more, kept, gone := log, [], {};
      assert pend + run + [] == pend + run;
      assert fin[..0] == [];
      var i := 0;
      while i < |fin|
        invariant 0 <= i <= |fin|
        invariant kept == Keep(fin[..i], jobs) && gone == Gone(fin[..i], jobs)
        invariant more == RewriteAll(pend + run + kept, jobs)
      {
        hide RewriteAll, Rewritten, Keep, Gone, Retained;
        var j := fin[i];
        assert j in fin;
        KeepMore(fin, i, jobs);
        if Retained(j, jobs[j]) {
          RewriteMore(pend + run + kept, j, jobs);
          assert pend + run + (kept + [j]) == pend + run + kept + [j];
          more := more + Rewritten(j, jobs[j]);
          kept := kept + [j];
        } else {
          gone := gone + {j};
        }
        i := i + 1;
      }
      assert fin[..|fin|] == fin;
    }
  }

  lemma {:induction false} InvLists(m: Tables)
    requires MbdInv(m)
    ensures ListsOk(m) && BooksOk(m)
  {
  }

  lemma {:induction false} DrawMore(jobs: map<JobId, Job>, n: nat, ids: seq<JobId>, count: nat)
    requires count > 0
    ensures ids + DrawIds(jobs, n, count) == ids + [NextId(jobs, n)] + DrawIds(jobs, NextId(jobs, n), count - 1)
  {
    hide NextId;
  }

  lemma {:induction false} CommitKeepsTables(m: Tables, id: JobId, req: Request, priority: int, head: JobId, k: nat, n: nat, now: int)
    requires req.queue in m.queues
    ensures var job := Prepared(req, priority, head, k, n, now);
            && job.queue == req.queue
            && Commit(m, id, job, req.nhosts).lastId == m.lastId && req.queue in Commit(m, id, job, req.nhosts).queues
  {
  }

  lemma {:induction false} CommitIgnoresId(m: Tables, id: JobId, job: Job, nhosts: int, n: nat)
    requires job.queue in m.queues
    ensures Commit(m, id, job, nhosts).(lastId := n) == Commit(m.(lastId := n), id, job, nhosts)
  {
    hide AdjustRefs;
  }

  // -------------------------------------------------------------------
  // The range of a submission
  // -------------------------------------------------------------------

  /** job_register's loop range: 0-0 unless the request is an array. */
  ghost predicate RangeOf(req: Request, start: int, end: int, stride: int) {
    && (req.isArray ==> req.stride > 0 && req.end >= req.start && start == req.start && end == req.end && stride == req.stride)
    && (!req.isArray ==> start == 0 && end == 0 && stride == 1)
    && stride > 0 && end >= start && I.INT_MIN <= start && start + ((end - start) / stride + 1) * stride <= I.INT_MAX
  }

  ghost predicate AtIndex(start: int, stride: int, k: nat, index: int) {
    index == start + k * stride
  }

  lemma {:induction false} RangeCounted(req: Request, start: int, end: int, stride: int)
    requires req.isArray ==> req.stride > 0 && req.end >= req.start && start == req.start && end == req.end && stride == req.stride
    requires req.isArray ==> I.INT_MIN <= req.start && req.start + Elements(req) * req.stride <= I.INT_MAX
    requires !req.isArray ==> start == 0 && end == 0 && stride == 1
    ensures RangeOf(req, start, end, stride) && AtIndex(start, stride, 0, start)
  {
  }

  lemma {:induction false} RangeTurn(req: Request, start: int, end: int, stride: int, k: nat, index: int)
    requires RangeOf(req, start, end, stride) && AtIndex(start, stride, k, index) && index <= end
    ensures k < Elements(req) && AtIndex(start, stride, k + 1, I.Wrap(index + stride))
  {
    var n := (end - start) / stride;
    Within(start, end, stride, k);
    assert (k + 1) * stride == k * stride + stride;
    assert 0 <= k * stride <= n * stride;
    assert (n + 1) * stride == n * stride + stride;
  }

  lemma {:induction false} Within(start: int, end: int, stride: int, k: int)
    requires stride > 0 && end >= start
    ensures start + k * stride <= end <==> k <= (end - start) / stride
  {
    var q, r := (end - start) / stride, (end - start) % stride;
    assert end - start == q * stride + r;
    if k <= q {
      assert k * stride <= q * stride;
    } else {
      assert k * stride >= (q + 1) * stride == q * stride + stride;
    }
  }

  lemma {:induction false} RangeOver(req: Request, start: int, end: int, stride: int, k: nat, index: int)
    requires RangeOf(req, start, end, stride) && AtIndex(start, stride, k, index) && index > end && k <= Elements(req)
    ensures k == Elements(req)
  {
    Within(start, end, stride, k);
  }

  lemma {:induction false} NothingWritten(jobs: map<JobId, Job>)
    ensures RewriteAll([], jobs) == []
  {
  }

  lemma {:induction false} AllListed(m: Tables)
    requires ListsOk(m)
    ensures forall j :: j in m.pend || j in m.run || j in m.fin ==> j in m.jobs
  {
  }

  lemma {:induction false} RewriteMore(ids: seq<JobId>, j: JobId, jobs: map<JobId, Job>)
    requires j in jobs
    ensures RewriteAll(ids + [j], jobs) == RewriteAll(ids, jobs) + Rewritten(j, jobs[j])
  {
    hide Rewritten;
    assert (ids + [j])[..|ids|] == ids;
  }

  /** The finished jobs that are freed. */
  function Gone(ids: seq<JobId>, jobs: map<JobId, Job>): set<JobId> {
    set j | j in ids && j in jobs && !Retained(j, jobs[j])
  }

  lemma {:induction false} KeepMore(ids: seq<JobId>, i: nat, jobs: map<JobId, Job>)
    requires i < |ids| && ids[i] in jobs
    ensures var keep := Retained(ids[i], jobs[ids[i]]);
            && Keep(ids[..i + 1], jobs) == Keep(ids[..i], jobs) + (if keep then [ids[i]] else [])
            && Gone(ids[..i + 1], jobs) == Gone(ids[..i], jobs) + (if keep then {} else {ids[i]})
  {
    hide Retained;
    assert ids[..i + 1] == ids[..i] + [ids[i]];
    assert ids[..i + 1][..i] == ids[..i];
  }

  lemma {:induction false} Purged(m: Tables)
    requires ListsOk(m)
    ensures m.jobs - Gone(m.fin, m.jobs) == Compact(m).jobs
  {
    hide Retained;
    forall j | j in m.jobs
      ensures j in Gone(m.fin, m.jobs) <==> m.jobs[j].list == OnFinish && !Retained(j, m.jobs[j])
    {
      assert j in m.fin <==> m.jobs[j].list == OnFinish;
    }
  }

  // -------------------------------------------------------------------
  // Replay and recount
  // -------------------------------------------------------------------

  /** jobs_replay */
  method JobsReplay(log: seq<Event>, queues: map<QueueId, Queue>) returns (r: Option<Replayed>)
    ensures r == Replay(log, queues)
  {
    var tables := Replayed(map[], [], [], []);
    var i := 0;
    while i < |log|
      invariant 0 <= i <= |log| && Replay(log[..i], queues) == Some(tables)
    {
      assert log[..i + 1][..i] == log[..i];
      var next := ReplayOne(tables, log[i], queues);
      if next.None? {
        FailsForGood(log, queues, i + 1, |log|);
        assert log[..|log|] == log;
        return None;
      }
      tables := next.value;
      i := i + 1;
    }
    assert log[..|log|] == log;
    return Some(tables);
  }

  lemma {:induction false} FailsForGood(log: seq<Event>, queues: map<QueueId, Queue>, i: nat, k: nat)
    requires i <= k <= |log| && Replay(log[..i], queues).None?
    ensures Replay(log[..k], queues).None?
    decreases k
  {
    if i < k {
      FailsForGood(log, queues, i, k - 1);
      assert log[..k][..k - 1] == log[..k - 1];
    }
  }

  /** The greatest id in the log */
  method GreatestId(log: seq<Event>) returns (max: nat)
    ensures max == MaxId(log)
  {
    max := 0;
    var i := 0;
    while i < |log|
      invariant 0 <= i <= |log| && max == MaxId(log[..i])
    {
      assert log[..i + 1][..i] == log[..i];
      if log[i].EvNew? && log[i].job > max {
        max := log[i].job;
      }
      i := i + 1;
    }
    assert log[..|log|] == log;
  }

  /** The end of jobs_replay: the id sequence, and replay_rebuild_counters */
  method Rebuilt(m: Tables, r: Replayed) returns (t: Tables)
    ensures t == Mbd.Restart(m, r)
  {
    hide RebuildElements, RebuildRefs, RebuildHosts, RebuildQueues, MaxId, FreshHosts, FreshQueues, FreshPools;
    var max := GreatestId(m.manifest);
    var hosts := RecountHosts(FreshHosts(m.hosts), r.run, r.jobs);
    var queues := RecountQueues(FreshQueues(m.queues), r.pend + r.run, r.jobs);
    var counted := RecountRefs(r.jobs, r.pend);
    counted := RecountElements(counted, r.pend + r.run);
    t := Tables(counted, r.pend, r.run, r.fin, hosts, queues, FreshPools(m.pools),
                if max > m.savedId then max else m.savedId, m.savedId, m.manifest);
  }

  /** replay_charge_running_job for every running job */
  method RecountHosts(blank: map<HostId, Host>, run: seq<JobId>, jobs: map<JobId, Job>) returns (hosts: map<HostId, Host>)
    ensures hosts == RebuildHosts(blank, run, jobs)
  {
    hide ChargeAll;
    hosts := blank;
    var i := 0;
    while i < |run|
      invariant 0 <= i <= |run| && hosts == RebuildHosts(blank, run[..i], jobs)
    {
      assert run[..i + 1][..i] == run[..i];
      if run[i] in jobs {
        hosts := HostUpdateResources(hosts, jobs[run[i]]);
      }
      i := i + 1;
    }
    assert run[..|run|] == run;
  }

  /** The two queue loops of replay_rebuild_counters */
  method RecountQueues(blank: map<QueueId, Queue>, ids: seq<JobId>, jobs: map<JobId, Job>) returns (queues: map<QueueId, Queue>)
    ensures queues == RebuildQueues(blank, ids, jobs)
  {
    hide CountIn;
    queues := blank;
    var i := 0;
    while i < |ids|
      invariant 0 <= i <= |ids| && queues == RebuildQueues(blank, ids[..i], jobs)
    {
      assert ids[..i + 1][..i] == ids[..i];
      if ids[i] in jobs && jobs[ids[i]].queue in queues {
        queues := queues[jobs[ids[i]].queue := CountIn(queues[jobs[ids[i]].queue], jobs[ids[i]])];
      }
      i := i + 1;
    }
    assert ids[..|ids|] == ids;
  }

  /** job_deps_hold for every pending job */
  method RecountRefs(jobs: map<JobId, Job>, pend: seq<JobId>) returns (counted: map<JobId, Job>)
    ensures counted == RebuildRefs(jobs, pend)
  {
    hide AdjustRefs;
    counted := jobs;
    var i := 0;
    while i < |pend|
      invariant 0 <= i <= |pend| && counted == RebuildRefs(jobs, pend[..i])
    {
      assert pend[..i + 1][..i] == pend[..i];
      if pend[i] in counted {
        counted := DepsRefcnt(counted, counted[pend[i]].deps, 1);
      }
      i := i + 1;
    }
    assert pend[..|pend|] == pend;
  }

  /** array_element_cnt of every head */
  method RecountElements(jobs: map<JobId, Job>, ids: seq<JobId>) returns (counted: map<JobId, Job>)
    ensures counted == RebuildElements(jobs, ids)
  {
    counted := jobs;
    var i := 0;
    while i < |ids|
      invariant 0 <= i <= |ids| && counted == RebuildElements(jobs, ids[..i])
    {
      assert ids[..i + 1][..i] == ids[..i];
      if ids[i] in counted && counted[ids[i]].tag.id != 0 && counted[ids[i]].tag.id in counted {
        var head := counted[ids[i]].tag.id;
        counted := counted[head := counted[head].(elementCnt := counted[head].elementCnt + 1)];
      }
      i := i + 1;
    }
    assert ids[..|ids|] == ids;
  }

  /** The recount of one host in mbd_assert_counters */
  method HostAgrees(m: Tables, h: HostId) returns (ok: bool)
    requires BooksOk(m) && ListsOk(m) && h in m.hosts
    ensures ok
  {
    hide Weight, Total;
    var jobs, running, cpus := 0, 0, 0;
    var i := 0;
    while i < |m.run|
      invariant 0 <= i <= |m.run| && HostTells(jobs, running, cpus, h, m.run[..i], m.jobs)
    {
      var job := m.jobs[m.run[i]];
      ListedSound(m, m.run[i]);
      assert m.run[i] in m.run && m.run[..i + 1] == m.run[..i] + [m.run[i]];
      hide BooksOk, ListSum, HostTells;
      HostTellsMore(jobs, running, cpus, h, m.run[..i], m.run[i], m.jobs);
      if h in job.runHosts {
        jobs := jobs + 1;
        cpus := cpus + job.cpus;
        if job.state == Running {
          running := running + 1;
        } else {
          return false;
        }
      }
      i := i + 1;
    }
    assert m.run[..|m.run|] == m.run;
    ListRecount(m, HostJobs(h));
    ListRecount(m, HostRun(h));
    ListRecount(m, HostUsed(h));
    var host := m.hosts[h];
    return host.freeCpu >= 0 && host.numJobs == jobs && host.numRun == running && host.cpusUsed == cpus;
  }

  ghost predicate HostTells(n: int, running: int, cpus: int, h: HostId, ids: seq<JobId>, jobs: map<JobId, Job>) {
    n == ListSum(HostJobs(h), ids, jobs) && running == ListSum(HostRun(h), ids, jobs) && cpus == ListSum(HostUsed(h), ids, jobs)
  }

  lemma {:induction false} HostTellsMore(n: int, running: int, cpus: int, h: HostId, ids: seq<JobId>, j: JobId, jobs: map<JobId, Job>)
    requires HostTells(n, running, cpus, h, ids, jobs) && j in jobs && jobs[j].list == OnRun
    ensures if h in jobs[j].runHosts then HostTells(n + 1, running + 1, cpus + jobs[j].cpus, h, ids + [j], jobs)
            else HostTells(n, running, cpus, h, ids + [j], jobs)
  {
    hide ListSum;
    ListSumMore(HostJobs(h), ids, j, jobs);
    ListSumMore(HostRun(h), ids, j, jobs);
    ListSumMore(HostUsed(h), ids, j, jobs);
  }

  lemma {:induction false} ListRecount(m: Tables, x: Measure)
    requires BooksOk(m) && ListsOk(m) && (OfHost(x) || OfQueue(x)) && Configured(x, m)
    ensures Counter(x, m) == ListSum(x, if OfHost(x) then m.run else m.pend + m.run, m.jobs)
  {
    var r := Replayed(m.jobs, m.pend, m.run, m.fin);
    if OfHost(x) { HostListTotal(r, x, m.lastId); } else { QueueListTotal(r, x, m.lastId); }
  }

  /** The counts of one queue over some jobs */
  datatype Tally = Tally(jobs: int, pend: int, held: int, run: int, cpus: int, hosts: int)

  ghost predicate Tells(t: Tally, q: QueueId, ids: seq<JobId>, jobs: map<JobId, Job>) {
    && t.jobs == ListSum(QueueJobs(q), ids, jobs) && t.pend == ListSum(QueuePend(q), ids, jobs)
    && t.held == ListSum(QueueHeld(q), ids, jobs) && t.run == ListSum(QueueRun(q), ids, jobs)
    && t.cpus == ListSum(QueueCpus(q), ids, jobs) && t.hosts == ListSum(QueueHosts(q), ids, jobs)
  }

  lemma {:induction false} ListSumMore(x: Measure, ids: seq<JobId>, j: JobId, jobs: map<JobId, Job>)
    requires j in jobs
    ensures ListSum(x, ids + [j], jobs) == ListSum(x, ids, jobs) + Weight(x, LoadOf(jobs[j]))
  {
    hide Weight;
    assert (ids + [j])[..|ids|] == ids;
  }

  function Tallied(t: Tally, q: QueueId, l: Load): Tally {
    Tally(t.jobs + Weight(QueueJobs(q), l), t.pend + Weight(QueuePend(q), l), t.held + Weight(QueueHeld(q), l),
          t.run + Weight(QueueRun(q), l), t.cpus + Weight(QueueCpus(q), l), t.hosts + Weight(QueueHosts(q), l))
  }

  lemma {:induction false} TalliedMore(t: Tally, q: QueueId, ids: seq<JobId>, j: JobId, jobs: map<JobId, Job>)
    requires j in jobs && Tells(t, q, ids, jobs)
    ensures Tells(Tallied(t, q, LoadOf(jobs[j])), q, ids + [j], jobs)
  {
    hide Weight, ListSum;
    ListSumMore(QueueJobs(q), ids, j, jobs);
    ListSumMore(QueuePend(q), ids, j, jobs);
    ListSumMore(QueueHeld(q), ids, j, jobs);
    ListSumMore(QueueRun(q), ids, j, jobs);
    ListSumMore(QueueCpus(q), ids, j, jobs);
    ListSumMore(QueueHosts(q), ids, j, jobs);
  }

  /** The body of the two queue loops: the count of one more job */
  method TallyOne(t: Tally, q: QueueId, job: Job) returns (next: Tally, ok: bool)
    requires job.list == OnPend ==> job.state in {Pending, Held}
    requires job.list == OnRun ==> job.state == Running
    requires job.list != OnFinish
    ensures ok && next == Tallied(t, q, LoadOf(job))
  {
    next, ok := t, true;
    if job.queue != q {
      return;
    }
    next := next.(jobs := next.jobs + 1);
    if job.list == OnPend {
      if job.state == Held {
        next := next.(held := next.held + 1);
      } else if job.state == Pending {
        next := next.(pend := next.pend + 1);
      } else {
        ok := false;
      }
    } else {
      next := next.(cpus := next.cpus + job.cpus * |job.runHosts|, hosts := next.hosts + |job.runHosts|);
      if job.state == Running {
        next := next.(run := next.run + 1);
      } else {
        ok := false;
      }
    }
  }

  /** The recount of one queue in mbd_assert_counters */
  method QueueAgrees(m: Tables, q: QueueId) returns (ok: bool)
    requires BooksOk(m) && ListsOk(m) && q in m.queues
    ensures ok
  {
    hide Weight, Total;
    var ids := m.pend + m.run;
    var t := Tally(0, 0, 0, 0, 0, 0);
    var i := 0;
    while i < |ids|
      invariant 0 <= i <= |ids| && Tells(t, q, ids[..i], m.jobs)
    {
      ListedSound(m, ids[i]);
      assert ids[i] in ids && ids[..i + 1] == ids[..i] + [ids[i]];
      hide ListSum, BooksOk, Tells;
      TalliedMore(t, q, ids[..i], ids[i], m.jobs);
      t, ok := TallyOne(t, q, m.jobs[ids[i]]);
      if !ok {
        return;
      }
      i := i + 1;
    }
    assert ids[..|ids|] == ids;
    QueueRecounted(m, q, t);
    var r := m.queues[q];
    return r.numJobs == t.jobs && r.numPend == t.pend && r.numRun == t.run && r.numHeld == t.held
           && r.cpusUsed == t.cpus && r.hostsUsed == t.hosts;
  }

  lemma {:induction false} ListedSound(m: Tables, j: JobId)
    requires BooksOk(m) && ListsOk(m) && (j in m.pend || j in m.run)
    ensures j in m.jobs && m.jobs[j].list != OnFinish && (j in m.run ==> m.jobs[j].list == OnRun)
    ensures m.jobs[j].list == OnPend ==> m.jobs[j].state in {Pending, Held}
    ensures m.jobs[j].list == OnRun ==> m.jobs[j].state == Running
  {
  }

  lemma {:induction false} QueueRecounted(m: Tables, q: QueueId, t: Tally)
    requires BooksOk(m) && ListsOk(m) && q in m.queues && Tells(t, q, m.pend + m.run, m.jobs)
    ensures var r := m.queues[q];
            && r.numJobs == t.jobs && r.numPend == t.pend && r.numRun == t.run && r.numHeld == t.held
            && r.cpusUsed == t.cpus && r.hostsUsed == t.hosts
  {
    ListRecount(m, QueueJobs(q));
    ListRecount(m, QueuePend(q));
    ListRecount(m, QueueRun(q));
    ListRecount(m, QueueHeld(q));
    ListRecount(m, QueueCpus(q));
    ListRecount(m, QueueHosts(q));
  }
}
