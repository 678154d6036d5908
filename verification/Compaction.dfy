/**
 Compaction and restart: the rewritten manifest shows exactly the jobs that
 were kept, and a daemon started on its manifest has its job table back.
 */
module Compaction {
  import opened Mbd
  import opened JobLists
  import opened Manifest
  import N = Names

  /** Replaying log shows jobs. */
  ghost predicate Shows(log: seq<Event>, queues: map<QueueId, Queue>, jobs: map<JobId, Job>) {
    Replay(log, queues).Some? && Mirrors(Replay(log, queues).value, jobs)
  }

  lemma {:induction false} ShowsSeen(log: seq<Event>, queues: map<QueueId, Queue>, jobs: map<JobId, Job>, t: map<JobId, Job>)
    requires Shows(log, queues, jobs) && t.Keys == jobs.Keys && forall j :: j in t ==> See(t[j]) == See(jobs[j])
    ensures Shows(log, queues, t)
  {
  }

  lemma {:induction false} ShowsMore(log: seq<Event>, e: Event, queues: map<QueueId, Queue>, jobs: map<JobId, Job>, t: map<JobId, Job>)
    requires Shows(log, queues, jobs) && Records(Replay(log, queues).value, e, queues, t)
    ensures Shows(log + [e], queues, t)
  {
    ReplaySnoc(log, e, queues);
  }

  // -------------------------------------------------------------------
  // The records of one job
  // -------------------------------------------------------------------

  /** The job as its first record leaves it. */
  function Submitted(job: Job): Job {
    job.(list := OnPend, dispatchTime := 0, forkTime := 0, pid := 0, exitStatus := 0, endTime := 0)
  }

  function Started(job: Job): Job {
    Submitted(job).(state := Running, list := OnRun, dispatchTime := job.dispatchTime, runHosts := job.runHosts)
  }

  function Forked(job: Job): Job {
    Started(job).(pid := job.pid, forkTime := job.forkTime)
  }

  lemma {:induction false} ShowsNew(log: seq<Event>, queues: map<QueueId, Queue>, jobs: map<JobId, Job>, j: JobId, job: Job)
    requires Shows(log, queues, jobs) && j !in jobs && JobSound(job, queues)
    ensures Shows(log + [NewEvent(j, job, job.nhosts)], queues, jobs[j := Submitted(job)])
  {
    var e := NewEvent(j, job, job.nhosts);
    NewRecorded(Replay(log, queues).value, queues, jobs, jobs[j := Submitted(job)], j, e.rec);
    ShowsMore(log, e, queues, jobs, jobs[j := Submitted(job)]);
  }

  lemma {:induction false} ShowsStart(log: seq<Event>, queues: map<QueueId, Queue>, jobs: map<JobId, Job>, j: JobId, job: Job)
    requires Shows(log, queues, jobs[j := Submitted(job)]) && JobSound(job, queues) && job.dispatchTime != 0
    ensures Shows(log + [StartEvent(j, job)], queues, jobs[j := Started(job)])
  {
    var before, after := jobs[j := Submitted(job)], jobs[j := Started(job)];
    assert job.runHosts[..|job.runHosts|] == job.runHosts;
    StartRecorded(Replay(log, queues).value, queues, before, after, j, job.dispatchTime, job.cpus, N.Cut(job.words.gpuModel, 64), job.runHosts);
    ShowsMore(log, StartEvent(j, job), queues, before, after);
  }

  lemma {:induction false} ShowsFork(log: seq<Event>, queues: map<QueueId, Queue>, jobs: map<JobId, Job>, j: JobId, job: Job)
    requires Shows(log, queues, jobs[j := Started(job)])
    ensures Shows(log + [EvFork(j, job.forkTime, job.pid)], queues, jobs[j := Forked(job)])
  {
    var before, after := jobs[j := Started(job)], jobs[j := Forked(job)];
    ForkRecorded(Replay(log, queues).value, queues, before, after, j, job.forkTime, job.pid);
    ShowsMore(log, EvFork(j, job.forkTime, job.pid), queues, before, after);
  }

  lemma {:induction false} ShowsFinish(log: seq<Event>, queues: map<QueueId, Queue>, jobs: map<JobId, Job>, j: JobId, was: Job, job: Job)
    requires Shows(log, queues, jobs[j := was]) && was.list != OnFinish && was.uid == job.uid
    requires See(job) == See(was.(state := job.state, exitStatus := job.exitStatus, endTime := job.endTime, list := OnFinish))
    ensures Shows(log + [EvFinish(j, job.uid, job.state, job.exitStatus, job.endTime)], queues, jobs[j := job])
  {
    var e := EvFinish(j, job.uid, job.state, job.exitStatus, job.endTime);
    FinishRecorded(Replay(log, queues).value, queues, jobs[j := was], jobs[j := job], j, job.state, job.exitStatus, job.endTime);
    ShowsMore(log, e, queues, jobs[j := was], jobs[j := job]);
  }

  /** START, and FORK if there was one. */
  function Progress(j: JobId, job: Job): seq<Event> {
    [StartEvent(j, job)] + if job.forkTime != 0 then [EvFork(j, job.forkTime, job.pid)] else []
  }

  lemma {:induction false} ShowsProgress(log: seq<Event>, queues: map<QueueId, Queue>, jobs: map<JobId, Job>, j: JobId, job: Job)
    requires Shows(log, queues, jobs[j := Submitted(job)]) && JobSound(job, queues) && job.dispatchTime != 0
    ensures Shows(log + Progress(j, job), queues, jobs[j := Forked(job)])
  {
    ShowsStart(log, queues, jobs, j, job);
    var started := log + [StartEvent(j, job)];
    if job.forkTime != 0 {
      ShowsFork(started, queues, jobs, j, job);
      assert log + Progress(j, job) == started + [EvFork(j, job.forkTime, job.pid)];
    } else {
      assert log + Progress(j, job) == started;
      assert Forked(job) == Started(job);
    }
  }

  lemma {:induction false} ShowsEnd(log: seq<Event>, queues: map<QueueId, Queue>, jobs: map<JobId, Job>, j: JobId, job: Job)
    requires Shows(log, queues, jobs[j := Submitted(job)]) && JobSound(job, queues) && job.list == OnFinish
    ensures Shows(log + (if job.dispatchTime != 0 then Progress(j, job) else [])
                  + [EvFinish(j, job.uid, job.state, job.exitStatus, job.endTime)], queues, jobs[j := job])
  {
    if job.dispatchTime != 0 {
      ShowsProgress(log, queues, jobs, j, job);
      ShowsFinish(log + Progress(j, job), queues, jobs, j, Forked(job), job);
    } else {
      assert log + [] == log;
      ShowsFinish(log, queues, jobs, j, Submitted(job), job);
    }
  }

  lemma {:induction false} RewrittenForm(log: seq<Event>, j: JobId, job: Job)
    ensures var new_ := log + [NewEvent(j, job, job.nhosts)];
            log + Rewritten(j, job)
            == match job.list
               case OnPend => new_
               case OnRun => new_ + Progress(j, job)
               case OnFinish => new_ + (if job.dispatchTime != 0 then Progress(j, job) else [])
                                + [EvFinish(j, job.uid, job.state, job.exitStatus, job.endTime)]
  {
    var new_ := log + [NewEvent(j, job, job.nhosts)];
    match job.list
    case OnPend =>
    case OnRun => assert log + Rewritten(j, job) == new_ + Progress(j, job);
    case OnFinish =>
      assert log + Rewritten(j, job)
          == new_ + (if job.dispatchTime != 0 then Progress(j, job) else [])
             + [EvFinish(j, job.uid, job.state, job.exitStatus, job.endTime)];
  }

  lemma {:induction false} ShowsRunning(log: seq<Event>, queues: map<QueueId, Queue>, jobs: map<JobId, Job>, j: JobId, job: Job)
    requires Shows(log, queues, jobs[j := Submitted(job)]) && JobSound(job, queues) && job.list == OnRun
    ensures Shows(log + Progress(j, job), queues, jobs[j := job])
  {
    ShowsProgress(log, queues, jobs, j, job);
    ShowsSeen(log + Progress(j, job), queues, jobs[j := Forked(job)], jobs[j := job]);
  }

  /** What compaction writes for a job replays to that job. */
  lemma {:induction false} ShowsRewritten(log: seq<Event>, queues: map<QueueId, Queue>, jobs: map<JobId, Job>, j: JobId, job: Job)
    requires Shows(log, queues, jobs) && j !in jobs && JobSound(job, queues)
    ensures Shows(log + Rewritten(j, job), queues, jobs[j := job])
  {
    var new_ := log + [NewEvent(j, job, job.nhosts)];
    ShowsNew(log, queues, jobs, j, job);
    RewrittenForm(log, j, job);
    match job.list
    case OnPend => ShowsSeen(new_, queues, jobs[j := Submitted(job)], jobs[j := job]);
    case OnRun => ShowsRunning(new_, queues, jobs, j, job);
    case OnFinish => ShowsEnd(new_, queues, jobs, j, job);
  }

  // -------------------------------------------------------------------
  // The whole file
  // -------------------------------------------------------------------

  function Restrict(jobs: map<JobId, Job>, ids: seq<JobId>): map<JobId, Job> {
    map j | j in jobs && j in ids :: jobs[j]
  }

  lemma {:induction false} RestrictSnoc(jobs: map<JobId, Job>, ids: seq<JobId>, j: JobId)
    requires j in jobs && j !in ids
    ensures j !in Restrict(jobs, ids) && Restrict(jobs, ids + [j]) == Restrict(jobs, ids)[j := jobs[j]]
  {
  }

  lemma {:induction false} ShowsRewriteAll(ids: seq<JobId>, jobs: map<JobId, Job>, queues: map<QueueId, Queue>)
    requires NoDup(ids) && JobsSound(jobs, queues) && forall j :: j in ids ==> j in jobs
    ensures Shows(RewriteAll(ids, jobs), queues, Restrict(jobs, ids))
  {
    if ids == [] {
      assert Restrict(jobs, ids) == map[];
    } else {
      var n := |ids| - 1;
      var rest, j := ids[..n], ids[n];
      SplitLast(ids);
      ShowsRewriteAll(rest, jobs, queues);
      assert JobSound(jobs[j], queues);
      RestrictSnoc(jobs, rest, j);
      ShowsRewritten(RewriteAll(rest, jobs), queues, Restrict(jobs, rest), j, jobs[j]);
    }
  }

  lemma {:induction false} NoDupConcat(a: seq<JobId>, b: seq<JobId>)
    requires NoDup(a) && NoDup(b) && forall j :: j in a ==> j !in b
    ensures NoDup(a + b)
  {
    var t := a + b;
    forall i, k | 0 <= i < k < |t|
      ensures t[i] != t[k]
    {
      if i < |a| <= k { assert t[i] in a && t[k] in b; }
    }
  }

  lemma {:induction false} KeptOnce(m: Tables)
    requires ListsOk(m)
    ensures NoDup(m.pend + m.run + Keep(m.fin, m.jobs))
  {
    KeepExact(m.fin, m.jobs);
    NoDupConcat(m.pend, m.run);
    NoDupConcat(m.pend + m.run, Keep(m.fin, m.jobs));
  }

  lemma {:induction false} KeptMember(m: Tables, j: JobId)
    requires ListsOk(m)
    ensures j in m.pend + m.run + Keep(m.fin, m.jobs) <==> j in Compact(m).jobs
  {
    KeepExact(m.fin, m.jobs);
    assert j in m.pend + m.run + Keep(m.fin, m.jobs) <==> j in m.pend || j in m.run || j in Keep(m.fin, m.jobs);
  }

  lemma {:induction false} KeptExactly(m: Tables)
    requires ListsOk(m)
    ensures var ids := m.pend + m.run + Keep(m.fin, m.jobs);
            (forall j :: j in ids ==> j in m.jobs) && Restrict(m.jobs, ids) == Compact(m).jobs
  {
    var ids := m.pend + m.run + Keep(m.fin, m.jobs);
    var kept := Compact(m).jobs;
    forall j: JobId
      ensures j in ids <==> j in kept
    {
      KeptMember(m, j);
    }
    SameMap(m.jobs, ids, kept);
  }

  lemma {:induction false} SameMap(jobs: map<JobId, Job>, ids: seq<JobId>, kept: map<JobId, Job>)
    requires forall j :: j in ids <==> j in kept
    requires forall j :: j in kept ==> j in jobs && kept[j] == jobs[j]
    ensures Restrict(jobs, ids) == kept && forall j :: j in ids ==> j in jobs
  {
  }

  lemma {:induction false} CompactMirrors(m: Tables)
    requires ManifestOk(m)
    ensures ManifestOk(Compact(m))
  {
    KeptOnce(m);
    KeptExactly(m);
    ShowsRewriteAll(m.pend + m.run + Keep(m.fin, m.jobs), m.jobs, m.queues);
    CompactKeepsLists(m);
    forall j | j in Compact(m).jobs
      ensures JobSound(Compact(m).jobs[j], m.queues)
    {
      assert JobSound(m.jobs[j], m.queues);
    }
  }

  // -------------------------------------------------------------------
  // Restart
  // -------------------------------------------------------------------

  /** Equal but for the two reference counters. */
  ghost predicate SameButCounts(a: map<JobId, Job>, b: map<JobId, Job>) {
    a.Keys == b.Keys
    && forall j :: j in a ==> b[j] == a[j].(depRefcnt := b[j].depRefcnt, elementCnt := b[j].elementCnt)
  }

  lemma {:induction false} RebuildRefsSame(jobs: map<JobId, Job>, pend: seq<JobId>)
    ensures SameButCounts(jobs, RebuildRefs(jobs, pend))
  {
    if pend != [] { RebuildRefsSame(jobs, pend[..|pend| - 1]); }
  }

  lemma {:induction false} RebuildElementsSame(jobs: map<JobId, Job>, ids: seq<JobId>)
    ensures SameButCounts(jobs, RebuildElements(jobs, ids))
  {
    if ids != [] { RebuildElementsSame(jobs, ids[..|ids| - 1]); }
  }

  lemma {:induction false} RestartJobs(m: Tables, r: Replayed)
    ensures SameButCounts(r.jobs, Restart(m, r).jobs)
  {
    RebuildRefsSame(r.jobs, r.pend);
    RebuildElementsSame(RebuildRefs(r.jobs, r.pend), r.pend + r.run);
  }

  lemma {:induction false} RebuildQueuesConfig(queues: map<QueueId, Queue>, ids: seq<JobId>, jobs: map<JobId, Job>)
    ensures SameConfig(queues, RebuildQueues(queues, ids, jobs))
  {
    if ids != [] { RebuildQueuesConfig(queues, ids[..|ids| - 1], jobs); }
  }

  lemma {:induction false} RestartConfig(m: Tables, r: Replayed)
    ensures SameConfig(m.queues, Restart(m, r).queues)
  {
    var blank := FreshQueues(m.queues);
    RebuildQueuesConfig(blank, r.pend + r.run, r.jobs);
  }

  lemma {:induction false} SoundBySee(a: Job, b: Job, queues: map<QueueId, Queue>)
    requires JobSound(a, queues) && See(a) == See(b) && b.machinesText == []
    ensures JobSound(b, queues)
  {
    assert a.dispatchTime != 0 ==> a.runHosts == See(a).runHosts == See(b).runHosts == b.runHosts;
  }

  lemma {:induction false} ReplayedSound(r: Replayed, jobs: map<JobId, Job>, queues: map<QueueId, Queue>)
    requires Mirrors(r, jobs) && JobsSound(jobs, queues)
    ensures JobsSound(r.jobs, queues)
  {
    forall j | j in r.jobs
      ensures JobSound(r.jobs[j], queues)
    {
      assert ReplayedJob(r.jobs[j]);
      SoundBySee(jobs[j], r.jobs[j], queues);
    }
  }

  /** A restarted daemon: every logged field of every job, and every list, is back. */
  lemma {:induction false} RestartMirrors(m: Tables)
    requires ManifestOk(m)
    ensures Replay(m.manifest, m.queues).Some?
    ensures var t := Restart(m, Replay(m.manifest, m.queues).value);
            && ManifestOk(t) && t.jobs.Keys == m.jobs.Keys
            && forall j :: j in m.jobs ==> See(t.jobs[j]) == See(m.jobs[j])
  {
    var r := Replay(m.manifest, m.queues).value;
    var t := Restart(m, r);
    RestartJobs(m, r);
    RestartConfig(m, r);
    SeenBack(r, m.jobs, t.jobs);
    ReplayedSound(r, m.jobs, m.queues);
    SoundAgain(r.jobs, t.jobs, m.queues);
    SoundConfig(t.jobs, m.queues, t.queues);
    ReplayConfig(m.manifest, m.queues, t.queues);
  }

  lemma {:induction false} SeenBack(r: Replayed, jobs: map<JobId, Job>, t: map<JobId, Job>)
    requires Mirrors(r, jobs) && SameButCounts(r.jobs, t)
    ensures Mirrors(r, t) && Filed(t, r.pend, r.run, r.fin)
    ensures t.Keys == jobs.Keys && forall j :: j in jobs ==> See(t[j]) == See(jobs[j])
  {
    SameListsFiled(r.jobs, t, r.pend, r.run, r.fin);
  }

  lemma {:induction false} SoundAgain(a: map<JobId, Job>, b: map<JobId, Job>, queues: map<QueueId, Queue>)
    requires JobsSound(a, queues) && SameButCounts(a, b)
    ensures JobsSound(b, queues)
  {
    forall j | j in b
      ensures JobSound(b[j], queues)
    {
      assert JobSound(a[j], queues);
    }
  }
}
