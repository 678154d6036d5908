/**
 The event log against the live job table: replaying it from empty tables
 gives the table back, record by record.
 */
module Manifest {
  import opened Mbd
  import opened JobLists
  import N = Names

  /** What the log carries of a job: hosts only while it is dispatched; tokens,
      machine lists and the two reference counters are not in it. */
  function See(job: Job): Job {
    job.(machines := [], machinesText := [], tokens := [], depRefcnt := 0, elementCnt := 0,
         runHosts := if job.dispatchTime != 0 then job.runHosts else [],
         words := job.words.(machines := "", tokenpool := ""))
  }

  /** Strings the log carries whole, or that replay does not rebuild anyway. */
  predicate WordsLogged(w: Words) {
    LoggedWords(w).(machines := "", tokenpool := "") == w.(machines := "", tokenpool := "")
  }

  predicate HostsLogged(hs: seq<HostId>) {
    N.LoggedHosts(hs) == hs
  }

  /** What each live record satisfies between steps. */
  ghost predicate JobSound(job: Job, queues: map<QueueId, Queue>) {
    && job.queue in queues && WordsLogged(job.words)
    && (|job.machinesText| > 0 ==> job.nhosts == |job.machinesText|)
    && (job.dispatchTime != 0 ==>
          |job.runHosts| == job.nhosts && HostsLogged(job.runHosts)
          && forall h :: h in job.runHosts ==> h in queues[job.queue].members)
    && (job.forkTime == 0 ==> job.pid == 0)
    && (job.dispatchTime == 0 ==> job.forkTime == 0)
    && (job.list == OnPend ==> job.dispatchTime == 0 && job.state in {Pending, Held})
    && (job.list == OnRun ==> job.dispatchTime != 0 && job.state == Running)
    && (job.list != OnFinish ==> job.exitStatus == 0 && job.endTime == 0)
  }

  ghost predicate JobsSound(jobs: map<JobId, Job>, queues: map<QueueId, Queue>) {
    forall j :: j in jobs ==> JobSound(jobs[j], queues)
  }

  predicate ReplayedJob(job: Job) {
    job.machinesText == [] && job.tokens == [] && job.depRefcnt == 0 && (job.list == OnPend ==> job.runHosts == [])
  }

  /** r shows jobs. */
  ghost predicate Mirrors(r: Replayed, jobs: map<JobId, Job>) {
    && r.jobs.Keys == jobs.Keys
    && (forall j :: j in jobs ==> See(r.jobs[j]) == See(jobs[j]))
    && (forall j :: j in r.jobs ==> ReplayedJob(r.jobs[j]))
    && Filed(r.jobs, r.pend, r.run, r.fin)
  }

  ghost predicate Mirrored(m: Tables) {
    var r := Replay(m.manifest, m.queues);
    r.Some? && Mirrors(r.value, m.jobs)
  }

  ghost predicate ManifestOk(m: Tables) {
    JobsSound(m.jobs, m.queues) && ListsOk(m) && Mirrored(m)
  }

  // -------------------------------------------------------------------
  // Replay and configuration
  // -------------------------------------------------------------------

  ghost predicate SameConfig(a: map<QueueId, Queue>, b: map<QueueId, Queue>) {
    a.Keys == b.Keys && forall q :: q in a ==> a[q].members == b[q].members && a[q].priority == b[q].priority
  }

  lemma {:induction false} ReplayOneConfig(r: Replayed, e: Event, a: map<QueueId, Queue>, b: map<QueueId, Queue>)
    requires SameConfig(a, b)
    ensures ReplayOne(r, e, a) == ReplayOne(r, e, b)
  {
    if e.EvStart? && e.job in r.jobs && r.jobs[e.job].queue in a {
      var q := r.jobs[e.job].queue;
      assert a[q].members == b[q].members;
    }
  }

  lemma {:induction false} ReplayConfig(log: seq<Event>, a: map<QueueId, Queue>, b: map<QueueId, Queue>)
    requires SameConfig(a, b)
    ensures Replay(log, a) == Replay(log, b)
  {
    if log != [] {
      var n := |log| - 1;
      ReplayConfig(log[..n], a, b);
      if Replay(log[..n], a).Some? {
        ReplayOneConfig(Replay(log[..n], a).value, log[n], a, b);
      }
    }
  }

  lemma {:induction false} ReplaySnoc(log: seq<Event>, e: Event, queues: map<QueueId, Queue>)
    ensures Replay(log + [e], queues)
            == if Replay(log, queues).None? then None else ReplayOne(Replay(log, queues).value, e, queues)
  {
    assert (log + [e])[..|log|] == log;
  }

  lemma {:induction false} SoundConfig(jobs: map<JobId, Job>, a: map<QueueId, Queue>, b: map<QueueId, Queue>)
    requires JobsSound(jobs, a) && SameConfig(a, b)
    ensures JobsSound(jobs, b)
  {
    forall j | j in jobs
      ensures JobSound(jobs[j], b)
    {
      assert JobSound(jobs[j], a);
    }
  }

  // -------------------------------------------------------------------
  // One record, one job
  // -------------------------------------------------------------------

  /** t shows every job but j as jobs does. */
  ghost predicate SeenAlike(jobs: map<JobId, Job>, t: map<JobId, Job>, j: JobId) {
    forall k :: k != j ==> (k in jobs <==> k in t) && (k in jobs ==> See(jobs[k]) == See(t[k]))
  }

  /** After e, replay shows t. */
  ghost predicate Records(r: Replayed, e: Event, queues: map<QueueId, Queue>, t: map<JobId, Job>) {
    ReplayOne(r, e, queues).Some? && Mirrors(ReplayOne(r, e, queues).value, t)
  }

  /** r1 differs from r at j only, where it shows what t has. */
  lemma {:induction false} Recorded(r: Replayed, e: Event, queues: map<QueueId, Queue>, jobs: map<JobId, Job>, t: map<JobId, Job>)
    requires Mirrors(r, jobs) && SeenAlike(jobs, t, e.job) && e.job in t
    requires ReplayOne(r, e, queues).Some?
    requires var r1 := ReplayOne(r, e, queues).value;
             && SeenAlike(r.jobs, r1.jobs, e.job) && e.job in r1.jobs
             && See(r1.jobs[e.job]) == See(t[e.job])
             && forall k :: k in r1.jobs ==> ReplayedJob(r1.jobs[k])
    ensures Records(r, e, queues, t)
  {
    ReplayKeepsLists(r, e, queues);
    RecordedSeen(r.jobs, ReplayOne(r, e, queues).value.jobs, jobs, t, e.job);
  }

  lemma {:induction false} RecordedSeen(shown: map<JobId, Job>, next: map<JobId, Job>, jobs: map<JobId, Job>, t: map<JobId, Job>, j: JobId)
    requires shown.Keys == jobs.Keys && forall k :: k in jobs ==> See(shown[k]) == See(jobs[k])
    requires SeenAlike(jobs, t, j) && SeenAlike(shown, next, j)
    requires j in t && j in next && See(next[j]) == See(t[j])
    ensures next.Keys == t.Keys && forall k :: k in t ==> See(next[k]) == See(t[k])
  {
    forall k | k in t && k != j
      ensures k in next && See(next[k]) == See(t[k])
    {
      assert k in jobs && See(shown[k]) == See(jobs[k]);
    }
  }

  /** A record that replaces one job. */
  lemma {:induction false} RecordedAt(r: Replayed, e: Event, queues: map<QueueId, Queue>, jobs: map<JobId, Job>, t: map<JobId, Job>, job: Job)
    requires Mirrors(r, jobs) && SeenAlike(jobs, t, e.job) && e.job in t
    requires ReplayOne(r, e, queues).Some? && ReplayOne(r, e, queues).value.jobs == r.jobs[e.job := job]
    requires See(job) == See(t[e.job]) && ReplayedJob(job)
    ensures Records(r, e, queues, t)
  {
    hide ReplayOne, Filed;
    Recorded(r, e, queues, jobs, t);
  }

  lemma {:induction false} NewRecorded(r: Replayed, queues: map<QueueId, Queue>, jobs: map<JobId, Job>, t: map<JobId, Job>, j: JobId, rec: NewRec)
    requires Mirrors(r, jobs) && SeenAlike(jobs, t, j) && j !in jobs && j in t
    requires rec.queue in queues && See(t[j]) == See(Allocated(rec))
    ensures Records(r, EvNew(j, rec), queues, t)
  {
    RecordedAt(r, EvNew(j, rec), queues, jobs, t, Allocated(rec));
  }

  lemma {:induction false} StartRecorded(r: Replayed, queues: map<QueueId, Queue>, jobs: map<JobId, Job>, t: map<JobId, Job>, j: JobId,
                      now: int, cpus: int, model: string, plan: seq<HostId>)
    requires HostsLogged(plan)
    requires Mirrors(r, jobs) && SeenAlike(jobs, t, j) && j in jobs && j in t && now != 0
    requires jobs[j].list == OnPend && |plan| == jobs[j].nhosts && jobs[j].queue in queues
    requires forall h :: h in plan ==> h in queues[jobs[j].queue].members
    requires See(t[j]) == See(jobs[j].(state := Running, list := OnRun, dispatchTime := now, runHosts := plan))
    ensures Records(r, EvStart(j, now, jobs[j].nhosts, cpus, model, N.HostsText(plan)), queues, t)
  {
    var e := EvStart(j, now, jobs[j].nhosts, cpus, model, N.HostsText(plan));
    assert See(r.jobs[j]) == See(jobs[j]) && ReplayedJob(r.jobs[j]);
    assert StartedOn(r.jobs[j], e) == plan;
    hide N.HostsText, N.Words, N.HostsNamed, Filed, Mirrors, SeenAlike;
    assert forall i :: 0 <= i < |plan| ==> plan[i] in queues[jobs[j].queue].members;
    RecordedAt(r, e, queues, jobs, t,
               r.jobs[j].(state := Running, dispatchTime := now, runHosts := plan, list := OnRun));
  }

  lemma {:induction false} ForkRecorded(r: Replayed, queues: map<QueueId, Queue>, jobs: map<JobId, Job>, t: map<JobId, Job>, j: JobId,
                     now: int, pid: int)
    requires Mirrors(r, jobs) && SeenAlike(jobs, t, j) && j in jobs && j in t
    requires See(t[j]) == See(jobs[j].(pid := pid, forkTime := now))
    ensures Records(r, EvFork(j, now, pid), queues, t)
  {
    assert See(r.jobs[j]) == See(jobs[j]) && ReplayedJob(r.jobs[j]);
    RecordedAt(r, EvFork(j, now, pid), queues, jobs, t, r.jobs[j].(pid := pid, forkTime := now));
  }

  lemma {:induction false} FinishReplayed(r: Replayed, queues: map<QueueId, Queue>, j: JobId, uid: nat, state: JobState, exit: int, now: int)
    requires j in r.jobs && r.jobs[j].list != OnFinish
    requires forall k :: k in r.jobs ==> ReplayedJob(r.jobs[k])
    ensures var e := EvFinish(j, uid, state, exit, now);
            && ReplayOne(r, e, queues).Some?
            && var r1 := ReplayOne(r, e, queues).value;
               && SeenAlike(r.jobs, r1.jobs, j) && j in r1.jobs
               && See(r1.jobs[j]) == See(r.jobs[j].(state := state, exitStatus := exit, uid := uid, endTime := now, list := OnFinish))
               && forall k :: k in r1.jobs ==> ReplayedJob(r1.jobs[k])
  {
    var done := r.jobs[j].(state := state, exitStatus := exit, uid := uid, endTime := now, list := OnFinish);
    ElementSeen(r.jobs[j := done], done.tag.id);
  }

  lemma {:induction false} FinishRecorded(r: Replayed, queues: map<QueueId, Queue>, jobs: map<JobId, Job>, t: map<JobId, Job>, j: JobId,
                       state: JobState, exit: int, now: int)
    requires Mirrors(r, jobs) && SeenAlike(jobs, t, j) && j in jobs && j in t && jobs[j].list != OnFinish
    requires See(t[j]) == See(jobs[j].(state := state, exitStatus := exit, endTime := now, list := OnFinish))
    ensures Records(r, EvFinish(j, jobs[j].uid, state, exit, now), queues, t)
  {
    assert See(r.jobs[j]) == See(jobs[j]);
    FinishReplayed(r, queues, j, jobs[j].uid, state, exit, now);
    Recorded(r, EvFinish(j, jobs[j].uid, state, exit, now), queues, jobs, t);
  }

  lemma {:induction false} PendRecorded(r: Replayed, queues: map<QueueId, Queue>, jobs: map<JobId, Job>, t: map<JobId, Job>, j: JobId, now: int)
    requires Mirrors(r, jobs) && SeenAlike(jobs, t, j) && j in jobs && j in t && jobs[j].list == OnRun
    requires See(t[j]) == See(jobs[j].(pid := 0, forkTime := 0, dispatchTime := 0, state := Pending, list := OnPend))
    ensures Records(r, EvPend(j, now), queues, t)
  {
    assert See(r.jobs[j]) == See(jobs[j]) && ReplayedJob(r.jobs[j]);
    RecordedAt(r, EvPend(j, now), queues, jobs, t,
               r.jobs[j].(pid := 0, forkTime := 0, dispatchTime := 0, state := Pending, runHosts := [], list := OnPend));
  }

  lemma {:induction false} HeldRecorded(r: Replayed, queues: map<QueueId, Queue>, jobs: map<JobId, Job>, t: map<JobId, Job>, j: JobId,
                     hold: bool, now: int)
    requires Mirrors(r, jobs) && SeenAlike(jobs, t, j) && j in jobs && j in t
    requires jobs[j].state == (if hold then Pending else Held)
    requires See(t[j]) == See(jobs[j].(state := if hold then Held else Pending))
    ensures Records(r, if hold then EvPendSusp(j, now) else EvPendResume(j, now), queues, t)
  {
    assert See(r.jobs[j]) == See(jobs[j]) && ReplayedJob(r.jobs[j]);
    if hold {
      RecordedAt(r, EvPendSusp(j, now), queues, jobs, t, r.jobs[j].(state := Held));
    } else {
      RecordedAt(r, EvPendResume(j, now), queues, jobs, t, r.jobs[j].(state := Pending));
    }
  }

  lemma {:induction false} MoveRecorded(r: Replayed, queues: map<QueueId, Queue>, jobs: map<JobId, Job>, t: map<JobId, Job>, j: JobId,
                     now: int, to: QueueId)
    requires Mirrors(r, jobs) && SeenAlike(jobs, t, j) && j in jobs && j in t && to in queues
    requires See(t[j]) == See(jobs[j].(queue := to))
    ensures Records(r, EvMove(j, now, jobs[j].queue, to), queues, t)
  {
    assert See(r.jobs[j]) == See(jobs[j]) && ReplayedJob(r.jobs[j]);
    RecordedAt(r, EvMove(j, now, jobs[j].queue, to), queues, jobs, t, r.jobs[j].(queue := to));
  }

  lemma {:induction false} PriorityRecorded(r: Replayed, queues: map<QueueId, Queue>, jobs: map<JobId, Job>, t: map<JobId, Job>, j: JobId,
                         now: int, priority: int)
    requires Mirrors(r, jobs) && SeenAlike(jobs, t, j) && j in jobs && j in t
    requires See(t[j]) == See(jobs[j].(priority := priority))
    ensures Records(r, EvPriority(j, now, jobs[j].priority, priority), queues, t)
  {
    assert See(r.jobs[j]) == See(jobs[j]) && ReplayedJob(r.jobs[j]);
    RecordedAt(r, EvPriority(j, now, jobs[j].priority, priority), queues, jobs, t, r.jobs[j].(priority := priority));
  }

  // -------------------------------------------------------------------
  // Handlers append
  // -------------------------------------------------------------------

  /** One record more, perhaps behind the signal that caused it. */
  predicate Extends(log: seq<Event>, next: seq<Event>, e: Event) {
    || next == log + [e]
    || (|next| == |log| + 2 && next[|log|].EvSignal? && next == log + [next[|log|], e])
  }

  lemma {:induction false} ReplayExtends(log: seq<Event>, next: seq<Event>, e: Event, queues: map<QueueId, Queue>)
    requires Extends(log, next, e) && Replay(log, queues).Some?
    ensures Replay(next, queues) == ReplayOne(Replay(log, queues).value, e, queues)
  {
    if next == log + [e] {
      ReplaySnoc(log, e, queues);
    } else {
      var s := next[|log|];
      ReplaySnoc(log, s, queues);
      assert next == (log + [s]) + [e];
      ReplaySnoc(log + [s], e, queues);
    }
  }

  lemma {:induction false} Appended(m: Tables, t: Tables, e: Event)
    requires Mirrored(m) && SameConfig(m.queues, t.queues) && Extends(m.manifest, t.manifest, e)
    requires Records(Replay(m.manifest, m.queues).value, e, m.queues, t.jobs)
    ensures Mirrored(t)
  {
    ReplayExtends(m.manifest, t.manifest, e, m.queues);
    ReplayConfig(t.manifest, m.queues, t.queues);
  }

  lemma {:induction false} AdjustSeen(jobs: map<JobId, Job>, deps: seq<D.Instr>, delta: int)
    ensures AdjustRefs(jobs, deps, delta).Keys == jobs.Keys
    ensures forall j :: j in jobs ==> See(AdjustRefs(jobs, deps, delta)[j]) == See(jobs[j])
    ensures forall j :: j in jobs ==> AdjustRefs(jobs, deps, delta)[j] == jobs[j].(depRefcnt := AdjustRefs(jobs, deps, delta)[j].depRefcnt)
  {
  }

  lemma {:induction false} ElementSeen(jobs: map<JobId, Job>, head: JobId)
    ensures ElementFinished(jobs, head).Keys == jobs.Keys
    ensures forall j :: j in jobs ==> See(ElementFinished(jobs, head)[j]) == See(jobs[j])
    ensures forall j :: j in jobs ==> ElementFinished(jobs, head)[j] == jobs[j].(elementCnt := ElementFinished(jobs, head)[j].elementCnt)
  {
  }

  /** t is m but for job j and, elsewhere, the reference counters. */
  ghost predicate Edit(m: Tables, t: Tables, j: JobId) {
    && SameConfig(m.queues, t.queues) && j in t.jobs
    && (forall k :: k != j ==> (k in m.jobs <==> k in t.jobs))
    && (forall k :: k in t.jobs && k != j ==>
          t.jobs[k] == m.jobs[k].(depRefcnt := t.jobs[k].depRefcnt, elementCnt := t.jobs[k].elementCnt))
  }

  lemma {:induction false} EditSeen(m: Tables, t: Tables, j: JobId)
    requires Edit(m, t, j)
    ensures SeenAlike(m.jobs, t.jobs, j)
  {
  }

  lemma {:induction false} EditSound(m: Tables, t: Tables, j: JobId)
    requires Edit(m, t, j) && JobsSound(m.jobs, m.queues) && JobSound(t.jobs[j], t.queues)
    ensures JobsSound(t.jobs, t.queues)
  {
    forall k | k in t.jobs && k != j
      ensures JobSound(t.jobs[k], t.queues)
    {
      assert JobSound(m.jobs[k], m.queues);
    }
  }

  /** A handler that edits one job and appends one record. */
  lemma {:induction false} Logged(m: Tables, t: Tables, j: JobId, e: Event)
    requires ManifestOk(m) && ListsOk(t) && Edit(m, t, j) && JobSound(t.jobs[j], t.queues)
    requires Extends(m.manifest, t.manifest, e)
    requires Records(Replay(m.manifest, m.queues).value, e, m.queues, t.jobs)
    ensures ManifestOk(t)
  {
    EditSound(m, t, j);
    Appended(m, t, e);
  }

  lemma {:induction false} NewLogged(m: Tables, t: Tables, j: JobId, rec: NewRec)
    requires ManifestOk(m) && ListsOk(t) && Edit(m, t, j) && JobSound(t.jobs[j], t.queues)
    requires Extends(m.manifest, t.manifest, EvNew(j, rec))
    requires j !in m.jobs && rec.queue in m.queues && See(t.jobs[j]) == See(Allocated(rec))
    ensures ManifestOk(t)
  {
    EditSeen(m, t, j);
    NewRecorded(Replay(m.manifest, m.queues).value, m.queues, m.jobs, t.jobs, j, rec);
    Logged(m, t, j, EvNew(j, rec));
  }

  lemma {:induction false} StartLogged(m: Tables, t: Tables, j: JobId, now: int, cpus: int, model: string, plan: seq<HostId>)
    requires HostsLogged(plan)
    requires ManifestOk(m) && ListsOk(t) && Edit(m, t, j) && JobSound(t.jobs[j], t.queues)
    requires OnList(m, j, OnPend) && now != 0 && |plan| == m.jobs[j].nhosts
    requires forall h :: h in plan ==> h in m.queues[m.jobs[j].queue].members
    requires Extends(m.manifest, t.manifest, EvStart(j, now, m.jobs[j].nhosts, cpus, model, N.HostsText(plan)))
    requires See(t.jobs[j]) == See(m.jobs[j].(state := Running, list := OnRun, dispatchTime := now, runHosts := plan))
    ensures ManifestOk(t)
  {
    EditSeen(m, t, j);
    StartRecorded(Replay(m.manifest, m.queues).value, m.queues, m.jobs, t.jobs, j, now, cpus, model, plan);
    Logged(m, t, j, EvStart(j, now, m.jobs[j].nhosts, cpus, model, N.HostsText(plan)));
  }

  lemma {:induction false} ForkLogged(m: Tables, t: Tables, j: JobId, now: int, pid: int)
    requires ManifestOk(m) && ListsOk(t) && Edit(m, t, j) && JobSound(t.jobs[j], t.queues)
    requires j in m.jobs && Extends(m.manifest, t.manifest, EvFork(j, now, pid))
    requires See(t.jobs[j]) == See(m.jobs[j].(pid := pid, forkTime := now))
    ensures ManifestOk(t)
  {
    EditSeen(m, t, j);
    ForkRecorded(Replay(m.manifest, m.queues).value, m.queues, m.jobs, t.jobs, j, now, pid);
    Logged(m, t, j, EvFork(j, now, pid));
  }

  lemma {:induction false} FinishLogged(m: Tables, t: Tables, j: JobId, state: JobState, exit: int, now: int)
    requires ManifestOk(m) && ListsOk(t) && Edit(m, t, j) && JobSound(t.jobs[j], t.queues)
    requires j in m.jobs && m.jobs[j].list != OnFinish
    requires Extends(m.manifest, t.manifest, EvFinish(j, m.jobs[j].uid, state, exit, now))
    requires See(t.jobs[j]) == See(m.jobs[j].(state := state, exitStatus := exit, endTime := now, list := OnFinish))
    ensures ManifestOk(t)
  {
    EditSeen(m, t, j);
    FinishRecorded(Replay(m.manifest, m.queues).value, m.queues, m.jobs, t.jobs, j, state, exit, now);
    Logged(m, t, j, EvFinish(j, m.jobs[j].uid, state, exit, now));
  }

  lemma {:induction false} PendLogged(m: Tables, t: Tables, j: JobId, now: int)
    requires ManifestOk(m) && ListsOk(t) && Edit(m, t, j) && JobSound(t.jobs[j], t.queues)
    requires OnList(m, j, OnRun) && Extends(m.manifest, t.manifest, EvPend(j, now))
    requires See(t.jobs[j])
             == See(m.jobs[j].(pid := 0, forkTime := 0, dispatchTime := 0, state := Pending, list := OnPend))
    ensures ManifestOk(t)
  {
    EditSeen(m, t, j);
    PendRecorded(Replay(m.manifest, m.queues).value, m.queues, m.jobs, t.jobs, j, now);
    Logged(m, t, j, EvPend(j, now));
  }

  lemma {:induction false} HeldLogged(m: Tables, t: Tables, j: JobId, hold: bool, now: int)
    requires ManifestOk(m) && ListsOk(t) && Edit(m, t, j) && JobSound(t.jobs[j], t.queues)
    requires j in m.jobs && m.jobs[j].state == (if hold then Pending else Held)
    requires Extends(m.manifest, t.manifest, if hold then EvPendSusp(j, now) else EvPendResume(j, now))
    requires See(t.jobs[j]) == See(m.jobs[j].(state := if hold then Held else Pending))
    ensures ManifestOk(t)
  {
    EditSeen(m, t, j);
    HeldRecorded(Replay(m.manifest, m.queues).value, m.queues, m.jobs, t.jobs, j, hold, now);
    Logged(m, t, j, if hold then EvPendSusp(j, now) else EvPendResume(j, now));
  }

  lemma {:induction false} MoveLogged(m: Tables, t: Tables, j: JobId, now: int, to: QueueId)
    requires ManifestOk(m) && ListsOk(t) && Edit(m, t, j) && JobSound(t.jobs[j], t.queues)
    requires j in m.jobs && to in m.queues && Extends(m.manifest, t.manifest, EvMove(j, now, m.jobs[j].queue, to))
    requires See(t.jobs[j]) == See(m.jobs[j].(queue := to))
    ensures ManifestOk(t)
  {
    EditSeen(m, t, j);
    MoveRecorded(Replay(m.manifest, m.queues).value, m.queues, m.jobs, t.jobs, j, now, to);
    Logged(m, t, j, EvMove(j, now, m.jobs[j].queue, to));
  }

  lemma {:induction false} PriorityLogged(m: Tables, t: Tables, j: JobId, now: int, priority: int)
    requires ManifestOk(m) && ListsOk(t) && Edit(m, t, j) && JobSound(t.jobs[j], t.queues)
    requires j in m.jobs && Extends(m.manifest, t.manifest, EvPriority(j, now, m.jobs[j].priority, priority))
    requires See(t.jobs[j]) == See(m.jobs[j].(priority := priority))
    ensures ManifestOk(t)
  {
    EditSeen(m, t, j);
    PriorityRecorded(Replay(m.manifest, m.queues).value, m.queues, m.jobs, t.jobs, j, now, priority);
    Logged(m, t, j, EvPriority(j, now, m.jobs[j].priority, priority));
  }

  /** A signal record changes nothing. */
  lemma {:induction false} SignalLogged(m: Tables, j: JobId, now: int, sig: Sig)
    requires ManifestOk(m)
    ensures ManifestOk(SignalRunning(m, j, sig, now))
  {
    ReplaySnoc(m.manifest, EvSignal(j, now, sig), m.queues);
  }
}
