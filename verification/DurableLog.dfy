/**
 The manifest file shows the live job table: in every state of every run,
 reading the text back and replaying it gives the jobs there are, exactly as
 long as every record fits its fields and its line.
 */
module DurableLog {
  import opened Mbd
  import opened JobLists
  import opened Manifest
  import opened ManifestSteps
  import opened AccountingSteps
  import opened MbdSafety
  import opened ManifestText
  import F = LogFormat
  import H = History
  import L = LogFile
  import N = Names

  // -------------------------------------------------------------------
  // What a step writes
  // -------------------------------------------------------------------

  /** The JOB_NEW lines of a submission. */
  function NewEvents(req: Request, priority: int, ids: seq<JobId>, now: int): seq<Event>
    requires ids != []
  {
    seq(|ids|, k requires 0 <= k < |ids| => NewEvent(ids[k], Prepared(req, priority, ids[0], k, |ids|, now), req.nhosts))
  }

  function PendingAppends(m: Tables, step: Step, now: int): seq<Event>
    requires Enabled(m, step, now) && OfPending(step)
  {
    match step
    case DoKill(j, sig) => [EvSignal(j, now, sig), EvFinish(j, m.jobs[j].uid, Exited, m.jobs[j].exitStatus, now)]
    case DoHold(j, sig) => [EvSignal(j, now, sig), EvPendSusp(j, now)]
    case DoResume(j, sig) => [EvSignal(j, now, sig), EvPendResume(j, now)]
    case DoMove(j, to) => [EvMove(j, now, m.jobs[j].queue, to)]
    case DoPriority(j, priority) => [EvPriority(j, now, m.jobs[j].priority, priority)]
  }

  function DispatchAppends(m: Tables, step: Step, now: int): seq<Event>
    requires Enabled(m, step, now) && OfDispatch(step)
  {
    match step
    case DoDispatch(j, plan) => [StartOn(j, m.jobs[j].(dispatchTime := now), plan)]
    case DoFork(j, pid) => [EvFork(j, now, pid)]
    case DoReject(j) => [EvPend(j, now)]
    case DoMissing(j) => [EvPend(j, now)]
    case DoFinish(j, success, exit) => [EvFinish(j, m.jobs[j].uid, if success then Done else Exited, exit, now)]
    case DoSignal(j, sig) => [EvSignal(j, now, sig)]
  }

  /** What a step appends to the log; compaction starts a new one with it. */
  function Appends(m: Tables, step: Step, now: int): seq<Event>
    requires Enabled(m, step, now)
  {
    if OfDispatch(step) then DispatchAppends(m, step, now)
    else if OfPending(step) then PendingAppends(m, step, now)
    else if step.DoSubmit? then
      NewEvents(step.req, m.queues[step.req.queue].priority, DrawIds(m.jobs, m.lastId, Elements(step.req)), now)
    else if step.DoCompact? then RewriteAll(m.pend + m.run + Keep(m.fin, m.jobs), m.jobs)
    else []
  }

  lemma {:induction false} DispatchAppended(m: Tables, step: Step, now: int)
    requires Enabled(m, step, now) && OfDispatch(step)
    ensures Next(m, step, now).manifest == m.manifest + DispatchAppends(m, step, now)
  {
  }

  lemma {:induction false} PendingAppended(m: Tables, step: Step, now: int)
    requires Enabled(m, step, now) && OfPending(step)
    ensures Next(m, step, now).manifest == m.manifest + PendingAppends(m, step, now)
  {
  }

  lemma {:induction false} SubmitAppended(m: Tables, req: Request, now: int)
    requires GoodRequest(m, req)
    ensures var ids := DrawIds(m.jobs, m.lastId, Elements(req));
            Submit(m, req, now).manifest == m.manifest + NewEvents(req, m.queues[req.queue].priority, ids, now)
  {
    var ids := DrawIds(m.jobs, m.lastId, Elements(req));
    var priority := m.queues[req.queue].priority;
    var news := NewEvents(req, priority, ids, now);
    var P := (t: Tables, k: nat) =>
      k <= |ids| && req.queue in t.queues && t.queues[req.queue].priority == priority && t.manifest == m.manifest + news[..k];
    forall t: Tables, k: nat | P(t, k) && k < |ids|
      ensures P(CommitNth(t, req, ids, k, now), k + 1)
    {
      assert news[..k + 1] == news[..k] + [news[k]];
      CommitAppends(t, req, ids, k, now);
    }
    CommitLoop(P, m, req, ids, |ids|, now);
    assert news[..|ids|] == news;
  }

  lemma {:induction false} CommitAppends(t: Tables, req: Request, ids: seq<JobId>, k: nat, now: int)
    requires k < |ids| && req.queue in t.queues
    ensures var priority := t.queues[req.queue].priority;
            var u := CommitNth(t, req, ids, k, now);
            && u.manifest == t.manifest + [NewEvent(ids[k], Prepared(req, priority, ids[0], k, |ids|, now), req.nhosts)]
            && req.queue in u.queues && u.queues[req.queue].priority == priority
  {
    hide LoggedWords, KeptWords, AdjustRefs;
  }

  lemma {:induction false} Appended(m: Tables, step: Step, now: int)
    requires Enabled(m, step, now)
    ensures Next(m, step, now).manifest == (if step.DoCompact? then [] else m.manifest) + Appends(m, step, now)
  {
    if OfDispatch(step) {
      DispatchAppended(m, step, now);
    } else if OfPending(step) {
      PendingAppended(m, step, now);
    } else if step.DoSubmit? {
      SubmitAppended(m, step.req, now);
    }
  }

  // -------------------------------------------------------------------
  // Strings keep their meaning
  // -------------------------------------------------------------------

  predicate JobMeant(job: Job, groups: Groups) {
    && job.machinesText == Machines(groups, N.Cut(job.words.machines, 1024))
    && job.deps == DepsOf(job.words.depend) && Parses(job.words.depend) && |job.words.depend| < 4096
    && job.exclusive == ExclusiveBit(job.words.flags)
  }

  ghost predicate JobsMeant(jobs: map<JobId, Job>, groups: Groups) {
    forall j :: j in jobs ==> JobMeant(jobs[j], groups)
  }

  /** A request's fields are what its strings say. */
  predicate RequestMeant(req: Request, groups: Groups) {
    && req.machines == Machines(groups, req.words.machines)
    && req.logged == Machines(groups, N.Cut(req.words.machines, 1024))
    && req.deps == DepsOf(req.words.depend) && Parses(req.words.depend)
    && req.exclusive == ExclusiveBit(req.words.flags)
  }

  lemma {:induction false} NothingNamed(groups: Groups)
    ensures Machines(groups, "") == []
  {
    assert N.Words("") == [];
  }

  predicate SameWords(a: Job, b: Job) {
    a.machinesText == b.machinesText && a.words == b.words && a.deps == b.deps && a.exclusive == b.exclusive
  }

  lemma {:induction false} StepWords(m: Tables, step: Step, now: int, j: JobId)
    requires Enabled(m, step, now) && (OfDispatch(step) || OfPending(step)) && j in Next(m, step, now).jobs
    ensures j in m.jobs && SameWords(Next(m, step, now).jobs[j], m.jobs[j])
  {
    if OfDispatch(step) { DispatchWords(m, step, now, j); } else { PendingWords(m, step, now, j); }
  }

  lemma {:induction false} DispatchWords(m: Tables, step: Step, now: int, j: JobId)
    requires Enabled(m, step, now) && OfDispatch(step) && j in Next(m, step, now).jobs
    ensures j in m.jobs && SameWords(Next(m, step, now).jobs[j], m.jobs[j])
  {
    hide ReleaseAll, ChargeAll, MoveTokens, Without, N.HostsText, Refs;
  }

  lemma {:induction false} PendingWords(m: Tables, step: Step, now: int, j: JobId)
    requires Enabled(m, step, now) && OfPending(step) && j in Next(m, step, now).jobs
    ensures j in m.jobs && SameWords(Next(m, step, now).jobs[j], m.jobs[j])
  {
    SameIds(m, step, now);
    hide Next, Enabled;
    if j == step.j { H.PendingLeaves(m, step, now); } else { H.PendingSpares(m, step, now, j); }
  }

  lemma {:induction false} NewMeant(j: JobId, job: Job, nhosts: int, groups: Groups)
    requires JobMeant(job, groups)
    ensures EventMeant(NewEvent(j, job, nhosts), groups)
  {
    hide Machines, DepsOf, Parses, ExclusiveBit;
  }

  lemma {:induction false} PreparedMeant(req: Request, priority: int, head: JobId, k: nat, count: nat, now: int, groups: Groups)
    requires RequestMeant(req, groups) && WireWords(req.words)
    ensures JobMeant(Prepared(req, priority, head, k, count, now), groups)
  {
    hide Machines, DepsOf, Parses, ExclusiveBit;
  }

  lemma {:induction false} NewsMeant(req: Request, priority: int, ids: seq<JobId>, now: int, groups: Groups)
    requires RequestMeant(req, groups) && WireWords(req.words) && ids != []
    ensures LogMeant(NewEvents(req, priority, ids, now), groups)
  {
    hide Prepared, NewEvent, EventMeant;
    forall k | 0 <= k < |ids|
      ensures EventMeant(NewEvents(req, priority, ids, now)[k], groups)
    {
      PreparedMeant(req, priority, ids[0], k, |ids|, now, groups);
      NewMeant(ids[k], Prepared(req, priority, ids[0], k, |ids|, now), req.nhosts, groups);
    }
  }

  lemma {:induction false} RewrittenMeant(ids: seq<JobId>, jobs: map<JobId, Job>, groups: Groups)
    requires JobsMeant(jobs, groups)
    ensures LogMeant(RewriteAll(ids, jobs), groups)
  {
    hide JobMeant, EventMeant;
    if ids != [] {
      var n := |ids| - 1;
      RewrittenMeant(ids[..n], jobs, groups);
      if ids[n] in jobs { OneRewrittenMeant(ids[n], jobs[ids[n]], groups); }
    }
  }

  lemma {:induction false} OneRewrittenMeant(j: JobId, job: Job, groups: Groups)
    requires JobMeant(job, groups)
    ensures LogMeant(Rewritten(j, job), groups)
  {
    hide Meant, JobMeant;
    NewMeant(j, job, job.nhosts, groups);
  }

  lemma {:induction false} AppendsMeant(m: Tables, step: Step, now: int, groups: Groups)
    requires Enabled(m, step, now) && JobsMeant(m.jobs, groups) && (step.DoSubmit? ==> RequestMeant(step.req, groups))
    ensures LogMeant(Appends(m, step, now), groups)
  {
    hide JobMeant, Meant, RequestMeant;
    if OfDispatch(step) || OfPending(step) {
    } else if step.DoSubmit? {
      NewsMeant(step.req, m.queues[step.req.queue].priority, DrawIds(m.jobs, m.lastId, Elements(step.req)), now, groups);
    } else if step.DoCompact? {
      RewrittenMeant(m.pend + m.run + Keep(m.fin, m.jobs), m.jobs, groups);
    }
  }

  // Jobs

  lemma {:induction false} CommitTurnMeant(t: Tables, req: Request, ids: seq<JobId>, k: nat, now: int, groups: Groups)
    requires JobsMeant(t.jobs, groups) && req.queue in t.queues && k < |ids| && RequestMeant(req, groups) && WireWords(req.words)
    ensures JobsMeant(CommitNth(t, req, ids, k, now).jobs, groups) && req.queue in CommitNth(t, req, ids, k, now).queues
  {
    var job := Prepared(req, t.queues[req.queue].priority, ids[0], k, |ids|, now);
    PreparedMeant(req, t.queues[req.queue].priority, ids[0], k, |ids|, now, groups);
    hide Prepared, RequestMeant, Machines, DepsOf, Parses, ExclusiveBit, LoggedWords, Refs;
    var u := CommitNth(t, req, ids, k, now);
    forall j | j in u.jobs
      ensures JobMeant(u.jobs[j], groups)
    {
      assert SameWords(u.jobs[j], if j == ids[k] then job else t.jobs[j]);
    }
  }

  lemma {:induction false} SubmitMeant(m: Tables, req: Request, now: int, groups: Groups)
    requires JobsMeant(m.jobs, groups) && GoodRequest(m, req) && RequestMeant(req, groups)
    ensures JobsMeant(Submit(m, req, now).jobs, groups)
  {
    hide JobsMeant, RequestMeant, CommitNth;
    var ids := DrawIds(m.jobs, m.lastId, Elements(req));
    var P := (t: Tables, k: nat) => JobsMeant(t.jobs, groups) && req.queue in t.queues;
    forall t: Tables, k: nat | P(t, k) && k < |ids|
      ensures P(CommitNth(t, req, ids, k, now), k + 1)
    {
      CommitTurnMeant(t, req, ids, k, now, groups);
    }
    CommitLoop(P, m, req, ids, |ids|, now);
  }

  lemma {:induction false} AllocatedMeant(rec: NewRec, groups: Groups)
    requires Meant(rec, groups) && |rec.words.depend| < 4096
    ensures JobMeant(Allocated(rec), groups)
  {
    NothingNamed(groups);
    hide Machines, DepsOf, Parses, ExclusiveBit;
  }

  /** The field of the log that carries a condition. */
  ghost predicate LogShort(log: seq<Event>) {
    forall i :: 0 <= i < |log| && log[i].EvNew? ==> |log[i].rec.words.depend| < 4096
  }

  lemma {:induction false} OneReplayedMeant(r: Replayed, e: Event, queues: map<QueueId, Queue>, groups: Groups)
    requires JobsMeant(r.jobs, groups) && EventMeant(e, groups) && (e.EvNew? ==> |e.rec.words.depend| < 4096)
    ensures var t := ReplayOne(r, e, queues); t.Some? ==> JobsMeant(t.value.jobs, groups)
  {
    if e.EvNew? { AllocatedMeant(e.rec, groups); }
    hide Machines, DepsOf, Parses, ExclusiveBit, Meant, Allocated, ReplayOne;
    var t := ReplayOne(r, e, queues);
    if t.Some? {
      forall j | j in t.value.jobs
        ensures JobMeant(t.value.jobs[j], groups)
      {
        OneReplayedWords(r, e, queues, j);
      }
    }
  }

  lemma {:induction false} OneReplayedWords(r: Replayed, e: Event, queues: map<QueueId, Queue>, j: JobId)
    requires ReplayOne(r, e, queues).Some? && j in ReplayOne(r, e, queues).value.jobs
    ensures if e.EvNew? && j == e.job then ReplayOne(r, e, queues).value.jobs[j] == Allocated(e.rec)
            else j in r.jobs && SameWords(ReplayOne(r, e, queues).value.jobs[j], r.jobs[j])
  {
    hide Allocated, Without, StartedOn;
  }

  lemma {:induction false} ReplayedMeant(log: seq<Event>, queues: map<QueueId, Queue>, groups: Groups)
    requires LogMeant(log, groups) && LogShort(log)
    ensures var r := Replay(log, queues); r.Some? ==> JobsMeant(r.value.jobs, groups)
  {
    hide JobMeant, EventMeant, ReplayOne;
    if log != [] {
      var n := |log| - 1;
      ReplayedMeant(log[..n], queues, groups);
      var r := Replay(log[..n], queues);
      if r.Some? { OneReplayedMeant(r.value, log[n], queues, groups); }
    }
  }

  lemma {:induction false} RebuiltRefsMeant(jobs: map<JobId, Job>, pend: seq<JobId>, groups: Groups)
    requires JobsMeant(jobs, groups)
    ensures JobsMeant(RebuildRefs(jobs, pend), groups)
  {
    hide Machines, DepsOf, Parses, ExclusiveBit;
    if pend != [] { RebuiltRefsMeant(jobs, pend[..|pend| - 1], groups); }
  }

  lemma {:induction false} RebuiltElementsMeant(jobs: map<JobId, Job>, ids: seq<JobId>, groups: Groups)
    requires JobsMeant(jobs, groups)
    ensures JobsMeant(RebuildElements(jobs, ids), groups)
  {
    hide Machines, DepsOf, Parses, ExclusiveBit;
    if ids != [] { RebuiltElementsMeant(jobs, ids[..|ids| - 1], groups); }
  }

  lemma {:induction false} StepJobsMeant(m: Tables, step: Step, now: int, groups: Groups)
    requires Enabled(m, step, now) && JobsMeant(m.jobs, groups) && (step.DoSubmit? ==> RequestMeant(step.req, groups))
    requires LogMeant(m.manifest, groups) && LogShort(m.manifest)
    ensures JobsMeant(Next(m, step, now).jobs, groups)
  {
    if OfDispatch(step) || OfPending(step) {
      forall j | j in Next(m, step, now).jobs
        ensures JobMeant(Next(m, step, now).jobs[j], groups)
      {
        StepWords(m, step, now, j);
      }
    } else if step.DoSubmit? {
      SubmitMeant(m, step.req, now, groups);
    } else if step.DoRestart? {
      var r := Replay(m.manifest, m.queues);
      ReplayedMeant(m.manifest, m.queues, groups);
      if r.Some? {
        RebuiltRefsMeant(r.value.jobs, r.value.pend, groups);
        RebuiltElementsMeant(RebuildRefs(r.value.jobs, r.value.pend), r.value.pend + r.value.run, groups);
      }
    }
  }

  // -------------------------------------------------------------------
  // The file shows the table
  // -------------------------------------------------------------------

  /** The values have the types of their fields. */
  ghost predicate LogTyped(log: seq<Event>) {
    forall i :: 0 <= i < |log| ==> L.Typed(Encoded(log[i]))
  }

  ghost predicate LogFits(log: seq<Event>) {
    forall i :: 0 <= i < |log| ==> F.Fits(Encoded(log[i]))
  }

  ghost predicate PlainConfig(m: Tables) {
    forall h :: h in m.hosts ==> N.PlainName(h.name)
  }

  /** What the daemon keeps in memory beside the file, for its configuration. */
  ghost predicate Understood(m: Tables, groups: Groups) {
    JobsMeant(m.jobs, groups) && LogMeant(m.manifest, groups) && LogTyped(m.manifest) && PlainConfig(m)
  }

  /** The file reads back whole, stays readable, and replays to the live table. */
  ghost predicate LogOk(m: Tables) {
    ManifestOk(m) && L.Carries(RecordsOf(m.manifest))
  }

  lemma {:induction false} TypedShort(e: Event)
    requires L.Typed(Encoded(e)) && e.EvNew?
    ensures |e.rec.words.depend| < 4096
  {
    var r := NewRecord(e.job, e.rec);
    assert r.texts[7] == e.rec.words.depend && F.SchemaOf(F.JobNew).texts[7] == 4096;
  }

  lemma {:induction false} LogIsShort(log: seq<Event>)
    requires LogTyped(log)
    ensures LogShort(log)
  {
    hide L.Typed, Encoded;
    forall i | 0 <= i < |log| && log[i].EvNew?
      ensures |log[i].rec.words.depend| < 4096
    {
      TypedShort(log[i]);
    }
  }

  lemma {:induction false} CarriedExactly(log: seq<Event>)
    requires LogTyped(log)
    ensures L.Carries(RecordsOf(log)) <==> LogFits(log)
  {
    hide L.Typed, F.Fits, Encoded;
    L.CarriesExactly(RecordsOf(log));
    assert forall i :: 0 <= i < |log| ==> RecordsOf(log)[i] == Encoded(log[i]);
  }

  /** What the log of a state must be able to carry of a step. */
  ghost predicate StepFits(m: Tables, step: Step, now: int)
    requires Enabled(m, step, now)
  {
    (step.DoSubmit? ==> NewLoggable(step.req)) && LogFits(Appends(m, step, now))
  }

  lemma {:induction false} StartFits(j: JobId, job: Job, plan: seq<HostId>)
    requires F.Fits(Encoded(StartOn(j, job, plan))) && L.Typed(Encoded(StartOn(j, job, plan)))
    ensures |N.Join(plan)| < N.LL_BUFSIZ_4K
  {
    var r := Encoded(StartOn(j, job, plan));
    L.LineLength(r);
    hide F.Line, N.Join;
    var hosts := N.HostsText(plan);
    assert r.texts[1..] == ["", hosts] && ["", hosts][1..] == [hosts] && [hosts][1..] == [];
    assert L.TextsSize([hosts]) == |hosts| + L.TextsSize([]);
    assert L.TextsSize(["", hosts]) == 0 + L.TextsSize([hosts]);
    assert L.TextsSize(r.texts) >= |hosts|;
  }

  lemma {:induction false} PlanIsPlain(m: Tables, job: Job, plan: seq<HostId>)
    requires PlainConfig(m) && Placeable(m, job, plan)
    ensures N.PlainHosts(plan)
  {
  }

  /** What fits is loggable. */
  lemma {:induction false} FitsIsLoggable(m: Tables, step: Step, now: int)
    requires Enabled(m, step, now) && StepFits(m, step, now) && LogTyped(Appends(m, step, now)) && PlainConfig(m)
    ensures Loggable(step)
  {
    if step.DoDispatch? {
      var e := StartOn(step.j, m.jobs[step.j].(dispatchTime := now), step.plan);
      assert Appends(m, step, now)[0] == e;
      hide Encoded, L.Typed, F.Fits;
      assert F.Fits(Encoded(e)) && L.Typed(Encoded(e));
      StartFits(step.j, m.jobs[step.j].(dispatchTime := now), step.plan);
      PlanIsPlain(m, m.jobs[step.j], step.plan);
    }
  }

  ghost predicate Parts(log: seq<Event>, a: seq<Event>, b: seq<Event>) {
    log == a + b
  }

  lemma {:induction false} FitsParts(log: seq<Event>, a: seq<Event>, b: seq<Event>)
    requires Parts(log, a, b)
    ensures LogFits(log) <==> LogFits(a) && LogFits(b)
    ensures LogTyped(log) <==> LogTyped(a) && LogTyped(b)
  {
    hide Encoded, F.Fits, L.Typed;
    assert forall i :: 0 <= i < |a| ==> log[i] == a[i];
    assert forall i :: 0 <= i < |b| ==> log[|a| + i] == b[i];
  }

  lemma {:induction false} MeantParts(log: seq<Event>, a: seq<Event>, b: seq<Event>, groups: Groups)
    requires Parts(log, a, b) && LogMeant(a, groups) && LogMeant(b, groups)
    ensures LogMeant(log, groups)
  {
    hide EventMeant;
  }

  /** The configured hosts stay. */
  lemma {:induction false} ChargedNames(hosts: map<HostId, Host>, hs: seq<HostId>, job: Job)
    ensures ChargeAll(hosts, hs, job).Keys == hosts.Keys && ReleaseAll(hosts, hs, job).Keys == hosts.Keys
    decreases |hs|
  {
    if hs != [] {
      ChargedNames(hosts, hs[1..], job);
      if hs[0] in hosts {
        ChargedNames(hosts[hs[0] := Charge(hosts[hs[0]], job)], hs[1..], job);
        ChargedNames(hosts[hs[0] := Release(hosts[hs[0]], job)], hs[1..], job);
      }
    }
  }

  lemma {:induction false} RebuiltNames(hosts: map<HostId, Host>, run: seq<JobId>, jobs: map<JobId, Job>)
    ensures RebuildHosts(hosts, run, jobs).Keys == hosts.Keys
  {
    if run != [] {
      var n := |run| - 1;
      RebuiltNames(hosts, run[..n], jobs);
      if run[n] in jobs { ChargedNames(RebuildHosts(hosts, run[..n], jobs), jobs[run[n]].runHosts, jobs[run[n]]); }
    }
  }

  lemma {:induction false} SubmitNames(m: Tables, req: Request, now: int)
    requires GoodRequest(m, req)
    ensures Submit(m, req, now).hosts == m.hosts
  {
    var ids := DrawIds(m.jobs, m.lastId, Elements(req));
    var P := (t: Tables, k: nat) => t.hosts == m.hosts && req.queue in t.queues;
    hide Prepared, NewEvent, AdjustRefs;
    CommitLoop(P, m, req, ids, |ids|, now);
  }

  lemma {:induction false} StepNames(m: Tables, step: Step, now: int)
    requires Enabled(m, step, now)
    ensures Next(m, step, now).hosts.Keys == m.hosts.Keys
  {
    hide ChargeAll, ReleaseAll, RebuildHosts, CommitRest;
    match step
    case DoSubmit(req) => SubmitNames(m, req, now);
    case DoDispatch(j, plan) =>
      ChargedNames(m.hosts, plan, m.jobs[j].(state := Running, list := OnRun, dispatchTime := now, runHosts := plan));
    case DoReject(j) => ChargedNames(m.hosts, m.jobs[j].runHosts, m.jobs[j]);
    case DoMissing(j) => ChargedNames(m.hosts, m.jobs[j].runHosts, m.jobs[j]);
    case DoFinish(j, _, _) => ChargedNames(m.hosts, m.jobs[j].runHosts, m.jobs[j]);
    case DoRestart =>
      var r := Replay(m.manifest, m.queues);
      if r.Some? { RebuiltNames(FreshHosts(m.hosts), r.value.run, r.value.jobs); }
    case _ =>
  }

  /** What a step is given: a request that means what it says and asks for no
      less than no cpus, values of the types of their fields. */
  ghost predicate Given(m: Tables, step: Step, now: int, groups: Groups)
    requires Enabled(m, step, now)
  {
    (step.DoSubmit? ==> RequestMeant(step.req, groups)) && CpusAsked(step) && LogTyped(Appends(m, step, now))
  }

  lemma {:induction false} StepUnderstood(m: Tables, step: Step, now: int, groups: Groups)
    requires Understood(m, groups) && Enabled(m, step, now) && Given(m, step, now, groups)
    ensures Understood(Next(m, step, now), groups)
  {
    hide JobsMeant, LogMeant, LogTyped, Appends, Next;
    var was := if step.DoCompact? then [] else m.manifest;
    Appended(m, step, now);
    StepJobs(m, step, now, groups);
    AppendsMeant(m, step, now, groups);
    NoneMeant(groups);
    FitsParts(Next(m, step, now).manifest, was, Appends(m, step, now));
    MeantParts(Next(m, step, now).manifest, was, Appends(m, step, now), groups);
    StepNames(m, step, now);
  }

  lemma {:induction false} StepJobs(m: Tables, step: Step, now: int, groups: Groups)
    requires Understood(m, groups) && Enabled(m, step, now) && Given(m, step, now, groups)
    ensures JobsMeant(Next(m, step, now).jobs, groups)
  {
    hide JobsMeant, LogMeant, LogTyped, Appends, Next;
    LogIsShort(m.manifest);
    StepJobsMeant(m, step, now, groups);
  }

  lemma {:induction false} NoneMeant(groups: Groups)
    ensures LogMeant([], groups) && LogTyped([]) && LogFits([])
  {
  }

  lemma {:induction false} StepMirrorsExactly(m: Tables, step: Step, now: int)
    requires ManifestOk(m) && Enabled(m, step, now) && forall j :: j in m.jobs ==> j <= m.lastId
    requires step.DoDispatch? ==> Loggable(step)
    ensures ManifestOk(Next(m, step, now)) <==> (step.DoSubmit? ==> NewLoggable(step.req))
  {
    hide ManifestOk, NewLoggable;
    if step.DoSubmit? {
      SubmitMirrorsExactly(m, step.req, now);
    } else {
      StepMirrors(m, step, now);
    }
  }

  /** A step leaves a file that shows the live table exactly if every record it
      writes fits, and the log says of a new job what the daemon keeps. */
  lemma {:induction false} StepLogExactly(m: Tables, step: Step, now: int, groups: Groups)
    requires LogOk(m) && Understood(m, groups) && (forall j :: j in m.jobs ==> j <= m.lastId)
    requires Enabled(m, step, now) && Given(m, step, now, groups)
    ensures LogOk(Next(m, step, now)) <==> StepFits(m, step, now)
  {
    hide ManifestOk, LogFits, LogTyped, JobsMeant, LogMeant, Appends, Next, Enabled, L.Carries, NewLoggable;
    var t, was := Next(m, step, now), if step.DoCompact? then [] else m.manifest;
    StepUnderstood(m, step, now, groups);
    Appended(m, step, now);
    NoneMeant(groups);
    FitsParts(t.manifest, was, Appends(m, step, now));
    CarriedExactly(m.manifest);
    CarriedExactly(t.manifest);
    if LogFits(Appends(m, step, now)) && step.DoDispatch? { FitsIsLoggable(m, step, now); }
    if LogFits(Appends(m, step, now)) { StepMirrorsExactly(m, step, now); }
  }

  // -------------------------------------------------------------------
  // Every run
  // -------------------------------------------------------------------

  ghost predicate RunGiven(tr: seq<Tables>, steps: seq<Step>, clock: seq<int>, groups: Groups)
    requires IsRun(tr, steps, clock)
  {
    && PlainConfig(tr[0])
    && forall k :: 0 <= k < |steps| ==> Given(tr[k], steps[k], clock[k], groups) && StepFits(tr[k], steps[k], clock[k])
  }

  lemma {:induction false} EmptyCarries()
    ensures L.Carries(RecordsOf([]))
  {
    CarriedExactly([]);
  }

  lemma {:induction false} RunLogOk(tr: seq<Tables>, steps: seq<Step>, clock: seq<int>, groups: Groups, i: nat)
    requires IsRun(tr, steps, clock) && RunGiven(tr, steps, clock, groups) && i < |tr|
    ensures MbdInv(tr[i]) && LogOk(tr[i]) && Understood(tr[i], groups)
  {
    if i == 0 {
      InitInv(tr[0]);
      EmptyCarries();
    } else {
      var m, step, now := tr[i - 1], steps[i - 1], clock[i - 1];
      RunLogOk(tr, steps, clock, groups, i - 1);
      assert Given(m, step, now, groups) && StepFits(m, step, now);
      OneStepOk(m, step, now, groups);
    }
  }

  lemma {:induction false} OneStepOk(m: Tables, step: Step, now: int, groups: Groups)
    requires MbdInv(m) && LogOk(m) && Understood(m, groups)
    requires Enabled(m, step, now) && Given(m, step, now, groups) && StepFits(m, step, now)
    ensures MbdInv(Next(m, step, now)) && LogOk(Next(m, step, now)) && Understood(Next(m, step, now), groups)
  {
    IdsBelow(m);
    hide MbdInv, LogOk, Next, Enabled, JobsMeant, LogMeant;
    FitsIsLoggable(m, step, now);
    StepKeepsInv(m, step, now);
    StepLogExactly(m, step, now, groups);
    StepUnderstood(m, step, now, groups);
  }

  lemma {:induction false} IdsBelow(m: Tables)
    requires MbdInv(m)
    ensures forall j :: j in m.jobs ==> j <= m.lastId
  {
  }

  /** Reading the file back and replaying it gives the live table: ids, lists
      and every field the log carries. */
  lemma {:induction false} FileGivesLiveTable(tr: seq<Tables>, steps: seq<Step>, clock: seq<int>, groups: Groups, i: nat)
    requires IsRun(tr, steps, clock) && RunGiven(tr, steps, clock, groups) && i < |tr|
    ensures var m := tr[i];
            var r := ReplayText(TextOf(m.manifest), groups, m.queues);
            && r.Some? && r.value.jobs.Keys == m.jobs.Keys
            && (forall j :: j in m.jobs ==> See(r.value.jobs[j]) == See(m.jobs[j]))
            && (forall j :: j in r.value.pend <==> j in m.pend)
            && (forall j :: j in r.value.run <==> j in m.run)
            && (forall j :: j in r.value.fin <==> j in m.fin)
  {
    RunLogOk(tr, steps, clock, groups, i);
    var m := tr[i];
    TextIsReplayed(m.manifest, groups, m.queues);
    SameMembers(m, Replay(m.manifest, m.queues).value);
  }
}
