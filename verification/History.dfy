/**
 What the steps of a run say about a job, written down beside the tables: who
 asked for what, where it was sent, how it ended.  The tables never say
 anything else, through compactions and restarts, and lose no job that has
 not ended.
 */
module History {
  import opened Mbd
  import opened JobLists
  import opened Manifest
  import opened Compaction
  import opened AccountingSteps
  import opened AccountingRestart
  import opened MbdSafety
  import N = Names

  datatype Start = Start(time: int, plan: seq<HostId>)

  datatype Forked = Forked(time: int, pid: int)

  datatype How = Succeeded | Failed | Killed

  datatype End = End(time: int, how: How, exit: int)

  /** The nth job of a request, as the steps since have left it.  reread: the
      daemon has started again since it was submitted. */
  datatype Entry = Entry(
    ask: Request,
    nth: nat,
    head: JobId,
    submitted: int,
    queue: QueueId,
    priority: int,
    held: bool,
    started: Option<Start>,
    forked: Option<Forked>,
    ended: Option<End>,
    reread: bool)

  type Book = map<JobId, Entry>

  /** What a step says.  Of the tables it takes the last id and the priority of
      the queue a request names. */
  function Enter(book: Book, m: Tables, step: Step, now: int): Book
    requires Enabled(m, step, now)
  {
    match step
    case DoSubmit(req) =>
      book + (map j: JobId | m.lastId < j <= m.lastId + Elements(req) :: NewEntry(m, req, now, j))
    case DoRestart => map j | j in book :: book[j].(reread := true)
    case DoFailSubmit(_) => book
    case DoMark(_) => book
    case DoCompact => book
    case DoSignal(_, _) => book
    case _ => if step.j in book then book[step.j := Said(book[step.j], step, now)] else book
  }

  function NewEntry(m: Tables, req: Request, now: int, j: JobId): Entry
    requires m.lastId < j && req.queue in m.queues
  {
    Entry(req, j - m.lastId - 1, m.lastId + 1, now, req.queue, m.queues[req.queue].priority, req.hold,
          None, None, None, false)
  }

  /** What a step says about its own job. */
  function Said(e: Entry, step: Step, now: int): Entry {
    match step
    case DoDispatch(_, plan) => e.(started := Some(Start(now, plan)))
    case DoFork(_, pid) => e.(forked := Some(Forked(now, pid)))
    case DoReject(_) => e.(started := None, forked := None)
    case DoMissing(_) => e.(started := None, forked := None)
    case DoFinish(_, success, exit) => e.(ended := Some(End(now, if success then Succeeded else Failed, exit)))
    case DoKill(_, _) => e.(ended := Some(End(now, Killed, 0)))
    case DoHold(_, _) => e.(held := true)
    case DoResume(_, _) => e.(held := false)
    case DoMove(_, to) => e.(queue := to)
    case DoPriority(_, priority) => e.(priority := priority)
    case _ => e
  }

  // -------------------------------------------------------------------
  // What the tables say
  // -------------------------------------------------------------------

  /** What was asked for, and the strings as far as they are kept. */
  predicate AsksAs(job: Job, e: Entry) {
    && job.uid == e.ask.uid && job.submitTime == e.submitted
    && job.beginTime == e.ask.beginTime && job.termTime == e.ask.termTime
    && job.cpus == e.ask.cpus && job.mem == e.ask.mem && job.storage == e.ask.storage
    && job.exclusive == e.ask.exclusive && job.deps == e.ask.deps
    && job.nhosts == (if |e.ask.machines| > 0 then |e.ask.machines| else if e.ask.nhosts < 1 then 1 else e.ask.nhosts)
    && job.tag == (if e.ask.isArray
                   then ArrayTag(e.head, e.ask.start + e.nth * e.ask.stride, e.ask.start, e.ask.end, e.ask.stride)
                   else ArrayTag(0, 0, 0, 0, 0))
    && (if e.reread then job.tokens == [] else job.tokens == e.ask.tokens && job.machines == e.ask.machines)
    && WordsAs(job.words, e.ask.words)
  }

  predicate WordsAs(w: Words, ask: Words) {
    && w.gid == ask.gid && w.flags == ask.flags && w.project == ask.project && w.depend == ask.depend
    && w.gpuModel == ask.gpuModel
    && w.user == (if |ask.user| < 64 then ask.user else ask.user[..63])
    && w.name == (if ask.name == "" then "-" else if |ask.name| < 64 then ask.name else ask.name[..63])
  }

  /** What has become of it. */
  predicate GoesAs(job: Job, e: Entry) {
    && job.queue == e.queue && job.priority == e.priority
    && job.dispatchTime == (if e.started.Some? then e.started.value.time else 0)
    && (e.started.Some? ==> !e.held && e.started.value.time != 0 && job.runHosts == e.started.value.plan)
    && job.forkTime == (if e.forked.Some? then e.forked.value.time else 0)
    && job.pid == (if e.forked.Some? then e.forked.value.pid else 0)
    && (if e.ended.Some?
        then && job.list == OnFinish && job.endTime == e.ended.value.time && job.exitStatus == e.ended.value.exit
             && job.state == if e.ended.value.how == Succeeded then Done else Exited
        else && job.endTime == 0 && job.exitStatus == 0
             && if e.started.Some? then job.list == OnRun && job.state == Running
                else job.list == OnPend && job.state == if e.held then Held else Pending)
  }

  predicate Agrees(job: Job, e: Entry) {
    AsksAs(job, e) && GoesAs(job, e)
  }

  /** Every job is as the book has it, and only ended jobs are no longer there. */
  ghost predicate Told(m: Tables, book: Book) {
    && (forall j :: j in m.jobs ==> j in book && Agrees(m.jobs[j], book[j]))
    && (forall j :: j in book ==> 0 < j <= m.savedId)
    && (forall j :: j in book && j !in m.jobs ==> book[j].ended.Some?)
  }

  // -------------------------------------------------------------------
  // One step
  // -------------------------------------------------------------------

  predicate Alike(a: Job, b: Job) {
    b == a.(depRefcnt := b.depRefcnt, elementCnt := b.elementCnt)
  }

  lemma {:induction false} AlikeTrans(a: Job, b: Job, c: Job)
    requires Alike(a, b) && Alike(b, c)
    ensures Alike(a, c)
  {
  }

  lemma {:induction false} AlikeAgrees(a: Job, b: Job, e: Entry)
    requires Alike(a, b) && Agrees(a, e)
    ensures Agrees(b, e)
  {
  }

  lemma {:induction false} DispatchSpares(m: Tables, step: Step, now: int, k: JobId)
    requires Enabled(m, step, now) && OfDispatch(step) && k in m.jobs && k != step.j
    ensures var t := Next(m, step, now); k in t.jobs && Alike(m.jobs[k], t.jobs[k])
  {
    hide ReleaseAll, ChargeAll, MoveTokens, Without, Refs;
  }

  lemma {:induction false} PendingSpares(m: Tables, step: Step, now: int, k: JobId)
    requires Enabled(m, step, now) && OfPending(step) && k in m.jobs && k != step.j
    ensures var t := Next(m, step, now); k in t.jobs && Alike(m.jobs[k], t.jobs[k])
  {
    hide Without, Refs, LoggedWords, SetHeld, Kill, Move;
    if step.DoHold? || step.DoResume? {
      HoldLeaves(m, step.j, step.DoHold?, step.sig, now);
    } else if step.DoKill? {
      KillLeaves(m, step.j, step.sig, now);
    } else if step.DoMove? {
      MoveLeaves(m, step.j, step.to, now);
    }
  }

  /** The record of a step's own job, as the step leaves it. */
  function Left(job: Job, step: Step, now: int): Job {
    match step
    case DoDispatch(_, plan) => job.(state := Running, list := OnRun, dispatchTime := now, runHosts := plan)
    case DoFork(_, pid) => job.(pid := pid, forkTime := now, state := Running)
    case DoReject(_) => job.(pid := 0, forkTime := 0, dispatchTime := 0, state := Pending, list := OnPend, runHosts := [])
    case DoMissing(_) => job.(pid := 0, forkTime := 0, dispatchTime := 0, state := Pending, list := OnPend)
    case DoFinish(_, success, exit) =>
      job.(endTime := now, exitStatus := exit, list := OnFinish, state := if success then Done else Exited)
    case DoKill(_, _) => job.(endTime := now, state := Exited, list := OnFinish)
    case DoHold(_, _) => job.(state := Held)
    case DoResume(_, _) => job.(state := Pending)
    case DoMove(_, to) => job.(queue := to)
    case DoPriority(_, priority) => job.(priority := priority)
    case _ => job
  }

  lemma {:induction false} DispatchLeaves(m: Tables, step: Step, now: int)
    requires Enabled(m, step, now) && OfDispatch(step) && step.j in m.jobs
    ensures step.j in Next(m, step, now).jobs && Alike(Left(m.jobs[step.j], step, now), Next(m, step, now).jobs[step.j])
  {
    hide ReleaseAll, ChargeAll, MoveTokens, Without, Refs, LoggedWords;
  }

  lemma {:induction false} PendingLeaves(m: Tables, step: Step, now: int)
    requires Enabled(m, step, now) && OfPending(step) && step.j in m.jobs
    ensures step.j in Next(m, step, now).jobs && Alike(Left(m.jobs[step.j], step, now), Next(m, step, now).jobs[step.j])
  {
    hide Without, Refs, LoggedWords, SetHeld, Kill, Move;
    if step.DoHold? || step.DoResume? {
      HoldLeaves(m, step.j, step.DoHold?, step.sig, now);
    } else if step.DoKill? {
      KillLeaves(m, step.j, step.sig, now);
    } else if step.DoMove? {
      MoveLeaves(m, step.j, step.to, now);
    }
  }

  lemma {:induction false} HoldLeaves(m: Tables, j: JobId, hold: bool, sig: Sig, now: int)
    requires j in m.jobs && m.jobs[j].queue in m.queues
    ensures SetHeld(m, j, hold, sig, now).jobs == m.jobs[j := m.jobs[j].(state := if hold then Held else Pending)]
    ensures SetHeld(m, j, hold, sig, now).queues.Keys == m.queues.Keys
  {
  }

  lemma {:induction false} MoveLeaves(m: Tables, j: JobId, to: QueueId, now: int)
    requires j in m.jobs && m.jobs[j].queue in m.queues && to in m.queues
    ensures Move(m, j, to, now).jobs == m.jobs[j := m.jobs[j].(queue := to)]
  {
  }

  lemma {:induction false} KillLeaves(m: Tables, j: JobId, sig: Sig, now: int)
    requires j in m.jobs && m.jobs[j].queue in m.queues
    ensures var t := Kill(m, j, sig, now);
            && t.queues.Keys == m.queues.Keys && t.jobs.Keys == m.jobs.Keys
            && Alike(m.jobs[j].(endTime := now, state := Exited, list := OnFinish), t.jobs[j])
            && forall k :: k in m.jobs && k != j ==> Alike(m.jobs[k], t.jobs[k])
  {
    hide Without, Refs;
  }

  /** What the step may assume of its job. */
  predicate Fitting(job: Job, step: Step) {
    match step
    case DoDispatch(_, _) => job.list == OnPend && job.state == Pending
    case DoFork(_, _) => job.list == OnRun && job.forkTime == 0
    case DoReject(_) => job.list == OnRun
    case DoMissing(_) => job.list == OnRun
    case DoFinish(_, _, _) => job.list == OnRun
    case DoKill(_, _) => job.list == OnPend
    case DoHold(_, _) => job.list == OnPend
    case DoResume(_, _) => job.list == OnPend
    case _ => true
  }

  lemma {:induction false} LeftAgrees(job: Job, step: Step, now: int, e: Entry)
    requires Agrees(job, e) && Fitting(job, step) && now > 0
    ensures Agrees(Left(job, step, now), Said(e, step, now))
  {
  }

  lemma {:induction false} StepFits(m: Tables, step: Step, now: int)
    requires Enabled(m, step, now) && (OfDispatch(step) || OfPending(step))
    ensures now > 0 && step.j in m.jobs && Fitting(m.jobs[step.j], step)
  {
  }

  lemma {:induction false} EntersOne(book: Book, m: Tables, step: Step, now: int)
    requires Enabled(m, step, now) && (OfDispatch(step) || OfPending(step)) && step.j in book
    ensures Enter(book, m, step, now) == book[step.j := Said(book[step.j], step, now)]
  {
  }

  lemma {:induction false} OneTold(m: Tables, t: Tables, book: Book, x: JobId, e: Entry)
    requires Told(m, book) && x in m.jobs && t.jobs.Keys == m.jobs.Keys && t.savedId == m.savedId
    requires forall k :: k in m.jobs && k != x ==> Alike(m.jobs[k], t.jobs[k])
    requires Agrees(t.jobs[x], e)
    ensures Told(t, book[x := e])
  {
    hide Alike, Agrees;
    forall k | k in t.jobs && k != x
      ensures Agrees(t.jobs[k], book[k])
    {
      AlikeAgrees(m.jobs[k], t.jobs[k], book[k]);
    }
  }

  lemma {:induction false} SameKeys(m: Tables, step: Step, now: int)
    requires Enabled(m, step, now) && (OfDispatch(step) || OfPending(step))
    ensures Next(m, step, now).jobs.Keys == m.jobs.Keys && Next(m, step, now).savedId == m.savedId
  {
    hide Next, Enabled;
    SameIds(m, step, now);
  }

  /** The step has left its job as it says, and the others as they were. */
  ghost predicate LeftBy(m: Tables, t: Tables, step: Step, now: int)
    requires OfDispatch(step) || OfPending(step)
  {
    && step.j in m.jobs && t.jobs.Keys == m.jobs.Keys && t.savedId == m.savedId
    && Alike(Left(m.jobs[step.j], step, now), t.jobs[step.j])
    && forall k :: k in m.jobs && k != step.j ==> Alike(m.jobs[k], t.jobs[k])
  }

  lemma {:induction false} StepLeaves(m: Tables, step: Step, now: int)
    requires Enabled(m, step, now) && (OfDispatch(step) || OfPending(step))
    ensures LeftBy(m, Next(m, step, now), step, now)
  {
    hide Next, Enabled, Left, Alike, Fitting;
    StepFits(m, step, now);
    SameKeys(m, step, now);
    if OfDispatch(step) { DispatchLeaves(m, step, now); } else { PendingLeaves(m, step, now); }
    forall k | k in m.jobs && k != step.j
      ensures Alike(m.jobs[k], Next(m, step, now).jobs[k])
    {
      if OfDispatch(step) { DispatchSpares(m, step, now, k); } else { PendingSpares(m, step, now, k); }
    }
  }

  lemma {:induction false} ToldBy(m: Tables, t: Tables, step: Step, now: int, book: Book)
    requires Told(m, book) && (OfDispatch(step) || OfPending(step)) && LeftBy(m, t, step, now)
    requires Fitting(m.jobs[step.j], step) && now > 0
    ensures step.j in book && Told(t, book[step.j := Said(book[step.j], step, now)])
  {
    hide Agrees, Left, Said, Alike, Fitting;
    var x := step.j;
    LeftAgrees(m.jobs[x], step, now, book[x]);
    AlikeAgrees(Left(m.jobs[x], step, now), t.jobs[x], Said(book[x], step, now));
    OneTold(m, t, book, x, Said(book[x], step, now));
  }

  lemma {:induction false} OneJobTold(m: Tables, step: Step, now: int, book: Book)
    requires Told(m, book) && Enabled(m, step, now) && (OfDispatch(step) || OfPending(step))
    ensures Told(Next(m, step, now), Enter(book, m, step, now))
  {
    hide Next, Enabled, Enter, Told, Said, Fitting, LeftBy;
    StepFits(m, step, now);
    StepLeaves(m, step, now);
    ToldBy(m, Next(m, step, now), step, now, book);
    EntersOne(book, m, step, now);
  }

  // -------------------------------------------------------------------
  // Submission
  // -------------------------------------------------------------------

  /** k of the request's jobs are in, everybody else is as before. */
  ghost predicate Entered(m: Tables, t: Tables, req: Request, priority: int, ids: seq<JobId>, k: nat, now: int) {
    && k <= |ids| && req.queue in t.queues && t.queues[req.queue].priority == priority
    && (forall j :: j in t.jobs <==> j in m.jobs || j in ids[..k])
    && (forall j :: j in m.jobs ==> Alike(m.jobs[j], t.jobs[j]))
    && (forall i :: 0 <= i < k ==> ids[i] in t.jobs && Alike(Prepared(req, priority, ids[0], i, |ids|, now), t.jobs[ids[i]]))
  }

  lemma {:induction false} CommitAlike(t: Tables, id: JobId, job: Job, nhosts: int, j: JobId)
    requires job.queue in t.queues
    ensures var u := Commit(t, id, job, nhosts);
            && (j in u.jobs <==> j == id || j in t.jobs)
            && (j in u.jobs ==> Alike(if j == id then job else t.jobs[j], u.jobs[j]))
            && job.queue in u.queues && u.queues[job.queue].priority == t.queues[job.queue].priority
  {
    hide LoggedWords, Refs;
  }

  lemma {:induction false} EnteredMore(m: Tables, t: Tables, u: Tables, req: Request, priority: int, ids: seq<JobId>, k: nat, now: int, job: Job)
    requires Entered(m, t, req, priority, ids, k, now) && k < |ids| && NoDup(ids) && forall i :: 0 <= i < |ids| ==> ids[i] !in m.jobs
    requires job == Prepared(req, priority, ids[0], k, |ids|, now)
    requires req.queue in u.queues && u.queues[req.queue].priority == priority
    requires forall j :: j in u.jobs <==> j == ids[k] || j in t.jobs
    requires forall j :: j in u.jobs ==> Alike(if j == ids[k] then job else t.jobs[j], u.jobs[j])
    ensures Entered(m, u, req, priority, ids, k + 1, now)
  {
    hide Prepared, Alike;
    assert ids[..k + 1] == ids[..k] + [ids[k]] && ids[k] !in ids[..k];
    forall i | 0 <= i < k + 1
      ensures ids[i] in u.jobs && Alike(Prepared(req, priority, ids[0], i, |ids|, now), u.jobs[ids[i]])
    {
      if i < k {
        assert ids[i] != ids[k] && ids[i] in t.jobs;
        AlikeTrans(Prepared(req, priority, ids[0], i, |ids|, now), t.jobs[ids[i]], u.jobs[ids[i]]);
      }
    }
    forall j | j in m.jobs
      ensures Alike(m.jobs[j], u.jobs[j])
    {
      assert j != ids[k] && j in t.jobs;
      AlikeTrans(m.jobs[j], t.jobs[j], u.jobs[j]);
    }
  }

  lemma {:induction false} EnteredOne(m: Tables, t: Tables, req: Request, priority: int, ids: seq<JobId>, k: nat, now: int)
    requires Entered(m, t, req, priority, ids, k, now) && k < |ids| && NoDup(ids) && forall i :: 0 <= i < |ids| ==> ids[i] !in m.jobs
    ensures Entered(m, CommitNth(t, req, ids, k, now), req, priority, ids, k + 1, now)
  {
    var job := Prepared(req, priority, ids[0], k, |ids|, now);
    assert job.queue == req.queue;
    hide Commit, Prepared;
    var u := CommitNth(t, req, ids, k, now);
    CommitAlike(t, ids[k], job, req.nhosts, 0);
    forall j: JobId
      ensures (j in u.jobs <==> j == ids[k] || j in t.jobs)
      ensures j in u.jobs ==> Alike(if j == ids[k] then job else t.jobs[j], u.jobs[j])
    {
      CommitAlike(t, ids[k], job, req.nhosts, j);
    }
    hide CommitNth;
    EnteredMore(m, t, u, req, priority, ids, k, now, job);
  }

  lemma {:induction false} EnteredQueue(m: Tables, t: Tables, req: Request, priority: int, ids: seq<JobId>, k: nat, now: int)
    requires Entered(m, t, req, priority, ids, k, now)
    ensures req.queue in t.queues
  {
  }

  lemma {:induction false} SubmitEnters(m: Tables, req: Request, now: int)
    requires GoodRequest(m, req) && forall j :: j in m.jobs ==> j <= m.lastId
    ensures var ids := DrawIds(m.jobs, m.lastId, Elements(req));
            && Entered(m, Submit(m, req, now), req, m.queues[req.queue].priority, ids, |ids|, now)
            && Submit(m, req, now).savedId == m.lastId + Elements(req)
            && (forall i :: 0 <= i < |ids| ==> ids[i] == m.lastId + 1 + i)
  {
    var ids := DrawIds(m.jobs, m.lastId, Elements(req));
    var priority := m.queues[req.queue].priority;
    IdsConsecutive(m.jobs, m.lastId, Elements(req));
    StartEntering(m, req, priority, ids, now);
    assert Submit(m, req, now).jobs == CommitRest(m, req, ids, |ids|, now).jobs;
    assert Submit(m, req, now).queues == CommitRest(m, req, ids, |ids|, now).queues;
    hide DrawIds, CommitNth, Submit, Entered;
    var Q := (t: Tables, k: nat) => Entered(m, t, req, priority, ids, k, now);
    forall t: Tables, k: nat
      ensures Q(t, k) ==> req.queue in t.queues
      ensures Q(t, k) && k < |ids| ==> Q(CommitNth(t, req, ids, k, now), k + 1)
    {
      if Q(t, k) {
        EnteredQueue(m, t, req, priority, ids, k, now);
        if k < |ids| { EnteredOne(m, t, req, priority, ids, k, now); }
      }
    }
    CommitLoop(Q, m, req, ids, |ids|, now);
    EnteredIgnoresIds(m, CommitRest(m, req, ids, |ids|, now), Submit(m, req, now), req, priority, ids, now);
  }

  lemma {:induction false} StartEntering(m: Tables, req: Request, priority: int, ids: seq<JobId>, now: int)
    requires req.queue in m.queues && m.queues[req.queue].priority == priority
    ensures Entered(m, m, req, priority, ids, 0, now)
  {
  }

  lemma {:induction false} EnteredIgnoresIds(m: Tables, t: Tables, u: Tables, req: Request, priority: int, ids: seq<JobId>, now: int)
    requires Entered(m, t, req, priority, ids, |ids|, now) && u.jobs == t.jobs && u.queues == t.queues
    ensures Entered(m, u, req, priority, ids, |ids|, now)
  {
    hide Prepared, Alike;
  }

  lemma {:induction false} PreparedAgrees(req: Request, priority: int, head: JobId, k: nat, count: nat, now: int, job: Job)
    requires Alike(Prepared(req, priority, head, k, count, now), job)
    ensures Agrees(job, Entry(req, k, head, now, req.queue, priority, req.hold, None, None, None, false))
  {
  }

  lemma {:induction false} SubmitTold(m: Tables, req: Request, now: int, book: Book)
    requires Told(m, book) && Enabled(m, DoSubmit(req), now) && m.savedId <= m.lastId
    ensures Told(Next(m, DoSubmit(req), now), Enter(book, m, DoSubmit(req), now))
  {
    hide Submit, Enter, Next, DrawIds, Enabled, Entered, NewEntry, Told;
    EntersMany(book, m, req, now);
    var ids := DrawIds(m.jobs, m.lastId, Elements(req));
    SubmitEnters(m, req, now);
    ManyTold(m, Submit(m, req, now), req, ids, now, book, Enter(book, m, DoSubmit(req), now));
  }

  lemma {:induction false} EntersMany(book: Book, m: Tables, req: Request, now: int)
    requires Enabled(m, DoSubmit(req), now) && Told(m, book) && m.savedId <= m.lastId
    ensures GoodRequest(m, req) && Next(m, DoSubmit(req), now) == Submit(m, req, now)
    ensures forall j :: j in m.jobs ==> j <= m.lastId
    ensures Enter(book, m, DoSubmit(req), now)
            == book + (map j: JobId | m.lastId < j <= m.lastId + Elements(req) :: NewEntry(m, req, now, j))
  {
    hide Submit, Agrees;
  }

  lemma {:induction false} ManyTold(m: Tables, t: Tables, req: Request, ids: seq<JobId>, now: int, book: Book, after: Book)
    requires Told(m, book) && m.savedId <= m.lastId && req.queue in m.queues && |ids| > 0
    requires Entered(m, t, req, m.queues[req.queue].priority, ids, |ids|, now) && t.savedId == m.lastId + |ids|
    requires forall i :: 0 <= i < |ids| ==> ids[i] == m.lastId + 1 + i
    requires after == book + (map j: JobId | m.lastId < j <= m.lastId + |ids| :: NewEntry(m, req, now, j))
    ensures Told(t, after)
  {
    hide Prepared, Agrees, Alike;
    assert ids[..|ids|] == ids;
    forall j | j in t.jobs
      ensures j in after && Agrees(t.jobs[j], after[j])
    {
      if j in m.jobs {
        assert j <= m.savedId && Alike(m.jobs[j], t.jobs[j]) && after[j] == book[j];
        AlikeAgrees(m.jobs[j], t.jobs[j], book[j]);
      } else {
        var i :| 0 <= i < |ids| && ids[i] == j;
        assert after[j] == NewEntry(m, req, now, j);
        PreparedAgrees(req, m.queues[req.queue].priority, ids[0], i, |ids|, now, t.jobs[j]);
      }
    }
    forall j: JobId | m.lastId < j <= m.lastId + |ids|
      ensures j in t.jobs
    {
      assert ids[j - m.lastId - 1] == j;
    }
  }

  // -------------------------------------------------------------------
  // Compaction and restart
  // -------------------------------------------------------------------

  lemma {:induction false} CompactTold(m: Tables, book: Book)
    requires Told(m, book)
    ensures Told(Compact(m), book)
  {
    hide RewriteAll, Keep, AsksAs;
    forall j | j in book && j !in Compact(m).jobs
      ensures book[j].ended.Some?
    {
      if j in m.jobs { assert m.jobs[j].list == OnFinish && GoesAs(m.jobs[j], book[j]); }
    }
  }

  lemma {:induction false} SeenAgrees(a: Job, b: Job, e: Entry)
    requires See(a) == See(b) && b.tokens == [] && Agrees(a, e)
    ensures Agrees(b, e.(reread := true))
  {
  }

  lemma {:induction false} TokensForgotten(m: Tables, j: JobId)
    requires ManifestOk(m) && Replay(m.manifest, m.queues).Some? && j in Restart(m, Replay(m.manifest, m.queues).value).jobs
    ensures Restart(m, Replay(m.manifest, m.queues).value).jobs[j].tokens == []
  {
    var r := Replay(m.manifest, m.queues).value;
    RestartJobs(m, r);
    assert Mirrors(r, m.jobs);
    hide Replay, Restart, See;
    assert ReplayedJob(r.jobs[j]);
  }

  lemma {:induction false} RestartTold(m: Tables, now: int, book: Book)
    requires Told(m, book) && ManifestOk(m) && Enabled(m, DoRestart, now)
    ensures Told(Next(m, DoRestart, now), Enter(book, m, DoRestart, now))
  {
    hide Replay, Restart, ManifestOk, See, Agrees, Next, Enabled;
    RestartMirrors(m);
    var t := Restart(m, Replay(m.manifest, m.queues).value);
    RestartIsNext(m, now);
    forall j | j in t.jobs
      ensures Agrees(t.jobs[j], book[j].(reread := true))
    {
      TokensForgotten(m, j);
      SeenAgrees(m.jobs[j], t.jobs[j], book[j]);
    }
  }

  lemma {:induction false} RestartIsNext(m: Tables, now: int)
    requires Enabled(m, DoRestart, now) && Replay(m.manifest, m.queues).Some?
    ensures Next(m, DoRestart, now) == Restart(m, Replay(m.manifest, m.queues).value)
    ensures Next(m, DoRestart, now).savedId == m.savedId
  {
    hide Replay, RebuildElements, RebuildHosts, RebuildQueues, RebuildRefs, MaxId;
  }

  lemma {:induction false} StepTold(m: Tables, step: Step, now: int, book: Book)
    requires Told(m, book) && Enabled(m, step, now) && IdsOk(m) && (step.DoRestart? ==> ManifestOk(m))
    ensures Told(Next(m, step, now), Enter(book, m, step, now))
  {
    if OfDispatch(step) || OfPending(step) {
      OneJobTold(m, step, now, book);
    } else {
      match step
      case DoSubmit(req) => SubmitTold(m, req, now, book);
      case DoFailSubmit(_) =>
      case DoMark(_) =>
      case DoCompact => CompactTold(m, book);
      case DoRestart => RestartTold(m, now, book);
    }
  }

  // -------------------------------------------------------------------
  // Every run
  // -------------------------------------------------------------------

  /** What the first i steps of a run say. */
  function BookOf(tr: seq<Tables>, steps: seq<Step>, clock: seq<int>, i: nat): Book
    requires IsRun(tr, steps, clock) && i <= |steps|
  {
    if i == 0 then map[] else Enter(BookOf(tr, steps, clock, i - 1), tr[i - 1], steps[i - 1], clock[i - 1])
  }

  lemma {:induction false} BookStep(tr: seq<Tables>, steps: seq<Step>, clock: seq<int>, i: nat)
    requires IsRun(tr, steps, clock) && i < |steps|
    ensures Enabled(tr[i], steps[i], clock[i]) && tr[i + 1] == Next(tr[i], steps[i], clock[i])
    ensures BookOf(tr, steps, clock, i + 1) == Enter(BookOf(tr, steps, clock, i), tr[i], steps[i], clock[i])
  {
    hide Enabled, Next, Enter;
  }

  /** Either the daemon never starts again, or its log holds what it is given. */
  predicate Remembers(steps: seq<Step>) {
    || (forall k :: 0 <= k < |steps| ==> !steps[k].DoRestart?)
    || (forall k :: 0 <= k < |steps| ==> Proper(steps[k]))
  }

  lemma {:induction false} RunIds(tr: seq<Tables>, steps: seq<Step>, clock: seq<int>, i: nat)
    requires IsRun(tr, steps, clock) && i < |tr| && Remembers(steps)
    ensures IdsOk(tr[i]) && (i < |steps| && steps[i].DoRestart? ==> ManifestOk(tr[i]))
  {
    if forall k :: 0 <= k < |steps| ==> Proper(steps[k]) {
      RunInv(tr, steps, clock, i);
    } else if i > 0 {
      RunIds(tr, steps, clock, i - 1);
      StepKeepsIds(tr[i - 1], steps[i - 1], clock[i - 1]);
    }
  }

  /** In every state of every run, every job of the tables is what the steps
      have said about it, and every job they speak of is there until it ends. */
  lemma {:induction false} RunTells(tr: seq<Tables>, steps: seq<Step>, clock: seq<int>, i: nat)
    requires IsRun(tr, steps, clock) && i < |tr| && Remembers(steps)
    ensures Told(tr[i], BookOf(tr, steps, clock, i))
  {
    if i > 0 {
      RunTells(tr, steps, clock, i - 1);
      RunIds(tr, steps, clock, i - 1);
      StepTold(tr[i - 1], steps[i - 1], clock[i - 1], BookOf(tr, steps, clock, i - 1));
    }
  }

  // -------------------------------------------------------------------
  // The lists
  // -------------------------------------------------------------------

  lemma {:induction false} QuietLists(m: Tables, t: Tables)
    requires ListsOk(m) && t.pend == m.pend && t.run == m.run && t.fin == m.fin && SameLists(m.jobs, t.jobs)
    ensures ListsOk(t)
  {
    SameListsFiled(m.jobs, t.jobs, m.pend, m.run, m.fin);
  }

  lemma {:induction false} SubmitLists(m: Tables, req: Request, now: int)
    requires ListsOk(m) && GoodRequest(m, req) && forall j :: j in m.jobs ==> j <= m.lastId
    ensures ListsOk(Submit(m, req, now))
  {
    var ids := DrawIds(m.jobs, m.lastId, Elements(req));
    IdsConsecutive(m.jobs, m.lastId, Elements(req));
    hide DrawIds, ListsOk, CommitNth;
    var Q := (t: Tables, k: nat) => req.queue in t.queues && ListsOk(t) && forall j :: j in t.jobs ==> j <= m.lastId + k;
    forall t: Tables, k: nat | Q(t, k) && k < |ids|
      ensures Q(CommitNth(t, req, ids, k, now), k + 1)
    {
      CommitTurnLists(t, req, ids, k, now, m.lastId);
    }
    CommitLoop(Q, m, req, ids, |ids|, now);
    assert ListsOk(CommitRest(m, req, ids, |ids|, now));
    ListsIgnoreIds(CommitRest(m, req, ids, |ids|, now), Submit(m, req, now));
  }

  lemma {:induction false} ListsIgnoreIds(m: Tables, t: Tables)
    requires ListsOk(m) && t == m.(lastId := t.lastId, savedId := t.savedId)
    ensures ListsOk(t)
  {
  }

  lemma {:induction false} CommitTurnLists(t: Tables, req: Request, ids: seq<JobId>, k: nat, now: int, last: nat)
    requires req.queue in t.queues && ListsOk(t) && k < |ids| && ids[k] == last + 1 + k
    requires forall j :: j in t.jobs ==> j <= last + k
    ensures var u := CommitNth(t, req, ids, k, now);
            req.queue in u.queues && ListsOk(u) && forall j :: j in u.jobs ==> j <= last + k + 1
  {
    CommitKeepsLists(t, ids[k], Prepared(req, t.queues[req.queue].priority, ids[0], k, |ids|, now), req.nhosts);
    hide ListsOk, Refs, LoggedWords, KeptWords;
  }

  lemma {:induction false} DispatchStepLists(m: Tables, step: Step, now: int)
    requires ListsOk(m) && Enabled(m, step, now) && OfDispatch(step)
    ensures ListsOk(Next(m, step, now))
  {
    hide Dispatch, BackToPend, Finish, ListsOk;
    match step
    case DoDispatch(j, plan) => DispatchKeepsLists(m, j, plan, now);
    case DoReject(j) => BackKeepsLists(m, j, [], now);
    case DoMissing(j) => BackKeepsLists(m, j, m.jobs[j].runHosts, now);
    case DoFinish(j, success, exit) => FinishKeepsLists(m, j, success, exit, now);
    case DoFork(_, _) => QuietLists(m, Next(m, step, now));
    case DoSignal(_, _) => QuietLists(m, Next(m, step, now));
  }

  lemma {:induction false} PendingStepLists(m: Tables, step: Step, now: int)
    requires ListsOk(m) && Enabled(m, step, now) && OfPending(step)
    ensures ListsOk(Next(m, step, now))
  {
    hide Kill, ListsOk;
    if step.DoKill? { KillKeepsLists(m, step.j, step.sig, now); } else { QuietLists(m, Next(m, step, now)); }
  }

  lemma {:induction false} StepLists(m: Tables, step: Step, now: int)
    requires ListsOk(m) && Enabled(m, step, now) && IdsOk(m) && (step.DoRestart? ==> ManifestOk(m))
    ensures ListsOk(Next(m, step, now))
  {
    if OfDispatch(step) {
      DispatchStepLists(m, step, now);
    } else if OfPending(step) {
      PendingStepLists(m, step, now);
    } else {
      hide ListsOk, Submit, Compact, Restart, Replay;
      match step
      case DoSubmit(req) => SubmitLists(m, req, now);
      case DoFailSubmit(_) => ListsIgnoreIds(m, Next(m, step, now));
      case DoMark(_) => QuietLists(m, Next(m, step, now));
      case DoCompact => CompactKeepsLists(m);
      case DoRestart => RestartMirrors(m);
    }
  }

  lemma {:induction false} RunLists(tr: seq<Tables>, steps: seq<Step>, clock: seq<int>, i: nat)
    requires IsRun(tr, steps, clock) && i < |tr| && Remembers(steps)
    ensures ListsOk(tr[i])
  {
    if i > 0 {
      RunLists(tr, steps, clock, i - 1);
      RunIds(tr, steps, clock, i - 1);
      StepLists(tr[i - 1], steps[i - 1], clock[i - 1]);
    }
  }

  // -------------------------------------------------------------------
  // The queues
  // -------------------------------------------------------------------

  lemma {:induction false} SubmitQueues(m: Tables, req: Request, now: int)
    requires GoodRequest(m, req)
    ensures Submit(m, req, now).queues.Keys == m.queues.Keys
  {
    var ids := DrawIds(m.jobs, m.lastId, Elements(req));
    var Q := (t: Tables, k: nat) => t.queues.Keys == m.queues.Keys && req.queue in t.queues;
    hide Prepared, NewEvent, AdjustRefs, DrawIds;
    CommitLoop(Q, m, req, ids, |ids|, now);
  }

  lemma {:induction false} StepQueues(m: Tables, step: Step, now: int)
    requires Enabled(m, step, now)
    ensures Next(m, step, now).queues.Keys == m.queues.Keys
  {
    hide ChargeAll, ReleaseAll, MoveTokens, Without, AdjustRefs, LoggedWords, CommitRest, Replay, RebuildQueues, N.HostsText;
    match step
    case DoSubmit(req) => SubmitQueues(m, req, now);
    case DoRestart =>
      var r := Replay(m.manifest, m.queues);
      if r.Some? { RebuildQueuesConfig(FreshQueues(m.queues), r.value.pend + r.value.run, r.value.jobs); }
    case _ =>
  }

  /** Every job is in a queue that is configured. */
  lemma {:induction false} RunQueues(tr: seq<Tables>, steps: seq<Step>, clock: seq<int>, i: nat)
    requires IsRun(tr, steps, clock) && i < |tr| && Remembers(steps)
    ensures forall j :: j in BookOf(tr, steps, clock, i) ==> BookOf(tr, steps, clock, i)[j].queue in tr[i].queues
    ensures forall j :: j in tr[i].jobs ==> tr[i].jobs[j].queue in tr[i].queues
  {
    if i > 0 {
      RunQueues(tr, steps, clock, i - 1);
      StepQueues(tr[i - 1], steps[i - 1], clock[i - 1]);
      QueueEntered(BookOf(tr, steps, clock, i - 1), tr[i - 1], steps[i - 1], clock[i - 1]);
    }
    RunTells(tr, steps, clock, i);
  }

  lemma {:induction false} QueueEntered(book: Book, m: Tables, step: Step, now: int)
    requires Enabled(m, step, now) && forall j :: j in book ==> book[j].queue in m.queues
    ensures forall j :: j in Enter(book, m, step, now) ==> Enter(book, m, step, now)[j].queue in m.queues
  {
  }
}
