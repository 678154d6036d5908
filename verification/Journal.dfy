/**
 What every step writes to the log, from what the run has said so far and not
 from the tables: the log is a journal of the run, and of compactions.
 */
module Journal {
  import opened Mbd
  import opened JobLists
  import opened AccountingRestart
  import opened AccountingSteps
  import opened MbdSafety
  import opened History
  import N = Names

  /** The first characters that fit a field. */
  function Short(s: string, size: nat): string
    requires size > 0
  {
    if |s| < size then s else s[..size - 1]
  }

  /** The nth job of a request, as JOB_NEW has it. */
  function NewRecord(e: Entry): NewRec {
    NewRec(e.ask.uid, if e.ask.hold then Held else Pending, e.priority, e.submitted, e.ask.beginTime, e.ask.termTime,
           e.ask.cpus, e.ask.nhosts, e.ask.mem, e.ask.storage, e.ask.exclusive, e.ask.queue, e.ask.logged, e.ask.deps,
           if e.ask.isArray
           then ArrayTag(e.head, e.ask.start + e.nth * e.ask.stride, e.ask.start, e.ask.end, e.ask.stride)
           else ArrayTag(0, 0, 0, 0, 0),
           Words(e.ask.words.gid, e.ask.words.flags, Short(e.ask.words.user, 64),
                 if e.ask.words.name == "" then "-" else Short(e.ask.words.name, 64),
                 Short(e.ask.words.project, 64), Short(e.ask.words.gpuModel, 64), Short(e.ask.words.machines, 1024),
                 Short(e.ask.words.tokenpool, 256), Short(e.ask.words.depend, 4096)))
  }

  function HostsAsked(ask: Request): int {
    if |ask.machines| > 0 then |ask.machines| else if ask.nhosts < 1 then 1 else ask.nhosts
  }

  /** What a step about one job writes, the job being as e has it. */
  function Records(e: Entry, j: JobId, step: Step, now: int): seq<Event> {
    match step
    case DoDispatch(_, plan) =>
      [EvStart(j, now, HostsAsked(e.ask), e.ask.cpus, Short(e.ask.words.gpuModel, 64), N.HostsText(plan))]
    case DoFork(_, pid) => [EvFork(j, now, pid)]
    case DoReject(_) => [EvPend(j, now)]
    case DoMissing(_) => [EvPend(j, now)]
    case DoFinish(_, success, exit) => [EvFinish(j, e.ask.uid, if success then Done else Exited, exit, now)]
    case DoKill(_, sig) => [EvSignal(j, now, sig), EvFinish(j, e.ask.uid, Exited, 0, now)]
    case DoHold(_, sig) => [EvSignal(j, now, sig), EvPendSusp(j, now)]
    case DoResume(_, sig) => [EvSignal(j, now, sig), EvPendResume(j, now)]
    case DoMove(_, to) => [EvMove(j, now, e.queue, to)]
    case DoPriority(_, priority) => [EvPriority(j, now, e.priority, priority)]
    case DoSignal(_, sig) => [EvSignal(j, now, sig)]
    case _ => []
  }

  lemma {:induction false} DispatchWrites(m: Tables, step: Step, now: int, e: Entry)
    requires Enabled(m, step, now) && OfDispatch(step) && step.j in m.jobs && Agrees(m.jobs[step.j], e)
    ensures Next(m, step, now).manifest == m.manifest + Records(e, step.j, step, now)
  {
    hide ReleaseAll, ChargeAll, MoveTokens, Without, AdjustRefs, N.HostsText;
  }

  lemma {:induction false} PendingWrites(m: Tables, step: Step, now: int, e: Entry)
    requires Enabled(m, step, now) && OfPending(step) && step.j in m.jobs && Agrees(m.jobs[step.j], e)
    ensures Next(m, step, now).manifest == m.manifest + Records(e, step.j, step, now)
  {
    hide Without, AdjustRefs, ElementFinished, LoggedWords, WordsAs;
  }

  // -------------------------------------------------------------------
  // Submission
  // -------------------------------------------------------------------

  function NewRecords(m: Tables, req: Request, now: int, k: nat): seq<Event>
    requires req.queue in m.queues
  {
    seq(k, i requires 0 <= i < k => EvNew(m.lastId + 1 + i, NewRecord(NewEntry(m, req, now, m.lastId + 1 + i))))
  }

  lemma {:induction false} OneWritten(m: Tables, req: Request, now: int, i: nat, count: nat)
    requires req.queue in m.queues
    ensures NewEvent(m.lastId + 1 + i, Prepared(req, m.queues[req.queue].priority, m.lastId + 1, i, count, now), req.nhosts)
            == EvNew(m.lastId + 1 + i, NewRecord(NewEntry(m, req, now, m.lastId + 1 + i)))
  {
    assert KeptWords(req.words).name == if req.words.name == "" then "-" else Short(req.words.name, 64);
  }

  /** k of the records are written. */
  predicate Written(m: Tables, t: Tables, req: Request, now: int, k: nat)
    requires req.queue in m.queues
  {
    && req.queue in t.queues && t.queues[req.queue].priority == m.queues[req.queue].priority
    && t.manifest == m.manifest + NewRecords(m, req, now, k)
  }

  lemma {:induction false} WrittenMore(m: Tables, t: Tables, req: Request, ids: seq<JobId>, now: int, k: nat)
    requires req.queue in m.queues && Written(m, t, req, now, k) && k < |ids|
    requires forall i :: 0 <= i < |ids| ==> ids[i] == m.lastId + 1 + i
    ensures Written(m, CommitNth(t, req, ids, k, now), req, now, k + 1)
  {
    OneWritten(m, req, now, k, |ids|);
    var e := EvNew(m.lastId + 1 + k, NewRecord(NewEntry(m, req, now, m.lastId + 1 + k)));
    hide NewEvent, AdjustRefs, NewRecord, NewEntry;
    assert NewRecords(m, req, now, k + 1) == NewRecords(m, req, now, k) + [e];
    assert m.manifest + NewRecords(m, req, now, k) + [e] == m.manifest + (NewRecords(m, req, now, k) + [e]);
  }

  lemma {:induction false} SubmitWrites(m: Tables, req: Request, now: int)
    requires GoodRequest(m, req) && forall j :: j in m.jobs ==> j <= m.lastId
    ensures Submit(m, req, now).manifest == m.manifest + NewRecords(m, req, now, Elements(req))
  {
    var ids := DrawIds(m.jobs, m.lastId, Elements(req));
    IdsConsecutive(m.jobs, m.lastId, Elements(req));
    assert Submit(m, req, now).manifest == CommitRest(m, req, ids, |ids|, now).manifest;
    hide DrawIds, CommitNth, Submit;
    var Q := (t: Tables, k: nat) => Written(m, t, req, now, k);
    forall t: Tables, k: nat | Q(t, k) && k < |ids|
      ensures Q(CommitNth(t, req, ids, k, now), k + 1)
    {
      WrittenMore(m, t, req, ids, now, k);
    }
    assert m.manifest + NewRecords(m, req, now, 0) == m.manifest;
    CommitLoop(Q, m, req, ids, |ids|, now);
  }

  // -------------------------------------------------------------------
  // Every run
  // -------------------------------------------------------------------

  /** What step i of a run writes. */
  function WrittenBy(book: Book, m: Tables, step: Step, now: int): seq<Event>
    requires Enabled(m, step, now)
  {
    if step.DoSubmit? then NewRecords(m, step.req, now, Elements(step.req))
    else if (OfDispatch(step) || OfPending(step)) && step.j in book then Records(book[step.j], step.j, step, now)
    else []
  }

  /** In every run, every step but a compaction adds to the log exactly the
      records of what it says. */
  lemma {:induction false} RunWrites(tr: seq<Tables>, steps: seq<Step>, clock: seq<int>, i: nat)
    requires IsRun(tr, steps, clock) && i < |steps| && Remembers(steps) && !steps[i].DoCompact?
    ensures tr[i + 1].manifest == tr[i].manifest + WrittenBy(BookOf(tr, steps, clock, i), tr[i], steps[i], clock[i])
  {
    var m, step, now := tr[i], steps[i], clock[i];
    var book := BookOf(tr, steps, clock, i);
    RunTells(tr, steps, clock, i);
    RunIds(tr, steps, clock, i);
    hide BookOf, Records, NewRecords, Agrees;
    if OfDispatch(step) || OfPending(step) {
      OneStepWrites(m, step, now, book);
    } else {
      OtherWrites(m, step, now, book);
    }
  }

  lemma {:induction false} OneStepWrites(m: Tables, step: Step, now: int, book: Book)
    requires Told(m, book) && Enabled(m, step, now) && (OfDispatch(step) || OfPending(step))
    ensures Next(m, step, now).manifest == m.manifest + WrittenBy(book, m, step, now)
  {
    hide Next, Records, Agrees, Fitting;
    StepFits(m, step, now);
    if OfDispatch(step) { DispatchWrites(m, step, now, book[step.j]); } else { PendingWrites(m, step, now, book[step.j]); }
  }

  lemma {:induction false} OtherWrites(m: Tables, step: Step, now: int, book: Book)
    requires Enabled(m, step, now) && !OfDispatch(step) && !OfPending(step) && !step.DoCompact? && IdsOk(m)
    ensures Next(m, step, now).manifest == m.manifest + WrittenBy(book, m, step, now)
  {
    hide NewRecords, Submit, Replay, RebuildHosts, RebuildQueues, RebuildElements, RebuildRefs;
    match step
    case DoSubmit(req) => SubmitWrites(m, req, now);
    case DoFailSubmit(_) => assert m.manifest + [] == m.manifest;
    case DoMark(_) => assert m.manifest + [] == m.manifest;
    case DoRestart => assert m.manifest + [] == m.manifest;
  }
}
