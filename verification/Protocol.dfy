/**
 The job protocol between the master daemon (mbd) and the execution daemons
 (sbd, one per host), as a step system.

 Every handler of either daemon runs to completion before the next event is
 taken, and only enqueues its replies, so one handler is one step.  Each
 direction of a connection is a FIFO queue.  A connection is closed by one end
 at a time: the other end may still read any prefix of what was in flight, and
 whatever it sends meanwhile is lost.

 The `epoch` of a job counts its dispatches.  It is carried along to tell
 dispatches of the same job apart in the theorems; no handler looks at it.
 */
module Protocol {
  import N = Names

  type JobId = N.JobId
  type HostId = N.HostId

  datatype Option<+T> = None | Some(value: T)

  /** Messages sbd -> mbd. */
  datatype Up =
    | ReplyOk(job: JobId, pid: int, epoch: nat)
    | ReplyErr(job: JobId, epoch: nat)
    | Finish(job: JobId, epoch: nat)
    | Missing(job: JobId)

  datatype WireJob = WireJob(job: JobId, pid: int)

  /** Messages mbd -> sbd. */
  datatype Down =
    | NewJob(job: JobId, epoch: nat)
    | ReplyAck(job: JobId, epoch: nat)
    | FinishAck(job: JobId)
    | RegisterAck(jobs: seq<WireJob>)

  /** A job in an sbd's memory. */
  datatype SbdJob = SbdJob(pid: int, pidAcked: bool, exitValid: bool, epoch: nat)

  /** A job's state file on an sbd's disk. */
  datatype SbdFile = SbdFile(job: SbdJob, finishAcked: bool)

  /**
   One execution host and its link to mbd.
   - mbdUp: mbd has a registered channel for the host (sbd_chan != -1)
   - sbdUp: sbd has a channel to mbd (sbd_mbd_chan >= 0)
   - joined: those two are ends of the same connection
   - up: what mbd can still read from its registered channel
   - waiting: what follows REGISTER on sbd's channel while mbd has not read it
   - stale: the same for channels sbd closed before mbd read their REGISTER
   - down: what sbd can still read from its channel
   */
  datatype Host = Host(
    mem: map<JobId, SbdJob>,
    disk: map<JobId, SbdFile>,
    mbdUp: bool,
    sbdUp: bool,
    joined: bool,
    up: seq<Up>,
    waiting: Option<seq<Up>>,
    stale: seq<seq<Up>>,
    down: seq<Down>)

  datatype Phase = Pending | Held | Running | Finished

  /** mbd's record: `host` is run_hosts[0], `forked` is fork_time > 0. */
  datatype MbdJob = MbdJob(phase: Phase, host: Option<HostId>, pid: int, forked: bool, epoch: nat)

  datatype How = ByFinish | ByReject | ByMissing

  /** mbd's durable log, as far as dispatches are concerned. */
  datatype LogEvent =
    | LogStart(job: JobId, epoch: nat)
    | LogFork(job: JobId, epoch: nat, pid: int)
    | LogSettle(job: JobId, epoch: nat, how: How)

  /** `run` is run_jobs_list, `lastId` is job_id_seq. */
  datatype State = State(
    jobs: map<JobId, MbdJob>,
    run: seq<JobId>,
    lastId: nat,
    hosts: map<HostId, Host>,
    log: seq<LogEvent>)

  // -------------------------------------------------------------------
  // Sending
  // -------------------------------------------------------------------

  /** mbd writes on its registered channel; nobody reads it unless joined. */
  function MbdSend(h: Host, d: Down): Host {
    if h.joined then h.(down := h.down + [d]) else h
  }

  /** sbd writes on its channel: registered, waiting for registration, or dead. */
  function SbdSend(h: Host, u: Up): Host {
    if h.joined then h.(up := h.up + [u])
    else if h.waiting.Some? then h.(waiting := Some(h.waiting.value + [u]))
    else h
  }

  // -------------------------------------------------------------------
  // sbd handlers
  // -------------------------------------------------------------------

  /** sbd_job_new: `spawned` is the child's pid, or None when any of the
      preparation steps or the spawn fails. */
  function SbdJobNew(h: Host, j: JobId, e: nat, spawned: Option<int>): Host {
    if j in h.mem then
      SbdSend(h, ReplyOk(j, h.mem[j].pid, h.mem[j].epoch))
    else if spawned.None? then
      SbdSend(h, ReplyErr(j, e))
    else
      var job := SbdJob(spawned.value, false, false, e);
      SbdSend(h.(mem := h.mem[j := job], disk := h.disk[j := SbdFile(job, false)]),
              ReplyOk(j, job.pid, e))
  }

  /** sbd_job_new_reply_ack */
  function SbdReplyAck(h: Host, j: JobId): Host {
    if j !in h.mem || h.mem[j].pidAcked then h
    else
      var job := h.mem[j].(pidAcked := true);
      h.(mem := h.mem[j := job], disk := h.disk[j := SbdFile(job, false)])
  }

  /** sbd_job_finish_ack, outside its fatal branch */
  function SbdFinishAck(h: Host, j: JobId): Host {
    if j !in h.mem then h
    else h.(mem := h.mem - {j}, disk := h.disk[j := SbdFile(h.mem[j], true)])
  }

  /** One entry of the register ack, outside its fatal branches */
  function SbdRegisterEntry(h: Host, w: WireJob): Host {
    if w.job !in h.mem then SbdSend(h, Missing(w.job))
    else if w.pid > 0 then h
    else h.(mem := h.mem[w.job := h.mem[w.job].(pidAcked := false)])
  }

  /** sbd_register_ack */
  function SbdRegisterAck(h: Host, ws: seq<WireJob>): Host
    decreases |ws|
  {
    if ws == [] then h else SbdRegisterAck(SbdRegisterEntry(h, ws[0]), ws[1..])
  }

  /** The branches of sbd's handlers that end in sbd_fatal or a failed assert. */
  predicate EntryFatal(h: Host, w: WireJob) {
    w.job in h.mem && (h.mem[w.job].pid <= 0 || (w.pid > 0 && w.pid != h.mem[w.job].pid))
  }

  predicate SbdFatal(h: Host, d: Down) {
    match d
    case NewJob(_, _) => false
    case ReplyAck(_, _) => false
    case FinishAck(j) => j in h.mem && !h.mem[j].exitValid
    case RegisterAck(ws) => exists i :: 0 <= i < |ws| && EntryFatal(h, ws[i])
  }

  /** The loop of sbd_mbd_link_down writes every job's state file. */
  function SaveAll(h: Host): map<JobId, SbdFile> {
    map j | j in h.disk.Keys + h.mem.Keys ::
      if j in h.mem then SbdFile(h.mem[j], false) else h.disk[j]
  }

  function Take<T>(q: seq<T>, keep: nat): seq<T> {
    if keep <= |q| then q[..keep] else q
  }

  /** sbd loses its channel.  mbd may still read the first `keep` messages. */
  function SbdCut(h: Host, keep: nat): Host {
    h.(sbdUp := false, joined := false, down := [], waiting := None,
       up := if h.joined then Take(h.up, keep) else h.up,
       stale := if h.waiting.Some? then h.stale + [Take(h.waiting.value, keep)] else h.stale)
  }

  /** sbd_job_state_load_all: only jobs whose finish is not acked come back. */
  function LoadAll(disk: map<JobId, SbdFile>): map<JobId, SbdJob> {
    map j | j in disk && !disk[j].finishAcked :: disk[j].job
  }

  // -------------------------------------------------------------------
  // mbd handlers
  // -------------------------------------------------------------------

  /** build_sbd_run_list */
  function RunListFor(run: seq<JobId>, jobs: map<JobId, MbdJob>, n: HostId): seq<WireJob> {
    if run == [] then []
    else
      (if run[0] in jobs && jobs[run[0]].host == Some(n)
       then [WireJob(run[0], jobs[run[0]].pid)] else [])
      + RunListFor(run[1..], jobs, n)
  }

  function Without(run: seq<JobId>, j: JobId): seq<JobId> {
    if run == [] then []
    else if run[0] == j then run[1..]
    else [run[0]] + Without(run[1..], j)
  }

  function SendTo(s: State, n: HostId, d: Down): State
    requires n in s.hosts
  {
    s.(hosts := s.hosts[n := MbdSend(s.hosts[n], d)])
  }

  /** mbd_job_reject_dispatch clears run_hosts, mbd_job_missing keeps them. */
  function BackToPending(s: State, j: JobId, how: How): State
    requires j in s.jobs
  {
    var m := s.jobs[j];
    s.(jobs := s.jobs[j := MbdJob(Pending, if how == ByReject then None else m.host, 0, false, m.epoch)],
       run := Without(s.run, j),
       log := s.log + [LogSettle(j, m.epoch, how)])
  }

  /** mbd_new_job_reply, reply with a pid */
  function MbdReplyOk(s: State, n: HostId, j: JobId, pid: int): State
    requires n in s.hosts
  {
    if j !in s.jobs then s
    else
      var m := s.jobs[j];
      var acked := SendTo(s, n, ReplyAck(j, m.epoch));
      if m.forked then acked
      else acked.(jobs := s.jobs[j := m.(pid := pid, forked := true, phase := Running)],
                  log := s.log + [LogFork(j, m.epoch, pid)])
  }

  /** mbd_new_job_reply, reply with state PENDING; reject acks to run_hosts[0] */
  function MbdReplyErr(s: State, n: HostId, j: JobId): State
    requires n in s.hosts
  {
    if j !in s.jobs || s.jobs[j].phase in {Pending, Held} then s
    else if s.jobs[j].host.None? || s.jobs[j].host.value !in s.hosts then s
    else SendTo(BackToPending(s, j, ByReject), s.jobs[j].host.value, ReplyAck(j, s.jobs[j].epoch))
  }

  /** mbd_job_finish */
  function MbdFinish(s: State, n: HostId, j: JobId): State
    requires n in s.hosts
  {
    if j !in s.jobs then SendTo(s, n, FinishAck(j))
    else if s.jobs[j].host != Some(n) then s
    else if s.jobs[j].phase == Finished then SendTo(s, n, FinishAck(j))
    else
      var m := s.jobs[j];
      SendTo(s, n, FinishAck(j)).(
        jobs := s.jobs[j := m.(phase := Finished)],
        run := Without(s.run, j),
        log := s.log + [LogSettle(j, m.epoch, ByFinish)])
  }

  /** mbd_job_missing */
  function MbdMissing(s: State, n: HostId, j: JobId): State
    requires n in s.hosts
  {
    if j !in s.jobs || s.jobs[j].host != Some(n) || s.jobs[j].phase != Running then s
    else BackToPending(s, j, ByMissing)
  }

  function MbdHandle(s: State, n: HostId, u: Up): State
    requires n in s.hosts
  {
    match u
    case ReplyOk(j, pid, _) => MbdReplyOk(s, n, j, pid)
    case ReplyErr(j, _) => MbdReplyErr(s, n, j)
    case Finish(j, _) => MbdFinish(s, n, j)
    case Missing(j) => MbdMissing(s, n, j)
  }

  /** Unexpected branches of mbd's handlers: failed asserts (job.c:404, 1114,
      1217), a report from a host the job was not sent to or from an earlier
      dispatch, a pid other than the one recorded, a job with a recorded pid
      being sent back to pending. */
  predicate MbdFault(s: State, n: HostId, u: Up) {
    match u
    case ReplyOk(j, pid, e) =>
      j in s.jobs && (s.jobs[j].host != Some(n)
                      || s.jobs[j].phase !in {Running, Finished}
                      || s.jobs[j].epoch != e
                      || (s.jobs[j].phase == Finished && !s.jobs[j].forked)
                      || (s.jobs[j].forked && s.jobs[j].pid != pid))
    case ReplyErr(j, e) =>
      j !in s.jobs || s.jobs[j].phase != Running || s.jobs[j].host != Some(n)
      || s.jobs[j].epoch != e || s.jobs[j].forked
    case Finish(j, e) =>
      j in s.jobs && (s.jobs[j].host != Some(n)
                      || s.jobs[j].phase !in {Running, Finished}
                      || s.jobs[j].epoch != e || !s.jobs[j].forked)
    case Missing(j) =>
      j !in s.jobs || s.jobs[j].phase != Running || s.jobs[j].host != Some(n)
      || s.jobs[j].forked
  }

  /** mbd closes its registered channel (mbd_sbd_disconnect); sbd may still
      read the first `keep` messages. */
  function MbdCut(h: Host, keep: nat): Host {
    h.(mbdUp := false, joined := false, up := [],
       down := if h.joined then Take(h.down, keep) else h.down)
  }

  /** mbd dies: every connection it had is gone, including unregistered ones. */
  function MbdDie(h: Host, keep: nat): Host {
    MbdCut(h, keep).(waiting := None, stale := [])
  }

  /** mbd_sbd_register: a second registration for the host is refused. */
  function MbdRegister(s: State, n: HostId): State
    requires n in s.hosts && s.hosts[n].waiting.Some?
  {
    var h := s.hosts[n];
    if h.mbdUp then s.(hosts := s.hosts[n := h.(waiting := None)])
    else s.(hosts := s.hosts[n := h.(mbdUp := true, joined := true, waiting := None,
                                     up := h.waiting.value,
                                     down := h.down + [RegisterAck(RunListFor(s.run, s.jobs, n))])])
  }

  /** mbd_sbd_register reading a REGISTER whose sender has gone: the ack goes
      nowhere, the rest of that channel is still read. */
  function MbdRegisterStale(h: Host, i: nat): Host
    requires i < |h.stale|
  {
    var rest := h.stale[..i] + h.stale[i + 1..];
    if h.mbdUp then h.(stale := rest)
    else h.(mbdUp := true, up := h.stale[i], stale := rest)
  }

  // -------------------------------------------------------------------
  // Steps
  // -------------------------------------------------------------------

  datatype Step =
    | Submit(j: JobId, held: bool)
    | Hold(j: JobId)
    | Resume(j: JobId)
    | KillPending(j: JobId)
    | Dispatch(j: JobId, n: HostId)
    | Purge(j: JobId)
    | MbdReceive(n: HostId)
    | MbdAccept(n: HostId)
    | MbdAcceptStale(n: HostId, i: nat)
    | MbdDisconnect(n: HostId, keep: nat)
    | MbdRestart(kept: map<HostId, nat>)
    | SbdReceive(n: HostId, spawned: Option<int>)
    | SbdSendReply(n: HostId, j: JobId)
    | SbdSendFinish(n: HostId, j: JobId)
    | SbdJobExits(n: HostId, j: JobId)
    | SbdLinkDown(n: HostId, keep: nat)
    | SbdConnect(n: HostId)
    | SbdRestart(n: HostId, keep: nat)

  predicate Enabled(s: State, step: Step) {
    match step
    case Submit(j, _) => j > s.lastId
    case Hold(j) => j in s.jobs && s.jobs[j].phase == Pending
    case Resume(j) => j in s.jobs && s.jobs[j].phase == Held
    case KillPending(j) => j in s.jobs && s.jobs[j].phase in {Pending, Held}
    case Dispatch(j, n) =>
      j in s.jobs && s.jobs[j].phase == Pending && n in s.hosts && s.hosts[n].mbdUp
    case Purge(j) => j in s.jobs && s.jobs[j].phase == Finished
    case MbdReceive(n) => n in s.hosts && s.hosts[n].mbdUp && s.hosts[n].up != []
    case MbdAccept(n) => n in s.hosts && s.hosts[n].waiting.Some?
    case MbdAcceptStale(n, i) => n in s.hosts && i < |s.hosts[n].stale|
    case MbdDisconnect(n, _) => n in s.hosts && s.hosts[n].mbdUp
    case MbdRestart(kept) => kept.Keys == s.hosts.Keys
    case SbdReceive(n, spawned) =>
      && n in s.hosts && s.hosts[n].sbdUp && s.hosts[n].down != []
      && (spawned.Some? ==> spawned.value > 0)
      && !SbdFatal(s.hosts[n], s.hosts[n].down[0])
    case SbdSendReply(n, j) =>
      n in s.hosts && s.hosts[n].sbdUp && j in s.hosts[n].mem && !s.hosts[n].mem[j].pidAcked
    case SbdSendFinish(n, j) =>
      n in s.hosts && s.hosts[n].sbdUp && j in s.hosts[n].mem
      && s.hosts[n].mem[j].pidAcked && s.hosts[n].mem[j].exitValid
    case SbdJobExits(n, j) => n in s.hosts && j in s.hosts[n].mem
    case SbdLinkDown(n, _) => n in s.hosts && s.hosts[n].sbdUp
    case SbdConnect(n) => n in s.hosts && !s.hosts[n].sbdUp
    case SbdRestart(n, _) => n in s.hosts
  }

  function SbdHandle(h: Host, d: Down, spawned: Option<int>): Host {
    match d
    case NewJob(j, e) => SbdJobNew(h, j, e, spawned)
    case ReplyAck(j, _) => SbdReplyAck(h, j)
    case FinishAck(j) => SbdFinishAck(h, j)
    case RegisterAck(ws) => SbdRegisterAck(h, ws)
  }

  /** What one step does to the host it happens on. */
  function HostNext(h: Host, step: Step): Host {
    match step
    case MbdReceive(_) => if h.up == [] then h else h.(up := h.up[1..])
    case MbdDisconnect(_, keep) => MbdCut(h, keep)
    case MbdAcceptStale(_, i) => if i < |h.stale| then MbdRegisterStale(h, i) else h
    case SbdReceive(_, spawned) =>
      if h.down == [] then h else SbdHandle(h.(down := h.down[1..]), h.down[0], spawned)
    case SbdSendReply(_, j) =>
      if j in h.mem then SbdSend(h, ReplyOk(j, h.mem[j].pid, h.mem[j].epoch)) else h
    case SbdSendFinish(_, j) =>
      if j in h.mem then SbdSend(h, Finish(j, h.mem[j].epoch)) else h
    case SbdJobExits(_, j) =>
      if j in h.mem then h.(mem := h.mem[j := h.mem[j].(exitValid := true)]) else h
    case SbdLinkDown(_, keep) => SbdCut(h.(disk := SaveAll(h)), keep)
    case SbdConnect(_) => h.(sbdUp := true, waiting := Some([]))
    case SbdRestart(_, keep) => SbdCut(h.(mem := LoadAll(h.disk)), keep)
    case _ => h
  }

  function Next(s: State, step: Step): State
    requires Enabled(s, step)
  {
    match step
    case Submit(j, held) =>
      s.(lastId := j, jobs := s.jobs[j := MbdJob(if held then Held else Pending, None, 0, false, 0)])
    case Hold(j) => s.(jobs := s.jobs[j := s.jobs[j].(phase := Held)])
    case Resume(j) => s.(jobs := s.jobs[j := s.jobs[j].(phase := Pending)])
    case KillPending(j) => s.(jobs := s.jobs[j := s.jobs[j].(phase := Finished)])
    case Dispatch(j, n) =>
      var m := s.jobs[j].(phase := Running, host := Some(n), epoch := s.jobs[j].epoch + 1);
      SendTo(s, n, NewJob(j, m.epoch)).(
        jobs := s.jobs[j := m],
        run := s.run + [j],
        log := s.log + [LogStart(j, m.epoch)])
    case Purge(j) => s.(jobs := s.jobs - {j})
    case MbdReceive(n) =>
      MbdHandle(s.(hosts := s.hosts[n := HostNext(s.hosts[n], step)]), n, s.hosts[n].up[0])
    case MbdAccept(n) => MbdRegister(s, n)
    case MbdRestart(kept) => s.(hosts := map n | n in s.hosts :: MbdDie(s.hosts[n], kept[n]))
    case MbdAcceptStale(n, _) => s.(hosts := s.hosts[n := HostNext(s.hosts[n], step)])
    case MbdDisconnect(n, _) => s.(hosts := s.hosts[n := HostNext(s.hosts[n], step)])
    case SbdReceive(n, _) => s.(hosts := s.hosts[n := HostNext(s.hosts[n], step)])
    case SbdSendReply(n, _) => s.(hosts := s.hosts[n := HostNext(s.hosts[n], step)])
    case SbdSendFinish(n, _) => s.(hosts := s.hosts[n := HostNext(s.hosts[n], step)])
    case SbdJobExits(n, _) => s.(hosts := s.hosts[n := HostNext(s.hosts[n], step)])
    case SbdLinkDown(n, _) => s.(hosts := s.hosts[n := HostNext(s.hosts[n], step)])
    case SbdConnect(n) => s.(hosts := s.hosts[n := HostNext(s.hosts[n], step)])
    case SbdRestart(n, _) => s.(hosts := s.hosts[n := HostNext(s.hosts[n], step)])
  }

  predicate Init(s: State) {
    && s.jobs == map[] && s.run == [] && s.lastId == 0 && s.log == []
    && forall n :: n in s.hosts ==> s.hosts[n] == Host(map[], map[], false, false, false, [], None, [], [])
  }

  /** tr lists the states a run goes through under the given steps. */
  predicate IsRun(tr: seq<State>, steps: seq<Step>) {
    && |tr| == |steps| + 1
    && Init(tr[0])
    && forall i :: 0 <= i < |steps| ==> Enabled(tr[i], steps[i]) && tr[i + 1] == Next(tr[i], steps[i])
  }
}
