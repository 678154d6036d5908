/**
 mbd's tables and the handlers that change them: jobs on three lists, the
 charges against hosts, queues and token pools, and the event log.

 Configuration (hosts, queues, pools, their sizes) is fixed; GPUs, suspended
 running jobs and broken or orphaned jobs are not part of this model.
 */
module Mbd {
  import D = Dependency
  import I = Int32
  import N = Names

  type JobId = N.JobId
  type HostId = N.HostId
  type QueueId = N.QueueId
  type PoolId = N.PoolId

  datatype JobState = Pending | Held | Running | Exited | Done

  datatype JobList = OnPend | OnRun | OnFinish

  datatype Token = Token(pool: PoolId, count: nat)

  /** id == 0 for an ordinary job; the head of an array has id == its own. */
  datatype ArrayTag = ArrayTag(id: JobId, index: int, start: int, end: int, stride: int)

  /** What a job only carries along: its group, its flags and its strings. */
  datatype Words = Words(
    gid: nat,
    flags: nat,
    user: string,
    name: string,
    project: string,
    gpuModel: string,
    machines: string,
    tokenpool: string,
    depend: string)

  /** runHosts is run_hosts[0..run_nhosts).  machinesText is what the machine
      list names as far as the log holds it. */
  datatype Job = Job(
    uid: nat,
    queue: QueueId,
    state: JobState,
    list: JobList,
    priority: int,
    submitTime: int,
    beginTime: int,
    termTime: int,
    dispatchTime: int,
    forkTime: int,
    endTime: int,
    pid: int,
    exitStatus: int,
    exclusive: bool,
    cpus: int,
    nhosts: int,
    mem: nat,
    storage: nat,
    machines: seq<HostId>,
    machinesText: seq<HostId>,
    tokens: seq<Token>,
    deps: seq<D.Instr>,
    depRefcnt: int,
    runHosts: seq<HostId>,
    tag: ArrayTag,
    elementCnt: int,
    words: Words)

  /** state == HOST_OK and sbd_chan >= 0 are `ok` and `connected`. */
  datatype Host = Host(
    ok: bool,
    connected: bool,
    candidate: bool,
    exclusive: bool,
    totalCpu: int,
    freeCpu: int,
    totalMem: int,
    freeMem: int,
    totalStorage: int,
    freeStorage: int,
    numJobs: int,
    numRun: int,
    cpusUsed: int)

  datatype Queue = Queue(
    open: bool,
    priority: int,
    members: set<HostId>,
    numJobs: int,
    numPend: int,
    numHeld: int,
    numRun: int,
    cpusUsed: int,
    hostsUsed: int)

  datatype Pool = Pool(total: int, free: int)

  /** The payload of JOB_NEW. */
  datatype NewRec = NewRec(
    uid: nat,
    state: JobState,
    priority: int,
    submitTime: int,
    beginTime: int,
    termTime: int,
    cpus: int,
    nhosts: int,
    mem: nat,
    storage: nat,
    exclusive: bool,
    queue: QueueId,
    machines: seq<HostId>,
    deps: seq<D.Instr>,
    tag: ArrayTag,
    words: Words)

  /** A signal and who sent it. */
  datatype Sig = Sig(number: int, uid: nat)

  /** The manifest, one record per line. */
  datatype Event =
    | EvNew(job: JobId, rec: NewRec)
    | EvStart(job: JobId, time: int, nhosts: int, cpus: int, gpuModel: string, hosts: string)
    | EvFork(job: JobId, time: int, pid: int)
    | EvSignal(job: JobId, time: int, sig: Sig)
    | EvFinish(job: JobId, uid: nat, state: JobState, exit: int, time: int)
    | EvPendSusp(job: JobId, time: int)
    | EvPendResume(job: JobId, time: int)
    | EvMove(job: JobId, time: int, from: QueueId, to: QueueId)
    | EvPriority(job: JobId, time: int, before: int, after: int)
    | EvPend(job: JobId, time: int)

  /** lastId is job_id_seq, savedId its copy on disk. */
  datatype Tables = Tables(
    jobs: map<JobId, Job>,
    pend: seq<JobId>,
    run: seq<JobId>,
    fin: seq<JobId>,
    hosts: map<HostId, Host>,
    queues: map<QueueId, Queue>,
    pools: map<PoolId, Pool>,
    lastId: nat,
    savedId: nat,
    manifest: seq<Event>)

  function Without(s: seq<JobId>, j: JobId): seq<JobId> {
    if s == [] then [] else if s[0] == j then s[1..] else [s[0]] + Without(s[1..], j)
  }

  // -------------------------------------------------------------------
  // Charges
  // -------------------------------------------------------------------

  /** host_update_resources, one host */
  function Charge(h: Host, job: Job): Host {
    var free := h.freeCpu - job.cpus;
    h.(freeCpu := free, freeMem := h.freeMem - job.mem, freeStorage := h.freeStorage - job.storage,
       numJobs := h.numJobs + 1, numRun := h.numRun + 1, cpusUsed := h.cpusUsed + job.cpus,
       candidate := h.candidate && free > 0,
       exclusive := h.exclusive || job.exclusive)
  }

  /** reset_host_resources, one host */
  function Release(h: Host, job: Job): Host {
    h.(freeCpu := h.freeCpu + job.cpus, freeMem := h.freeMem + job.mem,
       freeStorage := h.freeStorage + job.storage,
       numJobs := h.numJobs - 1, numRun := h.numRun - 1, cpusUsed := h.cpusUsed - job.cpus,
       exclusive := h.exclusive && !job.exclusive)
  }

  function ChargeAll(hosts: map<HostId, Host>, hs: seq<HostId>, job: Job): map<HostId, Host> {
    if hs == [] then hosts
    else if hs[0] !in hosts then ChargeAll(hosts, hs[1..], job)
    else ChargeAll(hosts[hs[0] := Charge(hosts[hs[0]], job)], hs[1..], job)
  }

  function ReleaseAll(hosts: map<HostId, Host>, hs: seq<HostId>, job: Job): map<HostId, Host> {
    if hs == [] then hosts
    else if hs[0] !in hosts then ReleaseAll(hosts, hs[1..], job)
    else ReleaseAll(hosts[hs[0] := Release(hosts[hs[0]], job)], hs[1..], job)
  }

  /** token_alloc (sign -1) and token_pool_release (sign +1) */
  function MoveTokens(pools: map<PoolId, Pool>, ts: seq<Token>, sign: int): map<PoolId, Pool> {
    if ts == [] then pools
    else if ts[0].pool !in pools then MoveTokens(pools, ts[1..], sign)
    else
      var p := pools[ts[0].pool];
      MoveTokens(pools[ts[0].pool := p.(free := p.free + sign * ts[0].count)], ts[1..], sign)
  }

  // -------------------------------------------------------------------
  // Reference counts
  // -------------------------------------------------------------------

  /** How often a condition names job t. */
  function Refs(deps: seq<D.Instr>, t: JobId): nat {
    if deps == [] then 0
    else (if deps[0].Call? && deps[0].job == t then 1 else 0) + Refs(deps[1..], t)
  }

  /** job_deps_refcnt: a node naming a job that is not in the table is skipped. */
  function AdjustRefs(jobs: map<JobId, Job>, deps: seq<D.Instr>, delta: int): map<JobId, Job> {
    map t | t in jobs :: jobs[t].(depRefcnt := jobs[t].depRefcnt + delta * Refs(deps, t))
  }

  /** job_array_element_finished */
  function ElementFinished(jobs: map<JobId, Job>, head: JobId): map<JobId, Job> {
    if head == 0 || head !in jobs then jobs
    else jobs[head := jobs[head].(elementCnt := jobs[head].elementCnt - 1)]
  }

  // -------------------------------------------------------------------
  // Submission
  // -------------------------------------------------------------------

  /** logged is what the first 1023 characters of the machine list name. */
  datatype Request = Request(
    uid: nat,
    queue: QueueId,
    hold: bool,
    exclusive: bool,
    cpus: int,
    nhosts: int,
    mem: nat,
    storage: nat,
    machines: seq<HostId>,
    logged: seq<HostId>,
    tokens: seq<Token>,
    deps: seq<D.Instr>,
    beginTime: int,
    termTime: int,
    isArray: bool,
    start: int,
    end: int,
    stride: int,
    words: Words)

  function Above(jobs: map<JobId, Job>, n: nat): set<JobId> {
    set k | k in jobs && k > n
  }

  /** The id next_job_id draws after n. */
  function NextId(jobs: map<JobId, Job>, n: nat): JobId
    decreases Above(jobs, n)
  {
    if n + 1 in jobs then
      assert n + 1 in Above(jobs, n) && n + 1 !in Above(jobs, n + 1);
      NextId(jobs, n + 1)
    else n + 1
  }

  function DrawIds(jobs: map<JobId, Job>, n: nat, count: nat): (ids: seq<JobId>)
    ensures |ids| == count
    decreases count
  {
    if count == 0 then [] else [NextId(jobs, n)] + DrawIds(jobs, NextId(jobs, n), count - 1)
  }

  /** How many times the loop of job_register runs. */
  function Elements(req: Request): (n: nat)
    requires req.isArray ==> req.stride > 0 && req.end >= req.start
    ensures n >= 1
  {
    if req.isArray then (req.end - req.start) / req.stride + 1 else 1
  }

  /** job_alloc: the host count follows the machine list, and is at least 1. */
  function HostCount(req: Request): int {
    if |req.machines| > 0 then |req.machines| else if req.nhosts < 1 then 1 else req.nhosts
  }

  function TagOf(req: Request, head: JobId, k: nat): ArrayTag {
    if req.isArray then ArrayTag(head, req.start + k * req.stride, req.start, req.end, req.stride)
    else ArrayTag(0, 0, 0, 0, 0)
  }

  /** job_alloc: the strings as the daemon keeps them */
  function KeptWords(w: Words): Words {
    w.(user := N.Cut(w.user, 64), name := if w.name == "" then "-" else N.Cut(w.name, 64))
  }

  /** event_job_new and compact_write_job_new: the strings as they are logged */
  function LoggedWords(w: Words): Words {
    w.(user := N.Cut(w.user, 64), name := N.Cut(w.name, 64), project := N.Cut(w.project, 64),
       gpuModel := N.Cut(w.gpuModel, 64), machines := N.Cut(w.machines, 1024),
       tokenpool := N.Cut(w.tokenpool, 256), depend := N.Cut(w.depend, 4096))
  }

  /** What the submission buffers can hold. */
  predicate WireWords(w: Words) {
    && |w.user| < 256 && |w.name| < 256 && |w.project| < 64 && |w.gpuModel| < 256
    && |w.machines| < 4096 && |w.tokenpool| < 256 && |w.depend| < 4096
  }

  /** The k-th job of a request. */
  function Prepared(req: Request, priority: int, head: JobId, k: nat, count: nat, now: int): Job {
    Job(req.uid, req.queue, if req.hold then Held else Pending, OnPend, priority,
        now, req.beginTime, req.termTime, 0, 0, 0, 0, 0, req.exclusive,
        req.cpus, HostCount(req), req.mem, req.storage, req.machines, req.logged,
        req.tokens, req.deps, 0, [], TagOf(req, head, k),
        if req.isArray && k == 0 then count else 0, KeptWords(req.words))
  }

  /** event_job_new logs the host count as submitted. */
  function NewEvent(id: JobId, job: Job, nhosts: int): Event {
    EvNew(id, NewRec(job.uid, job.state, job.priority, job.submitTime, job.beginTime, job.termTime,
                     job.cpus, nhosts, job.mem, job.storage, job.exclusive, job.queue,
                     job.machinesText, job.deps, job.tag, LoggedWords(job.words)))
  }

  /** job_commit */
  function Commit(m: Tables, id: JobId, job: Job, nhosts: int): Tables
    requires job.queue in m.queues
  {
    var q := m.queues[job.queue];
    m.(jobs := AdjustRefs(m.jobs[id := job], job.deps, 1),
       pend := m.pend + [id],
       queues := m.queues[job.queue := q.(numJobs := q.numJobs + 1,
                                          numPend := q.numPend + (if job.state == Pending then 1 else 0),
                                          numHeld := q.numHeld + (if job.state == Held then 1 else 0))],
       manifest := m.manifest + [NewEvent(id, job, nhosts)])
  }

  /** One turn of job_commit_prepared. */
  function CommitNth(m: Tables, req: Request, ids: seq<JobId>, k: nat, now: int): Tables
    requires k < |ids| && req.queue in m.queues
  {
    Commit(m, ids[k], Prepared(req, m.queues[req.queue].priority, ids[0], k, |ids|, now), req.nhosts)
  }

  /** job_commit_prepared: the last n of the jobs numbered 0..|ids| */
  function CommitRest(m: Tables, req: Request, ids: seq<JobId>, n: nat, now: int): Tables
    requires n <= |ids| && req.queue in m.queues
    decreases n
  {
    if n == 0 then m else CommitRest(CommitNth(m, req, ids, |ids| - n, now), req, ids, n - 1, now)
  }

  /** What every turn keeps, the loop keeps. */
  lemma {:induction false} CommitLoop(
      P: (Tables, nat) -> bool, m: Tables, req: Request, ids: seq<JobId>, n: nat, now: int)
    requires n <= |ids| && P(m, |ids| - n)
    requires forall t: Tables, k: nat :: P(t, k) ==> req.queue in t.queues
    requires forall t: Tables, k: nat :: P(t, k) && k < |ids| ==> P(CommitNth(t, req, ids, k, now), k + 1)
    ensures P(CommitRest(m, req, ids, n, now), |ids|)
    decreases n
  {
    if n > 0 {
      CommitLoop(P, CommitNth(m, req, ids, |ids| - n, now), req, ids, n - 1, now);
    }
  }

  predicate GoodRequest(m: Tables, req: Request) {
    && (req.isArray ==>
          && req.stride > 0 && req.end >= req.start
          && I.INT_MIN <= req.start && req.start + Elements(req) * req.stride <= I.INT_MAX)
    && req.queue in m.queues && WireWords(req.words)
    && (forall i :: 0 <= i < |req.tokens| ==> req.tokens[i].pool in m.pools && req.tokens[i].count > 0)
    && (forall i :: 0 <= i < |req.deps| && req.deps[i].Call? ==> req.deps[i].job in m.jobs)
  }

  /** job_register, all elements prepared */
  function Submit(m: Tables, req: Request, now: int): Tables
    requires GoodRequest(m, req)
  {
    var ids := DrawIds(m.jobs, m.lastId, Elements(req));
    var last := ids[|ids| - 1];
    CommitRest(m, req, ids, |ids|, now).(lastId := last, savedId := last)
  }

  // -------------------------------------------------------------------
  // Dispatch and its outcomes
  // -------------------------------------------------------------------

  /** event_job_start */
  function StartOn(id: JobId, job: Job, hosts: seq<HostId>): Event {
    EvStart(id, job.dispatchTime, job.nhosts, job.cpus, N.Cut(job.words.gpuModel, 64), N.HostsText(hosts))
  }

  /** The dispatching half of one turn of schedule() */
  function Dispatch(m: Tables, j: JobId, plan: seq<HostId>, now: int): Tables
    requires j in m.jobs && m.jobs[j].queue in m.queues
  {
    var job := m.jobs[j].(state := Running, list := OnRun, dispatchTime := now, runHosts := plan);
    var q := m.queues[job.queue];
    m.(jobs := AdjustRefs(m.jobs[j := job], job.deps, -1),
       pend := Without(m.pend, j), run := m.run + [j],
       hosts := ChargeAll(m.hosts, plan, job),
       pools := MoveTokens(m.pools, job.tokens, -1),
       queues := m.queues[job.queue := q.(numRun := q.numRun + 1, numPend := q.numPend - 1,
                                          cpusUsed := q.cpusUsed + job.cpus * |plan|,
                                          hostsUsed := q.hostsUsed + |plan|)],
       manifest := m.manifest + [StartOn(j, job, plan)])
  }

  /** mbd_new_job_reply with a pid, first time */
  function Fork(m: Tables, j: JobId, pid: int, now: int): Tables
    requires j in m.jobs
  {
    m.(jobs := m.jobs[j := m.jobs[j].(pid := pid, forkTime := now, state := Running)],
       manifest := m.manifest + [EvFork(j, now, pid)])
  }

  /** What finish, reject and missing all do to hosts, pools and the queue. */
  function Settle(m: Tables, j: JobId, jobsBack: int, pendBack: int): Tables
    requires j in m.jobs && m.jobs[j].queue in m.queues
  {
    var job := m.jobs[j];
    var q := m.queues[job.queue];
    m.(hosts := ReleaseAll(m.hosts, job.runHosts, job),
       pools := MoveTokens(m.pools, job.tokens, 1),
       queues := m.queues[job.queue := q.(numRun := q.numRun - 1,
                                          numJobs := q.numJobs + jobsBack,
                                          numPend := q.numPend + pendBack,
                                          cpusUsed := q.cpusUsed - job.cpus * |job.runHosts|,
                                          hostsUsed := q.hostsUsed - |job.runHosts|)],
       run := Without(m.run, j))
  }

  function BackToPend(m: Tables, j: JobId, runHosts: seq<HostId>, now: int): Tables
    requires j in m.jobs && m.jobs[j].queue in m.queues
  {
    var job := m.jobs[j].(pid := 0, forkTime := 0, dispatchTime := 0, state := Pending, list := OnPend,
                          runHosts := runHosts);
    Settle(m, j, 0, 1).(jobs := m.jobs[j := job], pend := m.pend + [j],
                        manifest := m.manifest + [EvPend(j, now)])
  }

  /** mbd_job_reject_dispatch forgets the hosts */
  function Reject(m: Tables, j: JobId, now: int): Tables
    requires j in m.jobs && m.jobs[j].queue in m.queues
  {
    BackToPend(m, j, [], now)
  }

  /** mbd_job_missing keeps them */
  function Missing(m: Tables, j: JobId, now: int): Tables
    requires j in m.jobs && m.jobs[j].queue in m.queues
  {
    BackToPend(m, j, m.jobs[j].runHosts, now)
  }

  /** mbd_job_finish, first report */
  function Finish(m: Tables, j: JobId, success: bool, exit: int, now: int): Tables
    requires j in m.jobs && m.jobs[j].queue in m.queues
  {
    var job := m.jobs[j].(endTime := now, exitStatus := exit, list := OnFinish,
                          state := if success then Done else Exited);
    Settle(m, j, -1, 0).(
      jobs := ElementFinished(m.jobs[j := job], job.tag.id),
      fin := m.fin + [j],
      manifest := m.manifest + [EvFinish(j, job.uid, job.state, exit, now)])
  }

  // -------------------------------------------------------------------
  // Requests about pending jobs
  // -------------------------------------------------------------------

  /** finish_pending_job */
  function Kill(m: Tables, j: JobId, sig: Sig, now: int): Tables
    requires j in m.jobs && m.jobs[j].queue in m.queues
  {
    var was := m.jobs[j];
    var job := was.(endTime := now, state := Exited, list := OnFinish);
    var q := m.queues[job.queue];
    m.(jobs := ElementFinished(AdjustRefs(m.jobs[j := job], job.deps, -1), job.tag.id),
       pend := Without(m.pend, j), fin := m.fin + [j],
       queues := m.queues[job.queue := q.(numJobs := q.numJobs - 1,
                                          numPend := q.numPend - (if was.state == Pending then 1 else 0),
                                          numHeld := q.numHeld - (if was.state == Held then 1 else 0))],
       manifest := m.manifest + [EvSignal(j, now, sig), EvFinish(j, job.uid, Exited, job.exitStatus, now)])
  }

  /** stop_pending_job (hold) and resume_pending_job */
  function SetHeld(m: Tables, j: JobId, hold: bool, sig: Sig, now: int): Tables
    requires j in m.jobs && m.jobs[j].queue in m.queues
  {
    var job := m.jobs[j].(state := if hold then Held else Pending);
    var q := m.queues[job.queue];
    var d := if hold then 1 else -1;
    m.(jobs := m.jobs[j := job],
       queues := m.queues[job.queue := q.(numPend := q.numPend - d, numHeld := q.numHeld + d)],
       manifest := m.manifest + [EvSignal(j, now, sig),
                                 if hold then EvPendSusp(j, now) else EvPendResume(j, now)])
  }

  /** job_move: counters leave one queue before they enter the other */
  function Move(m: Tables, j: JobId, to: QueueId, now: int): Tables
    requires j in m.jobs && m.jobs[j].queue in m.queues && to in m.queues
  {
    var job := m.jobs[j];
    var p, h := if job.state == Pending then 1 else 0, if job.state == Pending then 0 else 1;
    var f := m.queues[job.queue];
    var left := m.queues[job.queue := f.(numJobs := f.numJobs - 1, numPend := f.numPend - p, numHeld := f.numHeld - h)];
    var t := left[to];
    m.(jobs := m.jobs[j := job.(queue := to)],
       queues := left[to := t.(numJobs := t.numJobs + 1, numPend := t.numPend + p, numHeld := t.numHeld + h)],
       manifest := m.manifest + [EvMove(j, now, job.queue, to)])
  }

  /** job_priority */
  function SetPriority(m: Tables, j: JobId, priority: int, now: int): Tables
    requires j in m.jobs
  {
    m.(jobs := m.jobs[j := m.jobs[j].(priority := priority)],
       manifest := m.manifest + [EvPriority(j, now, m.jobs[j].priority, priority)])
  }

  /** signal_running_job only logs */
  function SignalRunning(m: Tables, j: JobId, sig: Sig, now: int): Tables {
    m.(manifest := m.manifest + [EvSignal(j, now, sig)])
  }

  // -------------------------------------------------------------------
  // Compaction
  // -------------------------------------------------------------------

  predicate Retained(id: JobId, job: Job) {
    job.depRefcnt > 0 || (job.tag.id == id && job.tag.id != 0 && job.elementCnt > 0)
  }

  /** compact_write_job_start: the first num_hosts entries of run_hosts */
  function StartEvent(id: JobId, job: Job): Event {
    StartOn(id, job, if 0 <= job.nhosts <= |job.runHosts| then job.runHosts[..job.nhosts] else job.runHosts)
  }

  function Rewritten(id: JobId, job: Job): seq<Event> {
    var new_ := [NewEvent(id, job, job.nhosts)];
    var fork := if job.forkTime != 0 then [EvFork(id, job.forkTime, job.pid)] else [];
    match job.list
    case OnPend => new_
    case OnRun => new_ + [StartEvent(id, job)] + fork
    case OnFinish =>
      new_ + (if job.dispatchTime != 0 then [StartEvent(id, job)] + fork else [])
      + [EvFinish(id, job.uid, job.state, job.exitStatus, job.endTime)]
  }

  function RewriteAll(ids: seq<JobId>, jobs: map<JobId, Job>): seq<Event> {
    if ids == [] then []
    else
      var n := |ids| - 1;
      RewriteAll(ids[..n], jobs) + (if ids[n] in jobs then Rewritten(ids[n], jobs[ids[n]]) else [])
  }

  function Keep(ids: seq<JobId>, jobs: map<JobId, Job>): seq<JobId> {
    if ids == [] then []
    else
      var n := |ids| - 1;
      Keep(ids[..n], jobs) + (if ids[n] in jobs && Retained(ids[n], jobs[ids[n]]) then [ids[n]] else [])
  }

  /** manifest_rebuild */
  function Compact(m: Tables): Tables {
    var kept := Keep(m.fin, m.jobs);
    m.(manifest := RewriteAll(m.pend + m.run + kept, m.jobs),
       fin := kept,
       jobs := map j | j in m.jobs && (m.jobs[j].list == OnFinish ==> Retained(j, m.jobs[j])) :: m.jobs[j])
  }

  // -------------------------------------------------------------------
  // Replay
  // -------------------------------------------------------------------

  datatype Option<+T> = None | Some(value: T)

  datatype Replayed = Replayed(jobs: map<JobId, Job>, pend: seq<JobId>, run: seq<JobId>, fin: seq<JobId>)

  /** replay_alloc: tokens, the machine text and the token text are not rebuilt */
  function Allocated(rec: NewRec): Job {
    Job(rec.uid, rec.queue, rec.state, OnPend, rec.priority, rec.submitTime, rec.beginTime, rec.termTime,
        0, 0, 0, 0, 0, rec.exclusive, rec.cpus,
        if |rec.machines| > 0 then |rec.machines| else rec.nhosts,
        rec.mem, rec.storage, rec.machines, [], [], rec.deps, 0, [], rec.tag, 0,
        rec.words.(machines := "", tokenpool := ""))
  }

  /** replay_set_run_hosts: appends up to nhosts names */
  function StartedOn(job: Job, e: Event): seq<HostId>
    requires e.EvStart?
  {
    var room, hosts := e.nhosts - |job.runHosts|, N.HostsNamed(N.Words(e.hosts));
    job.runHosts + (if 0 <= room < |hosts| then hosts[..room] else hosts)
  }

  /** One record.  None: an assert of the replay code fails, a list or the
      host array would be corrupted, or the configuration no longer fits. */
  function ReplayOne(r: Replayed, e: Event, queues: map<QueueId, Queue>): Option<Replayed> {
    if e.EvNew? then
      if e.job in r.jobs || e.rec.queue !in queues then None
      else Some(r.(jobs := r.jobs[e.job := Allocated(e.rec)], pend := r.pend + [e.job]))
    else if e.job !in r.jobs then Some(r)
    else
      var j := e.job;
      var job := r.jobs[j];
      match e
      case EvStart(_, time, nhosts, _, _, _) =>
        var hosts := StartedOn(job, e);
        if job.list != OnPend || |hosts| != nhosts || |hosts| > job.nhosts || job.queue !in queues
           || exists i :: 0 <= i < |hosts| && hosts[i] !in queues[job.queue].members
        then None
        else Some(r.(jobs := r.jobs[j := job.(state := Running, dispatchTime := time, runHosts := hosts, list := OnRun)],
                     pend := Without(r.pend, j), run := r.run + [j]))
      case EvFork(_, time, pid) => Some(r.(jobs := r.jobs[j := job.(pid := pid, forkTime := time)]))
      case EvSignal(_, _, _) => Some(r)
      case EvFinish(_, uid, state, exit, time) =>
        if job.list == OnFinish then None
        else
          var done := job.(state := state, exitStatus := exit, uid := uid, endTime := time, list := OnFinish);
          Some(Replayed(ElementFinished(r.jobs[j := done], job.tag.id),
                        if job.list == OnPend then Without(r.pend, j) else r.pend,
                        if job.list == OnRun then Without(r.run, j) else r.run,
                        r.fin + [j]))
      case EvPendSusp(_, _) =>
        if job.state != Pending then None else Some(r.(jobs := r.jobs[j := job.(state := Held)]))
      case EvPendResume(_, _) =>
        if job.state != Held then None else Some(r.(jobs := r.jobs[j := job.(state := Pending)]))
      case EvMove(_, _, _, to) =>
        if to !in queues then None else Some(r.(jobs := r.jobs[j := job.(queue := to)]))
      case EvPriority(_, _, _, after) => Some(r.(jobs := r.jobs[j := job.(priority := after)]))
      case EvPend(_, _) =>
        if job.list != OnRun then None
        else Some(r.(jobs := r.jobs[j := job.(pid := 0, forkTime := 0, dispatchTime := 0, state := Pending,
                                              runHosts := [], list := OnPend)],
                     run := Without(r.run, j), pend := r.pend + [j]))
  }

  /** jobs_replay, from empty tables */
  function Replay(log: seq<Event>, queues: map<QueueId, Queue>): Option<Replayed> {
    if log == [] then Some(Replayed(map[], [], [], []))
    else
      var n := |log| - 1;
      var r := Replay(log[..n], queues);
      if r.None? then None else ReplayOne(r.value, log[n], queues)
  }

  function MaxId(log: seq<Event>): nat {
    if log == [] then 0
    else
      var n := |log| - 1;
      var before := MaxId(log[..n]);
      if log[n].EvNew? && log[n].job > before then log[n].job else before
  }

  // -------------------------------------------------------------------
  // Restart
  // -------------------------------------------------------------------

  /** A host as configuration leaves it: everything free, nobody connected. */
  function FreshHost(h: Host): Host {
    Host(false, false, false, false, h.totalCpu, h.totalCpu, h.totalMem, h.totalMem,
         h.totalStorage, h.totalStorage, 0, 0, 0)
  }

  function FreshQueue(q: Queue): Queue {
    Queue(q.open, q.priority, q.members, 0, 0, 0, 0, 0, 0)
  }

  /** replay_rebuild_counters, hosts: the loop over run_jobs_list */
  function RebuildHosts(hosts: map<HostId, Host>, run: seq<JobId>, jobs: map<JobId, Job>): map<HostId, Host> {
    if run == [] then hosts
    else
      var n := |run| - 1;
      var before := RebuildHosts(hosts, run[..n], jobs);
      if run[n] in jobs then ChargeAll(before, jobs[run[n]].runHosts, jobs[run[n]]) else before
  }

  /** replay_rebuild_counters, what one job adds to its queue */
  function CountIn(q: Queue, job: Job): Queue {
    if job.list == OnPend then
      q.(numJobs := q.numJobs + 1,
         numHeld := q.numHeld + (if job.state == Held then 1 else 0),
         numPend := q.numPend + (if job.state == Pending then 1 else 0))
    else if job.list == OnRun then
      q.(numJobs := q.numJobs + 1, numRun := q.numRun + 1,
         cpusUsed := q.cpusUsed + job.cpus * |job.runHosts|, hostsUsed := q.hostsUsed + |job.runHosts|)
    else q
  }

  function RebuildQueues(queues: map<QueueId, Queue>, ids: seq<JobId>, jobs: map<JobId, Job>): map<QueueId, Queue> {
    if ids == [] then queues
    else
      var n := |ids| - 1;
      var before := RebuildQueues(queues, ids[..n], jobs);
      if ids[n] in jobs && jobs[ids[n]].queue in before
      then before[jobs[ids[n]].queue := CountIn(before[jobs[ids[n]].queue], jobs[ids[n]])]
      else before
  }

  /** replay_rebuild_counters, dep_refcnt: the second loop over pend_jobs_list */
  function RebuildRefs(jobs: map<JobId, Job>, pend: seq<JobId>): map<JobId, Job> {
    if pend == [] then jobs
    else
      var n := |pend| - 1;
      var before := RebuildRefs(jobs, pend[..n]);
      if pend[n] in before then AdjustRefs(before, before[pend[n]].deps, 1) else before
  }

  /** ... and array_element_cnt, over pending and running jobs */
  function RebuildElements(jobs: map<JobId, Job>, ids: seq<JobId>): map<JobId, Job> {
    if ids == [] then jobs
    else
      var n := |ids| - 1;
      var before := RebuildElements(jobs, ids[..n]);
      if ids[n] !in before || before[ids[n]].tag.id == 0 || before[ids[n]].tag.id !in before then before
      else
        var head := before[ids[n]].tag.id;
        before[head := before[head].(elementCnt := before[head].elementCnt + 1)]
  }

  function FreshHosts(hosts: map<HostId, Host>): map<HostId, Host> {
    map h | h in hosts :: FreshHost(hosts[h])
  }

  function FreshQueues(queues: map<QueueId, Queue>): map<QueueId, Queue> {
    map q | q in queues :: FreshQueue(queues[q])
  }

  function FreshPools(pools: map<PoolId, Pool>): map<PoolId, Pool> {
    map p | p in pools :: Pool(pools[p].total, pools[p].total)
  }

  /** mbd dies and starts again on its manifest. */
  function Restart(m: Tables, r: Replayed): Tables {
    Tables(RebuildElements(RebuildRefs(r.jobs, r.pend), r.pend + r.run),
           r.pend, r.run, r.fin,
           RebuildHosts(FreshHosts(m.hosts), r.run, r.jobs),
           RebuildQueues(FreshQueues(m.queues), r.pend + r.run, r.jobs),
           FreshPools(m.pools),
           if MaxId(m.manifest) > m.savedId then MaxId(m.manifest) else m.savedId,
           m.savedId, m.manifest)
  }

  // -------------------------------------------------------------------
  // Steps
  // -------------------------------------------------------------------

  predicate DistinctHosts(hs: seq<HostId>) {
    forall i, k :: 0 <= i < k < |hs| ==> hs[i] != hs[k]
  }

  /** host_meets_requirements on a marked candidate */
  predicate Meets(h: Host, job: Job) {
    && h.candidate && !h.exclusive && (job.exclusive ==> h.numJobs <= 0)
    && h.freeCpu >= job.cpus && h.freeMem >= job.mem && h.freeStorage >= job.storage
  }

  predicate TokensAvailable(pools: map<PoolId, Pool>, ts: seq<Token>) {
    forall i :: 0 <= i < |ts| ==> ts[i].pool in pools && pools[ts[i].pool].free >= ts[i].count
  }

  /** What schedule() has checked when it dispatches. */
  predicate Placeable(m: Tables, job: Job, plan: seq<HostId>) {
    && |plan| == job.nhosts && DistinctHosts(plan) && job.queue in m.queues
    && (forall i :: 0 <= i < |plan| ==>
          plan[i] in m.hosts && plan[i] in m.queues[job.queue].members && Meets(m.hosts[plan[i]], job))
    && TokensAvailable(m.pools, job.tokens)
  }

  datatype Up = Up(ok: bool, connected: bool)

  datatype Step =
    | DoSubmit(req: Request)
    | DoFailSubmit(drawn: nat)
    | DoDispatch(j: JobId, plan: seq<HostId>)
    | DoFork(j: JobId, pid: int)
    | DoReject(j: JobId)
    | DoMissing(j: JobId)
    | DoFinish(j: JobId, success: bool, exit: int)
    | DoKill(j: JobId, sig: Sig)
    | DoHold(j: JobId, sig: Sig)
    | DoResume(j: JobId, sig: Sig)
    | DoMove(j: JobId, to: QueueId)
    | DoPriority(j: JobId, priority: int)
    | DoSignal(j: JobId, sig: Sig)
    | DoMark(up: map<HostId, Up>)
    | DoCompact
    | DoRestart

  predicate OnList(m: Tables, j: JobId, list: JobList) {
    j in m.jobs && m.jobs[j].list == list && m.jobs[j].queue in m.queues
  }

  predicate Enabled(m: Tables, step: Step, now: int) {
    && now > 0
    && match step
       case DoSubmit(req) => GoodRequest(m, req)
       case DoFailSubmit(_) => true
       case DoDispatch(j, plan) =>
         OnList(m, j, OnPend) && m.jobs[j].state == Pending && Placeable(m, m.jobs[j], plan)
       case DoFork(j, _) => OnList(m, j, OnRun) && m.jobs[j].forkTime == 0
       case DoReject(j) => OnList(m, j, OnRun)
       case DoMissing(j) => OnList(m, j, OnRun)
       case DoFinish(j, _, _) => OnList(m, j, OnRun)
       case DoKill(j, _) => OnList(m, j, OnPend)
       case DoHold(j, _) => OnList(m, j, OnPend) && m.jobs[j].state == Pending
       case DoResume(j, _) => OnList(m, j, OnPend) && m.jobs[j].state == Held
       case DoMove(j, to) => OnList(m, j, OnPend) && to in m.queues
       case DoPriority(j, priority) => j in m.jobs && m.jobs[j].list != OnFinish && priority >= 0
       case DoSignal(j, _) => OnList(m, j, OnRun)
       case DoMark(up) => up.Keys == m.hosts.Keys
       case DoCompact => true
       case DoRestart => true
  }

  /** mark_candidates */
  function Marked(h: Host): Host {
    h.(candidate := h.ok && h.connected && h.freeCpu > 0)
  }

  /** Administrators and connections between cycles, then mark_candidates. */
  function Mark(hosts: map<HostId, Host>, up: map<HostId, Up>): map<HostId, Host>
    requires up.Keys == hosts.Keys
  {
    map h | h in hosts :: Marked(hosts[h].(ok := up[h].ok, connected := up[h].connected))
  }

  function Next(m: Tables, step: Step, now: int): Tables
    requires Enabled(m, step, now)
  {
    match step
    case DoSubmit(req) => Submit(m, req, now)
    case DoFailSubmit(drawn) => m.(lastId := m.lastId + drawn)
    case DoDispatch(j, plan) => Dispatch(m, j, plan, now)
    case DoFork(j, pid) => Fork(m, j, pid, now)
    case DoReject(j) => Reject(m, j, now)
    case DoMissing(j) => Missing(m, j, now)
    case DoFinish(j, success, exit) => Finish(m, j, success, exit, now)
    case DoKill(j, sig) => Kill(m, j, sig, now)
    case DoHold(j, sig) => SetHeld(m, j, true, sig, now)
    case DoResume(j, sig) => SetHeld(m, j, false, sig, now)
    case DoMove(j, to) => Move(m, j, to, now)
    case DoPriority(j, priority) => SetPriority(m, j, priority, now)
    case DoSignal(j, sig) => SignalRunning(m, j, sig, now)
    case DoMark(up) => m.(hosts := Mark(m.hosts, up))
    case DoCompact => Compact(m)
    case DoRestart =>
      var r := Replay(m.manifest, m.queues);
      if r.None? then m else Restart(m, r.value)
  }

  predicate Init(m: Tables) {
    && m.jobs == map[] && m.pend == [] && m.run == [] && m.fin == [] && m.manifest == []
    && m.lastId == 0 && m.savedId == 0
    && (forall h :: h in m.hosts ==>
          m.hosts[h] == FreshHost(m.hosts[h])
          && m.hosts[h].totalCpu >= 0 && m.hosts[h].totalMem >= 0 && m.hosts[h].totalStorage >= 0)
    && (forall q :: q in m.queues ==> m.queues[q] == FreshQueue(m.queues[q]))
    && (forall p :: p in m.pools ==> m.pools[p].total == m.pools[p].free && m.pools[p].total >= 0)
  }

  predicate IsRun(tr: seq<Tables>, steps: seq<Step>, clock: seq<int>) {
    && |tr| == |steps| + 1 && |clock| == |steps|
    && Init(tr[0])
    && forall i :: 0 <= i < |steps| ==>
         Enabled(tr[i], steps[i], clock[i]) && tr[i + 1] == Next(tr[i], steps[i], clock[i])
  }
}
