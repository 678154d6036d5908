/**
 The manifest as text: each event is a record of the log, and reading the file
 back gives the events, as far as their fields and lines hold them.
 */
module ManifestText {
  import opened Mbd
  import D = Dependency
  import P = DependencyProofs
  import F = LogFormat
  import L = LogFile
  import N = Names

  /** enum job_state, without the states outside this model. */
  function StateNumber(s: JobState): int {
    match s
    case Pending => 1
    case Held => 2
    case Running => 3
    case Exited => 5
    case Done => 6
  }

  function StateOf(n: int): Option<JobState> {
    if n == 1 then Some(Pending) else if n == 2 then Some(Held) else if n == 3 then Some(Running)
    else if n == 5 then Some(Exited) else if n == 6 then Some(Done) else None
  }

  // -------------------------------------------------------------------
  // What the strings mean
  // -------------------------------------------------------------------

  /** Host groups of the configuration, with the names they list. */
  type Groups = map<string, seq<string>>

  function Flattened(groups: Groups, ws: seq<string>): seq<string> {
    if ws == [] then [] else (if ws[0] in groups then groups[ws[0]] else [ws[0]]) + Flattened(groups, ws[1..])
  }

  /** Each name once, as in a hash. */
  function Once(ws: seq<string>): seq<string> {
    if ws == [] then []
    else
      var before, w := Once(ws[..|ws| - 1]), ws[|ws| - 1];
      if w in before then before else before + [w]
  }

  /** machines_hash_populate */
  function Machines(groups: Groups, text: string): seq<HostId> {
    N.HostsNamed(Once(Flattened(groups, N.Words(text))))
  }

  /** job_replay_deps */
  function DepsOf(text: string): seq<D.Instr> {
    var p := D.Parse(text, P.AnyJob);
    if text == "" || !p.Ok? then [] else D.Postfix(p.tree)
  }

  predicate Parses(text: string) {
    text == "" || D.Parse(text, P.AnyJob).Ok?
  }

  /** JOB_FLAG_EXCLUSIVE */
  predicate ExclusiveBit(flags: nat) {
    flags % 2 == 1
  }

  // -------------------------------------------------------------------
  // Events and records
  // -------------------------------------------------------------------

  function NewRecord(j: JobId, rec: NewRec): F.Record {
    F.Record(F.JobNew, rec.submitTime,
             [j, rec.tag.id, rec.tag.index, rec.tag.start, rec.tag.end, rec.tag.stride, rec.uid, rec.words.gid,
              StateNumber(rec.state), rec.priority, rec.beginTime, rec.termTime, rec.cpus, rec.nhosts, 0,
              rec.mem, rec.storage, rec.words.flags],
             [rec.words.user, rec.words.name, rec.queue.name, rec.words.project, rec.words.gpuModel,
              rec.words.machines, rec.words.tokenpool, rec.words.depend])
  }

  /** event_job_*: the record an event is written as */
  function Encoded(e: Event): F.Record {
    match e
    case EvNew(j, rec) => NewRecord(j, rec)
    case EvStart(j, time, nhosts, cpus, model, hosts) => F.Record(F.JobStart, time, [j, nhosts, cpus, 0], [model, "", hosts])
    case EvFork(j, time, pid) => F.Record(F.JobFork, time, [j, pid], [])
    case EvSignal(j, time, sig) => F.Record(F.JobSignal, time, [j, sig.number, sig.uid], [])
    case EvFinish(j, uid, state, exit, time) => F.Record(F.JobFinish, time, [j, uid, StateNumber(state), exit], [])
    case EvPendSusp(j, time) => F.Record(F.JobPendSusp, time, [j], [])
    case EvPendResume(j, time) => F.Record(F.JobPendResume, time, [j], [])
    case EvMove(j, time, from, to) => F.Record(F.JobMove, time, [j], [from.name, to.name])
    case EvPriority(j, time, before, after) => F.Record(F.JobPriority, time, [j, before, after], [])
    case EvPend(j, time) => F.Record(F.JobPend, time, [j], [])
  }

  predicate Shaped(r: F.Record) {
    |r.nums| == |F.SchemaOf(r.event).nums| && |r.texts| == |F.SchemaOf(r.event).texts|
  }

  /** What replay makes of JOB_NEW; None for what is not in this model. */
  function NewDecoded(r: F.Record, groups: Groups): Option<Event>
    requires r.event == F.JobNew && Shaped(r)
  {
    var n, t := r.nums, r.texts;
    var state := StateOf(n[8]);
    if n[0] < 0 || n[1] < 0 || n[6] < 0 || n[7] < 0 || n[14] != 0 || n[15] < 0 || n[16] < 0 || n[17] < 0 || state.None? then None
    else
      Some(EvNew(n[0], NewRec(n[6], state.value, n[9], r.time, n[10], n[11], n[12], n[13], n[15], n[16], ExclusiveBit(n[17]),
                              N.QueueId(t[2]), Machines(groups, t[5]), DepsOf(t[7]), ArrayTag(n[1], n[2], n[3], n[4], n[5]),
                              Words(n[7], n[17], t[0], t[1], t[3], t[4], t[5], t[6], if Parses(t[7]) then t[7] else ""))))
  }

  /** replay_job_*: the event a record is taken for */
  function Decoded(r: F.Record, groups: Groups): Option<Event> {
    if !Shaped(r) || r.nums[0] < 0 then None
    else
      var n, t, j := r.nums, r.texts, r.nums[0];
      match r.event
      case JobNew => NewDecoded(r, groups)
      case JobStart => Some(EvStart(j, r.time, n[1], n[2], t[0], t[2]))
      case JobFork => Some(EvFork(j, r.time, n[1]))
      case JobSignal => if n[2] < 0 then None else Some(EvSignal(j, r.time, Sig(n[1], n[2])))
      case JobFinish =>
        var state := StateOf(n[2]);
        if n[1] < 0 || state.None? then None else Some(EvFinish(j, n[1], state.value, n[3], r.time))
      case JobPendSusp => Some(EvPendSusp(j, r.time))
      case JobPendResume => Some(EvPendResume(j, r.time))
      case JobSusp => None
      case JobMove => Some(EvMove(j, r.time, N.QueueId(t[0]), N.QueueId(t[1])))
      case JobPriority => Some(EvPriority(j, r.time, n[1], n[2]))
      case JobPend => Some(EvPend(j, r.time))
  }

  function DecodeAll(rs: seq<F.Record>, groups: Groups): Option<seq<Event>> {
    if rs == [] then Some([])
    else
      var n := |rs| - 1;
      var before, last := DecodeAll(rs[..n], groups), Decoded(rs[n], groups);
      if before.None? || last.None? then None else Some(before.value + [last.value])
  }

  function RecordsOf(log: seq<Event>): seq<F.Record> {
    seq(|log|, i requires 0 <= i < |log| => Encoded(log[i]))
  }

  /** The file. */
  function TextOf(log: seq<Event>): string {
    L.Lines(RecordsOf(log))
  }

  /** jobs_replay on the file */
  function ReplayText(text: string, groups: Groups, queues: map<QueueId, Queue>): Option<Replayed> {
    var log := DecodeAll(L.ReadLog(text), groups);
    if log.None? then None else Replay(log.value, queues)
  }

  // -------------------------------------------------------------------
  // Events come back from their records
  // -------------------------------------------------------------------

  /** The fields of a new job are what its strings say. */
  predicate Meant(rec: NewRec, groups: Groups) {
    && rec.machines == Machines(groups, rec.words.machines) && rec.deps == DepsOf(rec.words.depend) && Parses(rec.words.depend)
    && rec.exclusive == ExclusiveBit(rec.words.flags)
  }

  predicate EventMeant(e: Event, groups: Groups) {
    e.EvNew? ==> Meant(e.rec, groups)
  }

  ghost predicate LogMeant(log: seq<Event>, groups: Groups) {
    forall i :: 0 <= i < |log| ==> EventMeant(log[i], groups)
  }

  lemma {:induction false} NewComesBack(j: JobId, rec: NewRec, groups: Groups)
    requires Meant(rec, groups)
    ensures Decoded(NewRecord(j, rec), groups) == Some(EvNew(j, rec))
  {
    hide Machines, DepsOf, Parses;
  }

  lemma {:induction false} EventComesBack(e: Event, groups: Groups)
    requires EventMeant(e, groups)
    ensures Decoded(Encoded(e), groups) == Some(e)
  {
    hide Machines, DepsOf, Parses, NewDecoded, NewRecord, Meant;
    if e.EvNew? { NewComesBack(e.job, e.rec, groups); }
  }

  lemma {:induction false} LogComesBack(log: seq<Event>, groups: Groups)
    requires LogMeant(log, groups)
    ensures DecodeAll(RecordsOf(log), groups) == Some(log)
  {
    hide Encoded, Decoded, EventMeant;
    if log != [] {
      var n := |log| - 1;
      LogComesBack(log[..n], groups);
      EventComesBack(log[n], groups);
      assert RecordsOf(log)[..n] == RecordsOf(log[..n]);
      assert log == log[..n] + [log[n]];
    }
  }

  /** What a log carries is replayed from its text as from its events. */
  lemma {:induction false} TextIsReplayed(log: seq<Event>, groups: Groups, queues: map<QueueId, Queue>)
    requires LogMeant(log, groups) && L.Carries(RecordsOf(log))
    ensures ReplayText(TextOf(log), groups, queues) == Replay(log, queues)
  {
    hide RecordsOf, DecodeAll, Replay, L.ReadLog, L.Lines;
    LogComesBack(log, groups);
    var rs := RecordsOf(log);
    assert L.Lines(rs) + "" == L.Lines(rs);
    NothingRead();
    assert rs + [] == rs;
  }

  lemma {:induction false} NothingRead()
    ensures L.ReadLog("") == []
  {
  }
}
