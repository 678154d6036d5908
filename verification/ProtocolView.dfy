/**
 The protocol as one job sees it.

 Projecting every queue of a host onto the messages about one job gives a
 `View`.  The invariant of the protocol is a condition on each job's record at
 mbd and its views at the hosts, and no condition mentions two jobs.
 */
module ProtocolView {
  import opened Protocol

  /** A mbd -> sbd message as far as one job is concerned. */
  datatype Note = NoteNew(epoch: nat) | NoteAck(epoch: nat) | NoteFin | NoteListed(pid: int)

  datatype View = View(
    mem: Option<SbdJob>,
    file: Option<SbdFile>,
    mbdUp: bool,
    sbdUp: bool,
    joined: bool,
    up: seq<Up>,
    waiting: Option<seq<Up>>,
    stale: seq<seq<Up>>,
    down: seq<Note>)

  function UpOf(q: seq<Up>, j: JobId): seq<Up> {
    if q == [] then [] else (if q[0].job == j then [q[0]] else []) + UpOf(q[1..], j)
  }

  function ListedOf(ws: seq<WireJob>, j: JobId): seq<Note> {
    if ws == [] then []
    else (if ws[0].job == j then [NoteListed(ws[0].pid)] else []) + ListedOf(ws[1..], j)
  }

  function NotesOf(d: Down, j: JobId): seq<Note> {
    match d
    case NewJob(k, e) => if k == j then [NoteNew(e)] else []
    case ReplyAck(k, e) => if k == j then [NoteAck(e)] else []
    case FinishAck(k) => if k == j then [NoteFin] else []
    case RegisterAck(ws) => ListedOf(ws, j)
  }

  function DownOf(q: seq<Down>, j: JobId): seq<Note> {
    if q == [] then [] else NotesOf(q[0], j) + DownOf(q[1..], j)
  }

  function StaleOf(qs: seq<seq<Up>>, j: JobId): seq<seq<Up>> {
    seq(|qs|, i requires 0 <= i < |qs| => UpOf(qs[i], j))
  }

  function ViewOf(h: Host, j: JobId): View {
    View(if j in h.mem then Some(h.mem[j]) else None,
         if j in h.disk then Some(h.disk[j]) else None,
         h.mbdUp, h.sbdUp, h.joined,
         UpOf(h.up, j),
         if h.waiting.Some? then Some(UpOf(h.waiting.value, j)) else None,
         StaleOf(h.stale, j),
         DownOf(h.down, j))
  }

  // -------------------------------------------------------------------
  // Projection laws
  // -------------------------------------------------------------------

  lemma {:induction false} UpOfConcat(a: seq<Up>, b: seq<Up>, j: JobId)
    ensures UpOf(a + b, j) == UpOf(a, j) + UpOf(b, j)
  {
    if a == [] {
      assert a + b == b;
    } else {
      assert (a + b)[0] == a[0] && (a + b)[1..] == a[1..] + b;
      UpOfConcat(a[1..], b, j);
      UpAssoc(if a[0].job == j then [a[0]] else [], UpOf(a[1..], j), UpOf(b, j));
    }
  }

  lemma {:induction false} UpAssoc(a: seq<Up>, b: seq<Up>, c: seq<Up>)
    ensures a + (b + c) == (a + b) + c
  {
  }

  lemma {:induction false} DownOfConcat(a: seq<Down>, b: seq<Down>, j: JobId)
    ensures DownOf(a + b, j) == DownOf(a, j) + DownOf(b, j)
  {
    if a == [] {
      assert a + b == b;
    } else {
      assert (a + b)[1..] == a[1..] + b;
      DownOfConcat(a[1..], b, j);
    }
  }

  lemma {:induction false} UpOfTake(q: seq<Up>, keep: nat, j: JobId)
    ensures UpOf(Take(q, keep), j) <= UpOf(q, j)
  {
    if keep <= |q| {
      assert q == q[..keep] + q[keep..];
      UpOfConcat(q[..keep], q[keep..], j);
    }
  }

  lemma {:induction false} DownOfTake(q: seq<Down>, keep: nat, j: JobId)
    ensures DownOf(Take(q, keep), j) <= DownOf(q, j)
  {
    if keep <= |q| {
      assert q == q[..keep] + q[keep..];
      DownOfConcat(q[..keep], q[keep..], j);
    }
  }

  lemma {:induction false} UpOfAbout(q: seq<Up>, j: JobId)
    ensures forall i :: 0 <= i < |UpOf(q, j)| ==> UpOf(q, j)[i].job == j
  {
    if q != [] { UpOfAbout(q[1..], j); }
  }

  function ViewMbdSend(v: View, notes: seq<Note>): View {
    if v.joined then v.(down := v.down + notes) else v
  }

  function ViewSbdSend(v: View, us: seq<Up>): View {
    if v.joined then v.(up := v.up + us)
    else if v.waiting.Some? then v.(waiting := Some(v.waiting.value + us))
    else v
  }

  lemma {:induction false} MbdSendView(h: Host, d: Down, j: JobId)
    ensures ViewOf(MbdSend(h, d), j) == ViewMbdSend(ViewOf(h, j), NotesOf(d, j))
    ensures NotesOf(d, j) == [] ==> ViewOf(MbdSend(h, d), j) == ViewOf(h, j)
  {
    DownOfConcat(h.down, [d], j);
    assert DownOf([d], j) == NotesOf(d, j) + DownOf([], j);
  }

  lemma {:induction false} SbdSendView(h: Host, u: Up, j: JobId)
    ensures ViewOf(SbdSend(h, u), j)
         == if u.job == j then ViewSbdSend(ViewOf(h, j), [u]) else ViewOf(h, j)
  {
    UpOfConcat(h.up, [u], j);
    assert [u][1..] == [] && UpOf([u][1..], j) == [];
    assert UpOf([u], j) == if u.job == j then [u] else [];
    assert UpOf(h.up, j) + [] == UpOf(h.up, j);
    if h.waiting.Some? {
      UpOfConcat(h.waiting.value, [u], j);
      assert UpOf(h.waiting.value, j) + [] == UpOf(h.waiting.value, j);
    }
  }

  // -------------------------------------------------------------------
  // The invariant of one job
  // -------------------------------------------------------------------

  predicate Quiet(v: View) {
    && v.up == []
    && (v.waiting.Some? ==> v.waiting.value == [])
    && forall i :: 0 <= i < |v.stale| ==> v.stale[i] == []
  }

  predicate OnlyAcks(notes: seq<Note>) {
    forall i :: 0 <= i < |notes| ==> notes[i].NoteAck?
  }

  predicate Absent(v: View) {
    v.mem.None? && v.file.None?
  }

  /** Nothing about the job at this host, except acks nobody is waiting for. */
  predicate Clear(v: View) {
    Absent(v) && Quiet(v) && OnlyAcks(v.down)
  }

  /** u is what a host that runs the job as `pid` may have sent about it. */
  predicate Report(u: Up, j: JobId, pid: int, e: nat, acked: bool) {
    u == ReplyOk(j, pid, e) || (acked && u == Finish(j, e))
  }

  predicate Reports(q: seq<Up>, j: JobId, pid: int, e: nat, acked: bool) {
    forall i :: 0 <= i < |q| ==> Report(q[i], j, pid, e, acked)
  }

  predicate AllReports(v: View, j: JobId, pid: int, e: nat, acked: bool) {
    && Reports(v.up, j, pid, e, acked)
    && (v.waiting.Some? ==> Reports(v.waiting.value, j, pid, e, acked))
    && forall i :: 0 <= i < |v.stale| ==> Reports(v.stale[i], j, pid, e, acked)
  }

  predicate NoFinish(q: seq<Up>) {
    forall i :: 0 <= i < |q| ==> !q[i].Finish?
  }

  /** sbd has sent a finish on the channel it is using. */
  predicate FinishSent(v: View) {
    (v.joined && !NoFinish(v.up)) || (v.waiting.Some? && !NoFinish(v.waiting.value))
  }

  predicate FileMatches(v: View) {
    && v.mem.Some? && v.file.Some? && !v.file.value.finishAcked
    && v.mem.value.pid > 0
    && v.file.value.job.pid == v.mem.value.pid
    && v.file.value.job.epoch == v.mem.value.epoch
    && v.file.value.job.pidAcked == v.mem.value.pidAcked
  }

  /** The dispatch is on its way, behind acks of earlier dispatches. */
  predicate OnItsWay(v: View, m: MbdJob) {
    && Absent(v) && Quiet(v) && !m.forked && m.pid == 0
    && |v.down| > 0
    && v.down[|v.down| - 1] == NoteNew(m.epoch)
    && OnlyAcks(v.down[..|v.down| - 1])
  }

  predicate HeldNote(note: Note, first: bool, job: SbdJob, forked: bool) {
    match note
    case NoteAck(e) => e == job.epoch && forked
    case NoteListed(q) => first && (if q == 0 then !job.pidAcked else q == job.pid)
    case NoteNew(_) => false
    case NoteFin => false
  }

  /** The host runs the job. */
  predicate HeldHere(v: View, m: MbdJob, j: JobId) {
    && FileMatches(v)
    && var job := v.mem.value;
    && job.epoch == m.epoch
    && (job.pidAcked ==> m.forked)
    && m.pid == (if m.forked then job.pid else 0)
    && AllReports(v, j, job.pid, job.epoch, job.pidAcked)
    && (FinishSent(v) ==> job.exitValid)
    && forall i :: 0 <= i < |v.down| ==> HeldNote(v.down[i], i == 0, job, m.forked)
  }

  /** The host answers: refused, or (re-registering) not there. */
  predicate Answered(v: View, m: MbdJob, j: JobId) {
    && Absent(v) && Quiet(v.(up := [])) && !m.forked && m.pid == 0 && OnlyAcks(v.down)
    && (v.up == [ReplyErr(j, m.epoch)] || v.up == [Missing(j)])
  }

  /** mbd asks a re-registered host about the job. */
  predicate Asked(v: View, m: MbdJob) {
    && Absent(v) && Quiet(v) && !m.forked && m.pid == 0
    && |v.down| > 0 && v.down[0] == NoteListed(0) && OnlyAcks(v.down[1..])
  }

  /** The dispatch or its answer went down with a connection. */
  predicate Lost(v: View, m: MbdJob) {
    Clear(v) && !m.forked && m.pid == 0 && !v.joined
  }

  predicate Active(v: View, m: MbdJob, j: JobId) {
    OnItsWay(v, m) || HeldHere(v, m, j) || Answered(v, m, j) || Asked(v, m) || Lost(v, m)
  }

  predicate EndedNote(note: Note, first: bool, mem: Option<SbdJob>) {
    match note
    case NoteAck(_) => true
    case NoteFin => mem.Some? ==> mem.value.exitValid
    case NoteListed(q) => first && mem.Some? && q == mem.value.pid
    case NoteNew(_) => false
  }

  predicate Traces(v: View, j: JobId, pid: int, e: nat) {
    && AllReports(v, j, pid, e, true)
    && (v.mem.Some? ==> v.mem.value.pid == pid && v.mem.value.epoch == e)
  }

  /** mbd is done with the job; the host may not know yet. */
  predicate Ended(v: View, j: JobId) {
    && (if v.mem.Some? then FileMatches(v) && v.mem.value.pidAcked
        else v.file.Some? ==> v.file.value.finishAcked)
    && (FinishSent(v) && v.mem.Some? ==> v.mem.value.exitValid)
    && forall i :: 0 <= i < |v.down| ==> EndedNote(v.down[i], i == 0, v.mem)
  }

  predicate ReplyOrFinish(q: seq<Up>) {
    forall i :: 0 <= i < |q| ==> q[i].ReplyOk? || q[i].Finish?
  }

  predicate SomeReports(v: View) {
    && ReplyOrFinish(v.up)
    && (v.waiting.Some? ==> ReplyOrFinish(v.waiting.value))
    && forall i :: 0 <= i < |v.stale| ==> ReplyOrFinish(v.stale[i])
  }

  predicate NoTraces(v: View) {
    Quiet(v) && v.mem.None?
  }

  datatype Role = Idle | Live(m: MbdJob) | Over(rec: Option<MbdJob>)

  function RoleOf(s: State, j: JobId): Role {
    if j in s.jobs then
      match s.jobs[j].phase
      case Running => Live(s.jobs[j])
      case Finished => Over(Some(s.jobs[j]))
      case Pending => Idle
      case Held => Idle
    else if j <= s.lastId then Over(None)
    else Idle
  }

  predicate HoldsAt(s: State, n: HostId, j: JobId) {
    n in s.hosts && j in s.hosts[n].mem
  }

  /** What a finished job may have left at host n: reports of its one spawn. */
  predicate EndedAt(v: View, n: HostId, j: JobId, rec: Option<MbdJob>) {
    && Ended(v, j)
    && (if rec.Some? then
          if rec.value.host == Some(n) && rec.value.forked
          then Traces(v, j, rec.value.pid, rec.value.epoch)
          else NoTraces(v)
        else SomeReports(v))
  }

  ghost predicate JobInv(s: State, j: JobId) {
    match RoleOf(s, j)
    case Idle =>
      && (j in s.jobs ==> !s.jobs[j].forked && s.jobs[j].pid == 0)
      && forall n :: n in s.hosts ==> Clear(ViewOf(s.hosts[n], j))
    case Live(m) =>
      && m.host.Some? && m.host.value in s.hosts
      && Active(ViewOf(s.hosts[m.host.value], j), m, j)
      && forall n :: n in s.hosts && n != m.host.value ==> Clear(ViewOf(s.hosts[n], j))
    case Over(rec) =>
      && (forall n :: n in s.hosts ==> EndedAt(ViewOf(s.hosts[n], j), n, j, rec))
      && (forall n, k :: HoldsAt(s, n, j) && HoldsAt(s, k, j) ==> n == k)
  }

  predicate LinkOk(h: Host) {
    && (h.joined ==> h.mbdUp && h.sbdUp && h.waiting.None?)
    && (!h.mbdUp ==> h.up == [])
    && (h.waiting.Some? ==> h.sbdUp && h.down == [])
    && (!h.sbdUp ==> h.down == [] && h.waiting.None?)
  }

  predicate Distinct(run: seq<JobId>) {
    forall i, k :: 0 <= i < k < |run| ==> run[i] != run[k]
  }

  /** run_jobs_list holds exactly the running jobs, each once. */
  ghost predicate RunListOk(s: State) {
    && Distinct(s.run)
    && forall j :: j in s.run <==> j in s.jobs && s.jobs[j].phase == Running
  }

  ghost predicate TablesOk(s: State) {
    && RunListOk(s)
    && (forall j :: j in s.jobs ==> 0 < j <= s.lastId)
    && (forall n :: n in s.hosts ==> LinkOk(s.hosts[n]))
  }

  ghost predicate Inv(s: State) {
    TablesOk(s) && forall j: JobId :: JobInv(s, j)
  }
}
