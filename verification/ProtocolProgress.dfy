/**
 Every report is answered and every answer is acted on, so that no dispatch
 and no job on a host is ever stuck: what is needed to settle it can happen,
 from every state of every run.
 */
module ProtocolProgress {
  import opened Protocol
  import opened ProtocolView
  import opened ProtocolSteps
  import opened ProtocolMbd
  import opened ProtocolSafety

  // -------------------------------------------------------------------
  // What mbd does with a report
  // -------------------------------------------------------------------

  /** mbd has sent ds to the host, which reads them if the connection is whole. */
  predicate Says(s: State, t: State, n: HostId, ds: seq<Down>) {
    && n in s.hosts && n in t.hosts
    && t.hosts[n].down == s.hosts[n].down + (if s.hosts[n].joined then ds else [])
  }

  /** mbd has read the first report of host n: a finish ends the job and is
      acked, also the second time and after the job is purged; a reply with a
      pid is recorded and acked; a refusal is acked and, like a missing job,
      sends the job back to pending. */
  ghost predicate Handled(s: State, t: State, n: HostId)
    requires n in s.hosts && s.hosts[n].up != []
  {
    var u := s.hosts[n].up[0];
    var j := u.job;
    && n in t.hosts && t.hosts == s.hosts[n := s.hosts[n].(up := s.hosts[n].up[1..], down := t.hosts[n].down)]
    && (forall k :: k != j ==> SameRecord(s, t, k)) && (j in t.jobs <==> j in s.jobs)
    && match u
       case Finish(_, _) =>
         Says(s, t, n, [FinishAck(j)]) && j !in t.run && (j in t.jobs ==> t.jobs[j].phase == Finished)
       case ReplyOk(_, pid, e) =>
         if j in s.jobs
         then Says(s, t, n, [ReplyAck(j, e)]) && t.jobs[j] == s.jobs[j].(forked := true, pid := pid)
         else Says(s, t, n, [])
       case ReplyErr(_, e) =>
         && Says(s, t, n, [ReplyAck(j, e)]) && j !in t.run
         && j in t.jobs && t.jobs[j].phase == Pending && t.jobs[j].host == None && !t.jobs[j].forked
       case Missing(_) =>
         && Says(s, t, n, []) && j !in t.run
         && j in t.jobs && t.jobs[j].phase == Pending && !t.jobs[j].forked
  }

  lemma {:induction false} ReportHandled(s: State, n: HostId)
    requires Inv(s) && Enabled(s, MbdReceive(n))
    ensures Handled(s, Next(s, MbdReceive(n)), n)
  {
    ReceiveKeeps(s, n);
    ReceiveShape(s, n);
    var t := Next(s, MbdReceive(n));
    var j := s.hosts[n].up[0].job;
    assert RunListOk(t) && (j in t.run <==> j in t.jobs && t.jobs[j].phase == Running);
    hide Inv, Without;
  }

  // -------------------------------------------------------------------
  // What an sbd does with a message
  // -------------------------------------------------------------------

  /** us is what the host's sbd has sent on. */
  predicate Sends(h: Host, g: Host, us: seq<Up>) {
    if h.joined then g.up == h.up + us
    else g.up == h.up && (h.waiting.Some? ==> g.waiting == Some(h.waiting.value + us))
  }

  /** The listed jobs the host does not have. */
  function Lacking(ws: seq<WireJob>, mem: map<JobId, SbdJob>): seq<Up> {
    if ws == [] then []
    else (if ws[0].job !in mem then [Missing(ws[0].job)] else []) + Lacking(ws[1..], mem)
  }

  /** The sbd has read its first message: a dispatch is spawned and answered
      with its pid, or refused; an acked job is marked, in its file too; a job
      whose finish is acked is gone, and would not be reloaded; of the jobs mbd
      lists, those that are not there are reported missing. */
  ghost predicate Obeyed(h: Host, g: Host, spawned: Option<int>)
    requires h.down != []
  {
    && g.down == h.down[1..] && g.mbdUp == h.mbdUp && g.sbdUp == h.sbdUp && g.joined == h.joined && g.stale == h.stale
    && match h.down[0]
       case NewJob(j, e) =>
         if spawned.Some?
         then && g.mem == h.mem[j := SbdJob(spawned.value, false, false, e)] && j in LoadAll(g.disk)
              && Sends(h, g, [ReplyOk(j, spawned.value, e)])
         else g.mem == h.mem && j !in LoadAll(g.disk) && Sends(h, g, [ReplyErr(j, e)])
       case ReplyAck(j, _) =>
         && Sends(h, g, []) && g.mem.Keys == h.mem.Keys && (forall k :: k in h.mem && k != j ==> g.mem[k] == h.mem[k])
         && (j in h.mem ==> g.mem[j] == h.mem[j].(pidAcked := true) && j in LoadAll(g.disk) && LoadAll(g.disk)[j].pidAcked)
       case FinishAck(j) =>
         Sends(h, g, []) && g.mem == h.mem - {j} && j !in LoadAll(g.disk)
       case RegisterAck(ws) =>
         && g.disk == h.disk && g.mem.Keys == h.mem.Keys && Sends(h, g, Lacking(ws, h.mem))
         && forall k :: k in h.mem ==> g.mem[k] == h.mem[k]
  }

  /** What the invariant says about the pids mbd lists. */
  ghost predicate ListFits(h: Host, ws: seq<WireJob>) {
    forall i :: 0 <= i < |ws| && ws[i].job in h.mem && ws[i].pid <= 0 ==> !h.mem[ws[i].job].pidAcked
  }

  lemma {:induction false} ListObeyed(h: Host, ws: seq<WireJob>)
    requires ListFits(h, ws)
    ensures var g := SbdRegisterAck(h, ws);
            && g == h.(up := g.up, waiting := g.waiting) && Sends(h, g, Lacking(ws, h.mem))
    decreases |ws|
  {
    assert h.waiting.Some? ==> h.waiting.value + [] == h.waiting.value;
    if ws != [] {
      var e := SbdRegisterEntry(h, ws[0]);
      assert ws[0].job in h.mem && ws[0].pid <= 0 ==> e.mem == h.mem;
      assert e == h.(up := e.up, waiting := e.waiting);
      assert ListFits(e, ws[1..]);
      ListObeyed(e, ws[1..]);
      var first := if ws[0].job !in h.mem then [Missing(ws[0].job)] else [];
      Further(h.up, first, Lacking(ws[1..], h.mem));
      assert h.joined ==> e.up == h.up + first;
      if h.waiting.Some? {
        Further(h.waiting.value, first, Lacking(ws[1..], h.mem));
        assert !h.joined ==> e.waiting == Some(h.waiting.value + first);
      }
    }
  }

  lemma {:induction false} Further(a: seq<Up>, b: seq<Up>, c: seq<Up>)
    ensures (a + b) + c == a + (b + c)
  {
  }

  lemma {:induction false} ListIsFit(s: State, n: HostId)
    requires Inv(s) && n in s.hosts && s.hosts[n].down != [] && s.hosts[n].down[0].RegisterAck?
    ensures ListFits(s.hosts[n], s.hosts[n].down[0].jobs)
  {
    var h := s.hosts[n];
    var ws := h.down[0].jobs;
    forall i | 0 <= i < |ws| && ws[i].job in h.mem && ws[i].pid <= 0
      ensures !h.mem[ws[i].job].pidAcked
    {
      var j := ws[i].job;
      ListedMember(ws, i);
      var k :| 0 <= k < |ListedOf(ws, j)| && ListedOf(ws, j)[k] == NoteListed(ws[i].pid);
      assert DownOf(h.down, j) == ListedOf(ws, j) + DownOf(h.down[1..], j);
      assert JobInv(s, j);
      ListedPid(s, n, j, k);
    }
  }

  /** Nobody has a job that is being sent to him. */
  lemma {:induction false} NewIsNew(s: State, n: HostId)
    requires Inv(s) && n in s.hosts && s.hosts[n].down != [] && s.hosts[n].down[0].NewJob?
    ensures s.hosts[n].down[0].job !in s.hosts[n].mem && s.hosts[n].down[0].job !in s.hosts[n].disk
  {
    var d := s.hosts[n].down[0];
    assert JobInv(s, d.job);
    var v := ViewOf(s.hosts[n], d.job);
    assert v.down == [NoteNew(d.epoch)] + DownOf(s.hosts[n].down[1..], d.job);
    assert v.down[0] == NoteNew(d.epoch);
    SpawnRole(s, n, d.job, d.epoch);
  }

  lemma {:induction false} MessageObeyed(s: State, n: HostId, spawned: Option<int>)
    requires Inv(s) && Enabled(s, SbdReceive(n, spawned))
    ensures Obeyed(s.hosts[n], Next(s, SbdReceive(n, spawned)).hosts[n], spawned)
  {
    hide Inv;
    var h := s.hosts[n];
    match h.down[0]
    case NewJob(j, e) =>
      NewIsNew(s, n);
      NewObeyed(h, j, e, spawned);
    case ReplyAck(j, _) =>
      if j in h.mem { AckObeyed(s, n, j); }
      AckTaken(h, j, spawned);
    case FinishAck(j) =>
      FinishObeyed(s, n, j);
      EndTaken(h, j, spawned);
    case RegisterAck(ws) =>
      ListIsFit(s, n);
      ListObeyed(h.(down := h.down[1..]), ws);
  }

  lemma {:induction false} AckTaken(h: Host, j: JobId, spawned: Option<int>)
    requires h.down != [] && h.down[0].ReplyAck? && h.down[0].job == j
    requires j in h.mem ==> j in LoadAll(h.disk) && LoadAll(h.disk)[j].pidAcked == h.mem[j].pidAcked
    ensures Obeyed(h, SbdHandle(h.(down := h.down[1..]), h.down[0], spawned), spawned)
  {
    assert h.up + [] == h.up && (h.waiting.Some? ==> h.waiting.value + [] == h.waiting.value);
  }

  lemma {:induction false} EndTaken(h: Host, j: JobId, spawned: Option<int>)
    requires h.down != [] && h.down[0] == FinishAck(j) && (j !in h.mem ==> j !in LoadAll(h.disk))
    ensures Obeyed(h, SbdHandle(h.(down := h.down[1..]), h.down[0], spawned), spawned)
  {
    assert h.up + [] == h.up && (h.waiting.Some? ==> h.waiting.value + [] == h.waiting.value);
    assert j !in h.mem ==> h.mem - {j} == h.mem;
  }

  lemma {:induction false} NewObeyed(h: Host, j: JobId, e: nat, spawned: Option<int>)
    requires h.down != [] && h.down[0] == NewJob(j, e) && j !in h.mem && j !in h.disk
    ensures Obeyed(h, SbdHandle(h.(down := h.down[1..]), h.down[0], spawned), spawned)
  {
  }

  lemma {:induction false} FinishObeyed(s: State, n: HostId, j: JobId)
    requires Inv(s) && n in s.hosts
    ensures j !in s.hosts[n].mem ==> j !in LoadAll(s.hosts[n].disk)
  {
    assert JobInv(s, j);
    SavedNow(s, n, j);
  }

  lemma {:induction false} AckObeyed(s: State, n: HostId, j: JobId)
    requires Inv(s) && n in s.hosts && j in s.hosts[n].mem
    ensures j in LoadAll(s.hosts[n].disk) && LoadAll(s.hosts[n].disk)[j].pidAcked == s.hosts[n].mem[j].pidAcked
  {
    assert JobInv(s, j);
    SavedNow(s, n, j);
  }

  // -------------------------------------------------------------------
  // Every run
  // -------------------------------------------------------------------

  /** In every run, every report mbd reads is handled and answered. */
  lemma {:induction false} RunHandles(tr: seq<State>, steps: seq<Step>, i: nat)
    requires IsRun(tr, steps) && i < |steps| && steps[i].MbdReceive?
    ensures Handled(tr[i], tr[i + 1], steps[i].n)
  {
    RunInv(tr, steps, i);
    ReportHandled(tr[i], steps[i].n);
  }

  /** In every run, every message an sbd reads is obeyed. */
  lemma {:induction false} RunObeys(tr: seq<State>, steps: seq<Step>, i: nat)
    requires IsRun(tr, steps) && i < |steps| && steps[i].SbdReceive?
    ensures steps[i].n in tr[i + 1].hosts
    ensures Obeyed(tr[i].hosts[steps[i].n], tr[i + 1].hosts[steps[i].n], steps[i].spawned)
  {
    RunInv(tr, steps, i);
    MessageObeyed(tr[i], steps[i].n, steps[i].spawned);
  }

  /** mbd has sent the job to host n as a new dispatch. */
  ghost predicate SentTo(s: State, t: State, j: JobId, n: HostId)
    requires j in s.jobs
  {
    && Says(s, t, n, [NewJob(j, s.jobs[j].epoch + 1)])
    && (forall k :: k in s.hosts && k != n ==> k in t.hosts && t.hosts[k] == s.hosts[k])
    && (forall k :: k != j ==> SameRecord(s, t, k))
    && j in t.jobs && t.jobs[j].phase == Running && t.jobs[j].host == Some(n) && t.jobs[j].epoch == s.jobs[j].epoch + 1
    && !t.jobs[j].forked && t.jobs[j].pid == 0 && j !in s.run && t.run == s.run + [j]
    && t.log == s.log + [LogStart(j, s.jobs[j].epoch + 1)]
  }

  /** In every run, a dispatch starts anew and is sent to its host. */
  lemma {:induction false} RunSends(tr: seq<State>, steps: seq<Step>, i: nat)
    requires IsRun(tr, steps) && i < |steps| && steps[i].Dispatch?
    ensures SentTo(tr[i], tr[i + 1], steps[i].j, steps[i].n)
  {
    RunInv(tr, steps, i);
    hide IsRun;
    WaitsUntouched(tr[i], steps[i].j);
    hide Inv;
  }

  lemma {:induction false} WaitsUntouched(s: State, j: JobId)
    requires Inv(s) && j in s.jobs && s.jobs[j].phase == Pending
    ensures !s.jobs[j].forked && s.jobs[j].pid == 0 && j !in s.run
  {
    assert JobInv(s, j) && RunListOk(s);
  }

  /** mbd has read a registration: refused if the host has a channel already;
      otherwise the channel is whole, and mbd has sent the host's running jobs
      with their pids, each once. */
  ghost predicate Registered(s: State, t: State, n: HostId)
    requires n in s.hosts && s.hosts[n].waiting.Some?
  {
    && n in t.hosts && t.jobs == s.jobs && t.run == s.run && t.log == s.log
    && (forall k :: k in s.hosts && k != n ==> k in t.hosts && t.hosts[k] == s.hosts[k])
    && t.hosts[n].mem == s.hosts[n].mem && t.hosts[n].disk == s.hosts[n].disk && t.hosts[n].waiting == None
    && if s.hosts[n].mbdUp then t.hosts[n] == s.hosts[n].(waiting := None)
       else && t.hosts[n].joined && t.hosts[n].mbdUp && t.hosts[n].up == s.hosts[n].waiting.value
            && |t.hosts[n].down| == 1 && t.hosts[n].down[0].RegisterAck?
            && forall j ::
                 ListedOf(t.hosts[n].down[0].jobs, j)
                 == if j in s.jobs && s.jobs[j].phase == Running && s.jobs[j].host == Some(n) then [NoteListed(s.jobs[j].pid)] else []
  }

  lemma {:induction false} RunRegisters(tr: seq<State>, steps: seq<Step>, i: nat)
    requires IsRun(tr, steps) && i < |steps| && steps[i].MbdAccept?
    ensures Registered(tr[i], tr[i + 1], steps[i].n)
  {
    RunInv(tr, steps, i);
    var s, n := tr[i], steps[i].n;
    assert LinkOk(s.hosts[n]) && RunListOk(s);
    forall j
      ensures ListedOf(RunListFor(s.run, s.jobs, n), j)
              == if j in s.jobs && s.jobs[j].phase == Running && s.jobs[j].host == Some(n) then [NoteListed(s.jobs[j].pid)] else []
    {
      RunListForExact(s.run, s.jobs, n, j);
    }
    hide Inv, RunListFor;
  }

  // -------------------------------------------------------------------
  // Continuations
  // -------------------------------------------------------------------

  predicate CanTake(s: State, steps: seq<Step>)
    decreases |steps|
  {
    steps == [] || (Enabled(s, steps[0]) && CanTake(Next(s, steps[0]), steps[1..]))
  }

  function After(s: State, steps: seq<Step>): State
    requires CanTake(s, steps)
    decreases |steps|
  {
    if steps == [] then s else After(Next(s, steps[0]), steps[1..])
  }

  /** The two daemons and the link between them do this, and nobody else. */
  predicate Between(step: Step, n: HostId) {
    || step == MbdReceive(n) || step == MbdAccept(n) || step == SbdConnect(n)
    || (step.MbdDisconnect? && step.n == n) || (step.SbdLinkDown? && step.n == n)
    || (step.SbdReceive? && step.n == n) || (step.SbdSendReply? && step.n == n)
    || (step.SbdSendFinish? && step.n == n) || (step.SbdJobExits? && step.n == n)
  }

  predicate AllBetween(steps: seq<Step>, n: HostId) {
    forall i :: 0 <= i < |steps| ==> Between(steps[i], n)
  }

  /** How far a job has come is not undone: mbd keeps its record, an end is an
      end, and a job the host holds stays there until mbd has its end. */
  ghost predicate Onward(s: State, t: State, n: HostId, j: JobId) {
    && (j in s.jobs <==> j in t.jobs)
    && (j in s.jobs && s.jobs[j].phase != Running ==> t.jobs[j].phase == s.jobs[j].phase)
    && (j in s.jobs && s.jobs[j].phase == Running ==>
          t.jobs[j].phase in {Pending, Finished} || (t.jobs[j].phase == Running && t.jobs[j].host == s.jobs[j].host))
    && (j in s.jobs && s.jobs[j].phase == Running && HoldsAt(s, n, j) ==>
          t.jobs[j].phase == Finished || (t.jobs[j].phase == Running && HoldsAt(t, n, j)))
  }

  /** t follows from s by these steps. */
  ghost predicate Leads(s: State, steps: seq<Step>, t: State, n: HostId, j: JobId) {
    && CanTake(s, steps) && After(s, steps) == t && AllBetween(steps, n) && Inv(t) && n in t.hosts && Onward(s, t, n, j)
  }

  lemma {:induction false} LeadsNowhere(s: State, n: HostId, j: JobId)
    requires Inv(s) && n in s.hosts
    ensures Leads(s, [], s, n, j)
  {
  }

  lemma {:induction false} LeadsOn(s: State, step: Step, t: State, steps: seq<Step>, u: State, n: HostId, j: JobId)
    requires Enabled(s, step) && t == Next(s, step) && Between(step, n) && Onward(s, t, n, j) && Leads(t, steps, u, n, j)
    ensures Leads(s, [step] + steps, u, n, j)
  {
    assert ([step] + steps)[1..] == steps;
  }

  lemma {:induction false} LeadsThrough(s: State, a: seq<Step>, t: State, b: seq<Step>, u: State, n: HostId, j: JobId)
    requires Leads(s, a, t, n, j) && Leads(t, b, u, n, j)
    ensures Leads(s, a + b, u, n, j)
  {
    PathThrough(s, a, b);
  }

  lemma {:induction false} PathThrough(s: State, a: seq<Step>, b: seq<Step>)
    requires CanTake(s, a) && CanTake(After(s, a), b)
    ensures CanTake(s, a + b) && After(s, a + b) == After(After(s, a), b)
    decreases |a|
  {
    if a == [] {
      assert a + b == b;
    } else {
      assert (a + b)[0] == a[0] && (a + b)[1..] == a[1..] + b;
      PathThrough(Next(s, a[0]), a[1..], b);
    }
  }

  // -------------------------------------------------------------------
  // One step of the link
  // -------------------------------------------------------------------

  lemma {:induction false} HeldIsNotIdle(s: State, n: HostId, j: JobId)
    requires Inv(s) && HoldsAt(s, n, j)
    ensures j in s.jobs ==> s.jobs[j].phase in {Running, Finished}
    ensures j in s.jobs && s.jobs[j].phase == Running ==> s.jobs[j].host == Some(n)
  {
    assert JobInv(s, j);
    assert ViewOf(s.hosts[n], j).mem.Some?;
  }

  /** A finish ack is not for a job mbd still has running. */
  lemma {:induction false} FinishAckIsLast(s: State, n: HostId, j: JobId)
    requires Inv(s) && HoldsAt(s, n, j) && s.hosts[n].down != [] && s.hosts[n].down[0] == FinishAck(j)
    ensures j in s.jobs ==> s.jobs[j].phase == Finished
  {
    HeldIsNotIdle(s, n, j);
    assert JobInv(s, j);
    var v := ViewOf(s.hosts[n], j);
    assert v.down == [NoteFin] + DownOf(s.hosts[n].down[1..], j);
    assert v.down[0] == NoteFin;
    if RoleOf(s, j).Live? { HeldHead(v, RoleOf(s, j).m, j, 0); }
  }

  lemma {:induction false} MbdReads(s: State, n: HostId, j: JobId)
    requires Inv(s) && Enabled(s, MbdReceive(n))
    ensures var t := Next(s, MbdReceive(n));
            Inv(t) && n in t.hosts && Handled(s, t, n) && Onward(s, t, n, j)
  {
    var t := Next(s, MbdReceive(n));
    ReceiveKeeps(s, n);
    ReportHandled(s, n);
    hide Next;
    if HoldsAt(s, n, j) {
      assert HoldsAt(t, n, j);
      HeldIsNotIdle(t, n, j);
    }
    SettledUntouched(s, t, n, j);
  }

  lemma {:induction false} SettledUntouched(s: State, t: State, n: HostId, j: JobId)
    requires Inv(s) && n in s.hosts && s.hosts[n].up != [] && Handled(s, t, n) && !MbdFault(s, n, s.hosts[n].up[0])
    ensures j in s.jobs && s.jobs[j].phase != Running ==> j in t.jobs && t.jobs[j].phase == s.jobs[j].phase
  {
    if j != s.hosts[n].up[0].job { assert SameRecord(s, t, j); }
  }

  lemma {:induction false} SbdReads(s: State, n: HostId, spawned: Option<int>, j: JobId)
    requires Inv(s) && Enabled(s, SbdReceive(n, spawned))
    ensures var t := Next(s, SbdReceive(n, spawned));
            Inv(t) && n in t.hosts && Obeyed(s.hosts[n], t.hosts[n], spawned) && Onward(s, t, n, j)
            && t.jobs == s.jobs
  {
    StepKeepsInv(s, SbdReceive(n, spawned));
    MessageObeyed(s, n, spawned);
    if HoldsAt(s, n, j) && s.hosts[n].down[0] == FinishAck(j) {
      FinishAckIsLast(s, n, j);
    }
    hide Inv, HostNext;
  }

  // -------------------------------------------------------------------
  // The queues of a whole connection run empty
  // -------------------------------------------------------------------

  function DownWeight(d: Down): nat {
    match d
    case NewJob(_, _) => 3
    case ReplyAck(_, _) => 1
    case FinishAck(_) => 1
    case RegisterAck(ws) => 2 * |ws| + 1
  }

  function QueueWeight(q: seq<Down>): nat {
    if q == [] then 0 else DownWeight(q[0]) + QueueWeight(q[1..])
  }

  function LinkWeight(h: Host): nat {
    2 * |h.up| + QueueWeight(h.down)
  }

  lemma {:induction false} WeightOfMore(q: seq<Down>, d: Down)
    ensures QueueWeight(q + [d]) == QueueWeight(q) + DownWeight(d)
  {
    if q == [] {
      assert [d][1..] == [] && q + [d] == [d];
    } else {
      assert (q + [d])[1..] == q[1..] + [d];
      WeightOfMore(q[1..], d);
    }
  }

  lemma {:induction false} FewLacking(ws: seq<WireJob>, mem: map<JobId, SbdJob>)
    ensures |Lacking(ws, mem)| <= |ws|
  {
    if ws != [] { FewLacking(ws[1..], mem); }
  }

  lemma {:induction false} DrainOne(s: State, n: HostId, j: JobId) returns (step: Step)
    requires Inv(s) && n in s.hosts && s.hosts[n].joined && LinkWeight(s.hosts[n]) > 0
    ensures Enabled(s, step) && Between(step, n)
    ensures var t := Next(s, step);
            && Inv(t) && n in t.hosts && Onward(s, t, n, j)
            && t.hosts[n].joined && LinkWeight(t.hosts[n]) < LinkWeight(s.hosts[n])
  {
    var h := s.hosts[n];
    assert LinkOk(h);
    if h.up != [] {
      step := MbdReceive(n);
      MbdReads(s, n, j);
      MbdReadsLess(s, Next(s, step), n);
    } else {
      step := SbdReceive(n, Some(1));
      NotFatal(s, n);
      SbdReads(s, n, Some(1), j);
      SbdReadsLess(h, Next(s, step).hosts[n], Some(1));
    }
  }

  lemma {:induction false} MbdReadsLess(s: State, t: State, n: HostId)
    requires n in s.hosts && s.hosts[n].up != [] && Handled(s, t, n)
    ensures LinkWeight(t.hosts[n]) < LinkWeight(s.hosts[n])
  {
    var q := s.hosts[n].down;
    var u := s.hosts[n].up[0];
    assert q + [] == q;
    WeightOfMore(q, FinishAck(u.job));
    if u.ReplyOk? || u.ReplyErr? { WeightOfMore(q, ReplyAck(u.job, u.epoch)); }
  }

  lemma {:induction false} SbdReadsLess(h: Host, g: Host, spawned: Option<int>)
    requires h.down != [] && h.joined && Obeyed(h, g, spawned)
    ensures LinkWeight(g) < LinkWeight(h)
  {
    if h.down[0].RegisterAck? { FewLacking(h.down[0].jobs, h.mem); }
  }

  /** Both daemons read what is under way. */
  lemma {:induction false} Drain(s: State, n: HostId, j: JobId) returns (steps: seq<Step>, t: State)
    requires Inv(s) && n in s.hosts && s.hosts[n].joined
    ensures Leads(s, steps, t, n, j) && t.hosts[n].joined && t.hosts[n].up == [] && t.hosts[n].down == []
    decreases LinkWeight(s.hosts[n])
  {
    if LinkWeight(s.hosts[n]) == 0 {
      steps, t := [], s;
      LeadsNowhere(s, n, j);
    } else {
      var step := DrainOne(s, n, j);
      hide Inv, Next, Enabled, Onward;
      var rest;
      rest, t := Drain(Next(s, step), n, j);
      steps := [step] + rest;
      LeadsOn(s, step, Next(s, step), rest, t, n, j);
    }
  }

  // -------------------------------------------------------------------
  // A connection comes back
  // -------------------------------------------------------------------

  lemma {:induction false} LinkStep(s: State, step: Step, n: HostId, j: JobId)
    requires Inv(s) && Enabled(s, step) && n in s.hosts
    requires step == SbdConnect(n) || step == MbdAccept(n) || step == MbdDisconnect(n, 0) || step == SbdLinkDown(n, 0)
    ensures var t := Next(s, step); Inv(t) && n in t.hosts && Onward(s, t, n, j)
  {
    StepKeepsInv(s, step);
  }

  lemma {:induction false} Rejoin(s: State, n: HostId, j: JobId) returns (steps: seq<Step>, t: State)
    requires Inv(s) && n in s.hosts
    ensures Leads(s, steps, t, n, j) && t.hosts[n].joined
  {
    if s.hosts[n].joined {
      steps, t := [], s;
      LeadsNowhere(s, n, j);
    } else {
      var a, u := SbdDown(s, n, j);
      var b, v := MbdDown(u, n, j);
      var c, w := Connect(v, n, j);
      hide Leads;
      LeadsThrough(s, a, u, b, v, n, j);
      LeadsThrough(s, a + b, v, c, w, n, j);
      steps, t := a + b + c, w;
    }
  }

  lemma {:induction false} SbdDown(s: State, n: HostId, j: JobId) returns (steps: seq<Step>, t: State)
    requires Inv(s) && n in s.hosts
    ensures Leads(s, steps, t, n, j) && !t.hosts[n].sbdUp
  {
    LeadsNowhere(s, n, j);
    if s.hosts[n].sbdUp {
      var step := SbdLinkDown(n, 0);
      LinkStep(s, step, n, j);
      LeadsNowhere(Next(s, step), n, j);
      LeadsOn(s, step, Next(s, step), [], Next(s, step), n, j);
      steps, t := [step] + [], Next(s, step);
    } else {
      steps, t := [], s;
    }
  }

  lemma {:induction false} MbdDown(s: State, n: HostId, j: JobId) returns (steps: seq<Step>, t: State)
    requires Inv(s) && n in s.hosts && !s.hosts[n].sbdUp
    ensures Leads(s, steps, t, n, j) && !t.hosts[n].sbdUp && !t.hosts[n].mbdUp
  {
    LeadsNowhere(s, n, j);
    if s.hosts[n].mbdUp {
      var step := MbdDisconnect(n, 0);
      LinkStep(s, step, n, j);
      LeadsNowhere(Next(s, step), n, j);
      LeadsOn(s, step, Next(s, step), [], Next(s, step), n, j);
      steps, t := [step] + [], Next(s, step);
    } else {
      steps, t := [], s;
    }
  }

  lemma {:induction false} Connect(s: State, n: HostId, j: JobId) returns (steps: seq<Step>, t: State)
    requires Inv(s) && n in s.hosts && !s.hosts[n].sbdUp && !s.hosts[n].mbdUp
    ensures Leads(s, steps, t, n, j) && t.hosts[n].joined
  {
    LinkStep(s, SbdConnect(n), n, j);
    var u := Next(s, SbdConnect(n));
    LinkStep(u, MbdAccept(n), n, j);
    t := Next(u, MbdAccept(n));
    LeadsNowhere(t, n, j);
    LeadsOn(u, MbdAccept(n), t, [], t, n, j);
    LeadsOn(s, SbdConnect(n), u, [MbdAccept(n)] + [], t, n, j);
    steps := [SbdConnect(n)] + ([MbdAccept(n)] + []);
  }

  // -------------------------------------------------------------------
  // The end of a job
  // -------------------------------------------------------------------

  /** A quiet, whole connection to a host that holds the job. */
  ghost predicate AtRest(s: State, n: HostId, j: JobId) {
    && Inv(s) && n in s.hosts && s.hosts[n].joined && s.hosts[n].up == [] && s.hosts[n].down == []
    && HoldsAt(s, n, j)
  }

  /** The sbd announces the pid, mbd records and acks it. */
  lemma {:induction false} GetsAcked(s: State, n: HostId, j: JobId) returns (steps: seq<Step>, t: State)
    requires AtRest(s, n, j)
    ensures Leads(s, steps, t, n, j) && AtRest(t, n, j) && t.hosts[n].mem[j].pidAcked
  {
    if s.hosts[n].mem[j].pidAcked {
      steps, t := [], s;
      LeadsNowhere(s, n, j);
    } else {
      UnackedIsRunning(s, n, j);
      var job := s.hosts[n].mem[j];
      var u := Announces(s, n, j);
      MbdReads(u, n, j);
      var v := Next(u, MbdReceive(n));
      assert v.hosts[n].down == [ReplyAck(j, job.epoch)];
      NotFatal(v, n);
      SbdReads(v, n, None, j);
      t := Next(v, SbdReceive(n, None));
      Chain(s, SbdSendReply(n, j), u, MbdReceive(n), v, SbdReceive(n, None), t, n, j);
      steps := [SbdSendReply(n, j)] + ([MbdReceive(n)] + ([SbdReceive(n, None)] + []));
    }
  }

  lemma {:induction false} Chain(s: State, a: Step, t: State, b: Step, u: State, c: Step, v: State, n: HostId, j: JobId)
    requires Enabled(s, a) && t == Next(s, a) && Enabled(t, b) && u == Next(t, b) && Enabled(u, c) && v == Next(u, c)
    requires Between(a, n) && Between(b, n) && Between(c, n) && Inv(v) && n in v.hosts
    requires Onward(s, t, n, j) && Onward(t, u, n, j) && Onward(u, v, n, j)
    ensures Leads(s, [a] + ([b] + ([c] + [])), v, n, j)
  {
    hide Next, Enabled, Inv;
    LeadsNowhere(v, n, j);
    LeadsOn(u, c, v, [], v, n, j);
    LeadsOn(t, b, u, [c] + [], v, n, j);
    LeadsOn(s, a, t, [b] + ([c] + []), v, n, j);
  }

  lemma {:induction false} UnackedIsRunning(s: State, n: HostId, j: JobId)
    requires Inv(s) && HoldsAt(s, n, j) && !s.hosts[n].mem[j].pidAcked
    ensures j in s.jobs && s.jobs[j].phase == Running && s.jobs[j].host == Some(n) && s.jobs[j].epoch == s.hosts[n].mem[j].epoch
  {
    assert JobInv(s, j);
    assert ViewOf(s.hosts[n], j).mem.Some?;
  }

  lemma {:induction false} Announces(s: State, n: HostId, j: JobId) returns (t: State)
    requires AtRest(s, n, j) && !s.hosts[n].mem[j].pidAcked
    ensures Enabled(s, SbdSendReply(n, j)) && t == Next(s, SbdSendReply(n, j)) && Inv(t) && Onward(s, t, n, j)
    ensures t == s.(hosts := s.hosts[n := s.hosts[n].(up := [ReplyOk(j, s.hosts[n].mem[j].pid, s.hosts[n].mem[j].epoch)])])
    ensures Enabled(t, MbdReceive(n))
  {
    assert LinkOk(s.hosts[n]);
    t := Next(s, SbdSendReply(n, j));
    StepKeepsInv(s, SbdSendReply(n, j));
    var u := ReplyOk(j, s.hosts[n].mem[j].pid, s.hosts[n].mem[j].epoch);
    assert s.hosts[n].up + [u] == [u];
  }

  /** The job exits, the sbd reports it, mbd takes and acks the end. */
  lemma {:induction false} GetsFinished(s: State, n: HostId, j: JobId) returns (steps: seq<Step>, t: State)
    requires AtRest(s, n, j) && s.hosts[n].mem[j].pidAcked
    ensures Leads(s, steps, t, n, j) && !HoldsAt(t, n, j) && j !in LoadAll(t.hosts[n].disk)
    ensures j in t.jobs ==> t.jobs[j].phase == Finished
  {
    hide Next, Enabled, Inv, Obeyed, Handled, Leads;
    var r := Exits(s, n, j);
    steps, t := TakesItsEnd(r, n, j);
    LeadsOn(s, SbdJobExits(n, j), r, steps, t, n, j);
    steps := [SbdJobExits(n, j)] + steps;
  }

  lemma {:induction false} TakesItsEnd(s: State, n: HostId, j: JobId) returns (steps: seq<Step>, t: State)
    requires AtRest(s, n, j) && s.hosts[n].mem[j].pidAcked && s.hosts[n].mem[j].exitValid
    ensures Leads(s, steps, t, n, j) && !HoldsAt(t, n, j) && j !in LoadAll(t.hosts[n].disk)
    ensures j in t.jobs ==> t.jobs[j].phase == Finished
  {
    var u := Reports(s, n, j);
    MbdReads(u, n, j);
    var v := Next(u, MbdReceive(n));
    assert v.hosts[n].down == [FinishAck(j)];
    NotFatal(v, n);
    assert Enabled(v, SbdReceive(n, None));
    hide Inv;
    SbdReads(v, n, None, j);
    t := Next(v, SbdReceive(n, None));
    hide Next, Enabled;
    Chain(s, SbdSendFinish(n, j), u, MbdReceive(n), v, SbdReceive(n, None), t, n, j);
    steps := [SbdSendFinish(n, j)] + ([MbdReceive(n)] + ([SbdReceive(n, None)] + []));
  }

  lemma {:induction false} Exits(s: State, n: HostId, j: JobId) returns (t: State)
    requires AtRest(s, n, j) && s.hosts[n].mem[j].pidAcked
    ensures Enabled(s, SbdJobExits(n, j)) && t == Next(s, SbdJobExits(n, j)) && Onward(s, t, n, j)
    ensures AtRest(t, n, j) && t.hosts[n].mem[j].pidAcked && t.hosts[n].mem[j].exitValid
  {
    t := Next(s, SbdJobExits(n, j));
    StepKeepsInv(s, SbdJobExits(n, j));
  }

  lemma {:induction false} Reports(s: State, n: HostId, j: JobId) returns (t: State)
    requires AtRest(s, n, j) && s.hosts[n].mem[j].pidAcked && s.hosts[n].mem[j].exitValid
    ensures Enabled(s, SbdSendFinish(n, j)) && t == Next(s, SbdSendFinish(n, j)) && Inv(t) && Onward(s, t, n, j)
    ensures t == s.(hosts := s.hosts[n := s.hosts[n].(up := [Finish(j, s.hosts[n].mem[j].epoch)])])
    ensures Enabled(t, MbdReceive(n))
  {
    assert LinkOk(s.hosts[n]);
    t := Next(s, SbdSendFinish(n, j));
    StepKeepsInv(s, SbdSendFinish(n, j));
    var u := Finish(j, s.hosts[n].mem[j].epoch);
    assert s.hosts[n].up + [u] == [u];
  }

  // -------------------------------------------------------------------
  // Nothing is stuck
  // -------------------------------------------------------------------

  /** The host lets go of the job, and mbd knows why. */
  ghost predicate Through(t: State, n: HostId, j: JobId) {
    && n in t.hosts && !HoldsAt(t, n, j) && j !in LoadAll(t.hosts[n].disk)
    && (j in t.jobs ==> t.jobs[j].phase != Running)
  }

  lemma {:induction false} CanLetGo(s: State, n: HostId, j: JobId) returns (steps: seq<Step>, t: State)
    requires Inv(s) && n in s.hosts && (HoldsAt(s, n, j) || (j in s.jobs && s.jobs[j].phase == Running && s.jobs[j].host == Some(n)))
    ensures Leads(s, steps, t, n, j) && Through(t, n, j)
  {
    var a, r := Rejoin(s, n, j);
    var b, u := Drain(r, n, j);
    assert Leads(s, a + b, u, n, j) by { LeadsThrough(s, a, r, b, u, n, j); }
    if HoldsAt(u, n, j) {
      var c, v := GetsAcked(u, n, j);
      var d, w := GetsFinished(v, n, j);
      hide Leads, Inv;
      LeadsThrough(u, c, v, d, w, n, j);
      LeadsThrough(s, a + b, u, c + d, w, n, j);
      steps, t := a + b + (c + d), w;
    } else {
      RestIsSettled(u, n, j);
      steps, t := a + b, u;
    }
  }

  /** With nothing under way, a running job is with its host. */
  lemma {:induction false} RestIsSettled(s: State, n: HostId, j: JobId)
    requires Inv(s) && n in s.hosts && s.hosts[n].joined && s.hosts[n].up == [] && s.hosts[n].down == [] && !HoldsAt(s, n, j)
    requires j in s.jobs && s.jobs[j].phase == Running ==> s.jobs[j].host == Some(n)
    ensures Through(s, n, j)
  {
    if j in s.jobs && s.jobs[j].phase == Running { Somewhere(s, j); }
    assert JobInv(s, j);
    SavedNow(s, n, j);
  }

  /** From every state of every run, whatever has been lost on the way, every
      dispatch can be settled by its own host and mbd alone; and if the host
      has the job, by the job's end. */
  lemma {:induction false} DispatchCanSettle(tr: seq<State>, steps: seq<Step>, i: nat, j: JobId) returns (more: seq<Step>, t: State)
    requires IsRun(tr, steps) && i < |tr| && j in tr[i].jobs && tr[i].jobs[j].phase == Running
    ensures tr[i].jobs[j].host.Some? && tr[i].jobs[j].host.value in tr[i].hosts
    ensures CanTake(tr[i], more) && After(tr[i], more) == t && AllBetween(more, tr[i].jobs[j].host.value)
    ensures Through(t, tr[i].jobs[j].host.value, j) && j in t.jobs && t.jobs[j].phase in {Pending, Finished}
    ensures HoldsAt(tr[i], tr[i].jobs[j].host.value, j) ==> t.jobs[j].phase == Finished
  {
    RunInv(tr, steps, i);
    Somewhere(tr[i], j);
    var n := tr[i].jobs[j].host.value;
    more, t := CanLetGo(tr[i], n, j);
  }

  /** No host is left with a job for good, not even one mbd has purged. */
  lemma {:induction false} HolderCanLetGo(tr: seq<State>, steps: seq<Step>, i: nat, n: HostId, j: JobId) returns (more: seq<Step>, t: State)
    requires IsRun(tr, steps) && i < |tr| && HoldsAt(tr[i], n, j)
    ensures CanTake(tr[i], more) && After(tr[i], more) == t && AllBetween(more, n) && Through(t, n, j)
    ensures j in tr[i].jobs ==> j in t.jobs && t.jobs[j].phase == Finished
  {
    RunInv(tr, steps, i);
    more, t := CanLetGo(tr[i], n, j);
    HeldIsNotIdle(tr[i], n, j);
  }

  /** A dispatch that reaches a quiet host is held there. */
  lemma {:induction false} GetsHeld(s: State, n: HostId, j: JobId) returns (t: State)
    requires Inv(s) && n in s.hosts && s.hosts[n].joined && s.hosts[n].up == [] && s.hosts[n].down == []
    requires j in s.jobs && s.jobs[j].phase == Pending
    ensures CanTake(s, [Dispatch(j, n), SbdReceive(n, Some(1))]) && After(s, [Dispatch(j, n), SbdReceive(n, Some(1))]) == t
    ensures Inv(t) && HoldsAt(t, n, j) && j in t.jobs && t.jobs[j].phase == Running
  {
    var step := Dispatch(j, n);
    assert LinkOk(s.hosts[n]);
    StepKeepsInv(s, step);
    var u := Next(s, step);
    assert u.hosts[n].down == [NewJob(j, s.jobs[j].epoch + 1)];
    NotFatal(u, n);
    SbdReads(u, n, Some(1), j);
    t := Next(u, SbdReceive(n, Some(1)));
    TwoSteps(s, step, SbdReceive(n, Some(1)));
  }

  lemma {:induction false} TwoSteps(s: State, a: Step, b: Step)
    requires Enabled(s, a) && Enabled(Next(s, a), b)
    ensures CanTake(s, [a, b]) && After(s, [a, b]) == Next(Next(s, a), b)
  {
    hide Enabled, Next;
    OneStep(s, a);
    OneStep(Next(s, a), b);
    PathThrough(s, [a], [b]);
    assert [a] + [b] == [a, b];
  }

  lemma {:induction false} OneStep(s: State, a: Step)
    requires Enabled(s, a)
    ensures CanTake(s, [a]) && After(s, [a]) == Next(s, a)
  {
    hide Enabled, Next;
    var q := [a];
    assert q[1..] == [] && CanTake(Next(s, a), q[1..]);
    assert After(s, q) == After(Next(s, a), q[1..]);
  }

  /** From every state of every run, every pending job can run and end on
      every host there is. */
  lemma {:induction false} PendingCanFinish(tr: seq<State>, steps: seq<Step>, i: nat, j: JobId, n: HostId) returns (more: seq<Step>, t: State)
    requires IsRun(tr, steps) && i < |tr| && n in tr[i].hosts && j in tr[i].jobs && tr[i].jobs[j].phase == Pending
    ensures CanTake(tr[i], more) && After(tr[i], more) == t && j in t.jobs && t.jobs[j].phase == Finished && !HoldsAt(t, n, j)
  {
    RunInv(tr, steps, i);
    var a, r := Rejoin(tr[i], n, j);
    var b, u := Drain(r, n, j);
    var v := GetsHeld(u, n, j);
    var d, w := CanLetGo(v, n, j);
    var c := [Dispatch(j, n), SbdReceive(n, Some(1))];
    hide Inv, Enabled, Next;
    PathThrough(tr[i], a, b);
    PathThrough(tr[i], a + b, c);
    PathThrough(tr[i], a + b + c, d);
    more, t := a + b + c + d, w;
  }
}
