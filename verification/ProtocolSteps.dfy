/** Every step of the protocol keeps the invariant of every job. */
module ProtocolSteps {
  import opened Protocol
  import opened ProtocolView
  import opened ProtocolLocal

  // -------------------------------------------------------------------
  // One host at a time
  // -------------------------------------------------------------------

  /** w is an acceptable view of job j at host n, given mbd's record. */
  ghost predicate LocalOk(s: State, n: HostId, w: View, j: JobId) {
    match RoleOf(s, j)
    case Idle => Clear(w)
    case Live(m) => if m.host == Some(n) then Active(w, m, j) else Clear(w)
    case Over(rec) => EndedAt(w, n, j, rec) && (w.mem.Some? ==> HoldsAt(s, n, j))
  }

  lemma {:induction false} LocalNow(s: State, n: HostId, j: JobId)
    requires JobInv(s, j) && n in s.hosts
    ensures LocalOk(s, n, ViewOf(s.hosts[n], j), j)
  {
  }

  lemma {:induction false} SavedNow(s: State, n: HostId, j: JobId)
    requires JobInv(s, j) && n in s.hosts
    ensures MemSaved(s.hosts[n], j)
    ensures j !in s.hosts[n].mem && j in s.hosts[n].disk ==> s.hosts[n].disk[j].finishAcked
  {
  }

  lemma {:induction false} HostReplace(s: State, n: HostId, h: Host, j: JobId)
    requires JobInv(s, j) && n in s.hosts && LocalOk(s, n, ViewOf(h, j), j)
    ensures JobInv(s.(hosts := s.hosts[n := h]), j)
  {
    var t := s.(hosts := s.hosts[n := h]);
    assert RoleOf(t, j) == RoleOf(s, j);
    assert forall k :: HoldsAt(t, k, j) && RoleOf(s, j).Over? ==> HoldsAt(s, k, j);
  }

  lemma {:induction false} LocalLinkEvent(s: State, n: HostId, v: View, w: View, j: JobId)
    requires LocalOk(s, n, v, j) && LinkEvent(v, w)
    ensures LocalOk(s, n, w, j)
  {
    match RoleOf(s, j)
    case Idle => LinkEventClear(v, w);
    case Live(m) =>
      if m.host == Some(n) { LinkEventActive(v, w, m, j); } else { LinkEventClear(v, w); }
    case Over(rec) => LinkEventEnded(v, w, n, j, rec);
  }

  /** Dropping or adding stale queues of a kind already there. */
  lemma {:induction false} LocalStale(s: State, n: HostId, v: View, w: View, j: JobId)
    requires LocalOk(s, n, v, j) && w.(stale := []) == v.(stale := [])
    requires forall k :: 0 <= k < |w.stale| ==> w.stale[k] in v.stale
    ensures LocalOk(s, n, w, j)
  {
    match RoleOf(s, j)
    case Idle =>
    case Live(m) =>
      if m.host == Some(n) {
        assert Quiet(v) ==> Quiet(w);
        assert Quiet(v.(up := [])) ==> Quiet(w.(up := []));
        assert OnItsWay(v, m) ==> OnItsWay(w, m);
        assert Answered(v, m, j) ==> Answered(w, m, j);
        assert Asked(v, m) ==> Asked(w, m);
        assert Lost(v, m) ==> Lost(w, m);
        assert HeldHere(v, m, j) ==> HeldHere(w, m, j);
      }
    case Over(rec) =>
      assert Ended(w, j);
  }

  lemma {:induction false} LocalNote(s: State, n: HostId, v: View, j: JobId, spawned: Option<int>)
    requires LocalOk(s, n, v, j) && v.down != [] && v.waiting.None?
    requires spawned.Some? ==> spawned.value > 0
    ensures LocalOk(s, n, ViewNote(v, j, spawned), j)
  {
    match RoleOf(s, j)
    case Idle => NoteClear(v, j, spawned);
    case Live(m) =>
      if m.host == Some(n) { NoteActive(v, m, j, spawned); } else { NoteClear(v, j, spawned); }
    case Over(rec) => NoteEnded(v, n, j, rec, spawned);
  }

  // -------------------------------------------------------------------
  // sbd reading a message
  // -------------------------------------------------------------------

  lemma {:induction false} NewJobView(h: Host, k: JobId, e: nat, spawned: Option<int>, j: JobId, rest: seq<Note>)
    requires rest == DownOf(h.down, j)
    ensures ViewOf(SbdJobNew(h, k, e, spawned), j)
         == (if k == j then ViewNote(ViewOf(h, j).(down := [NoteNew(e)] + rest), j, spawned) else ViewOf(h, j))
  {
    if k in h.mem {
      SbdSendView(h, ReplyOk(k, h.mem[k].pid, h.mem[k].epoch), j);
    } else if spawned.None? {
      SbdSendView(h, ReplyErr(k, e), j);
    } else {
      var job := SbdJob(spawned.value, false, false, e);
      SbdSendView(h.(mem := h.mem[k := job], disk := h.disk[k := SbdFile(job, false)]),
                  ReplyOk(k, job.pid, e), j);
    }
    assert ([NoteNew(e)] + rest)[1..] == rest;
  }

  lemma {:induction false} ReplyAckView(h: Host, k: JobId, e: nat, j: JobId, rest: seq<Note>)
    requires rest == DownOf(h.down, j)
    ensures ViewOf(SbdReplyAck(h, k), j)
         == (if k == j then ViewNote(ViewOf(h, j).(down := [NoteAck(e)] + rest), j, None) else ViewOf(h, j))
  {
    assert ([NoteAck(e)] + rest)[1..] == rest;
  }

  lemma {:induction false} FinishAckView(h: Host, k: JobId, j: JobId, rest: seq<Note>)
    requires rest == DownOf(h.down, j)
    ensures ViewOf(SbdFinishAck(h, k), j)
         == (if k == j then ViewNote(ViewOf(h, j).(down := [NoteFin] + rest), j, None) else ViewOf(h, j))
  {
    assert ([NoteFin] + rest)[1..] == rest;
  }

  lemma {:induction false} RegisterEntryMine(h: Host, w: WireJob, rest: seq<Note>)
    ensures ViewOf(SbdRegisterEntry(h, w), w.job).(down := rest)
         == ViewNote(ViewOf(h, w.job).(down := [NoteListed(w.pid)] + rest), w.job, None)
  {
    if w.job !in h.mem { SbdSendView(h, Missing(w.job), w.job); }
    assert ([NoteListed(w.pid)] + rest)[1..] == rest;
  }

  lemma {:induction false} RegisterEntryOther(h: Host, w: WireJob, j: JobId)
    requires w.job != j
    ensures ViewOf(SbdRegisterEntry(h, w), j) == ViewOf(h, j)
  {
    if w.job !in h.mem { SbdSendView(h, Missing(w.job), j); }
  }

  /** P survives whatever sbd does on reading one note about job j. */
  ghost predicate KeptByNotes(P: View -> bool, j: JobId, spawned: Option<int>) {
    forall v: View {:trigger ViewNote(v, j, spawned)} ::
      P(v) && v.down != [] && v.waiting.None? ==> P(ViewNote(v, j, spawned))
  }

  lemma {:induction false} ListedSplit(ws: seq<WireJob>, j: JobId, d: seq<Note>)
    requires ws != []
    ensures ListedOf(ws, j) + d
            == if ws[0].job == j then [NoteListed(ws[0].pid)] + (ListedOf(ws[1..], j) + d) else ListedOf(ws[1..], j) + d
  {
  }

  lemma {:induction false} RegisterEntryKeeps(P: View -> bool, h: Host, ws: seq<WireJob>, j: JobId)
    requires h.waiting.None? && KeptByNotes(P, j, None) && ws != []
    requires P(ViewOf(h, j).(down := ListedOf(ws, j) + DownOf(h.down, j)))
    ensures P(ViewOf(SbdRegisterEntry(h, ws[0]), j).(down := ListedOf(ws[1..], j) + DownOf(h.down, j)))
  {
    hide ListedOf, DownOf, SbdRegisterEntry;
    var w := ws[0];
    var v := ViewOf(h, j).(down := ListedOf(ws, j) + DownOf(h.down, j));
    var rest := ListedOf(ws[1..], j) + DownOf(h.down, j);
    ListedSplit(ws, j, DownOf(h.down, j));
    if w.job == j {
      RegisterEntryMine(h, w, rest);
      assert v.down == [NoteListed(w.pid)] + rest;
      assert P(ViewNote(v, j, None));
    } else {
      RegisterEntryOther(h, w, j);
    }
  }

  lemma {:induction false} RegisterAckKeeps(P: View -> bool, h: Host, ws: seq<WireJob>, j: JobId)
    requires h.waiting.None? && KeptByNotes(P, j, None)
    requires P(ViewOf(h, j).(down := ListedOf(ws, j) + DownOf(h.down, j)))
    ensures P(ViewOf(SbdRegisterAck(h, ws), j))
    decreases |ws|
  {
    if ws == [] {
      assert ListedOf(ws, j) + DownOf(h.down, j) == DownOf(h.down, j);
      assert ViewOf(h, j).(down := DownOf(h.down, j)) == ViewOf(h, j);
    } else {
      hide ViewOf, ListedOf, DownOf, KeptByNotes;
      RegisterEntryKeeps(P, h, ws, j);
      EntryKeepsDown(h, ws[0]);
      RegisterAckKeeps(P, SbdRegisterEntry(h, ws[0]), ws[1..], j);
    }
  }

  lemma {:induction false} EntryKeepsDown(h: Host, w: WireJob)
    ensures SbdRegisterEntry(h, w).down == h.down && (h.waiting.None? ==> SbdRegisterEntry(h, w).waiting.None?)
  {
  }

  lemma {:induction false} SbdHandleKeeps(P: View -> bool, h: Host, spawned: Option<int>, j: JobId)
    requires LinkOk(h) && h.down != [] && P(ViewOf(h, j))
    requires KeptByNotes(P, j, None) && KeptByNotes(P, j, spawned)
    ensures P(ViewOf(SbdHandle(h.(down := h.down[1..]), h.down[0], spawned), j))
  {
    var g := h.(down := h.down[1..]);
    var d := h.down[0];
    var v := ViewOf(h, j);
    var rest := DownOf(g.down, j);
    assert v.down == NotesOf(d, j) + rest;
    assert v == ViewOf(g, j).(down := NotesOf(d, j) + rest);
    if NotesOf(d, j) == [] {
      assert NotesOf(d, j) + rest == rest;
      assert v == ViewOf(g, j);
    }
    match d {
      case NewJob(k, e) => NewJobView(g, k, e, spawned, j, rest);
      case ReplyAck(k, e) => ReplyAckView(g, k, e, j, rest);
      case FinishAck(k) => FinishAckView(g, k, j, rest);
      case RegisterAck(ws) => RegisterAckKeeps(P, g, ws, j);
    }
  }

  lemma {:induction false} RegisterAckLink(h: Host, ws: seq<WireJob>)
    requires LinkOk(h) && h.sbdUp
    ensures LinkOk(SbdRegisterAck(h, ws))
    decreases |ws|
  {
    if ws != [] { RegisterAckLink(SbdRegisterEntry(h, ws[0]), ws[1..]); }
  }

  lemma {:induction false} SbdHandleLink(h: Host, spawned: Option<int>)
    requires LinkOk(h) && h.down != []
    ensures LinkOk(SbdHandle(h.(down := h.down[1..]), h.down[0], spawned))
  {
    if h.down[0].RegisterAck? { RegisterAckLink(h.(down := h.down[1..]), h.down[0].jobs); }
  }

  lemma {:induction false} SbdHandleLocal(s: State, n: HostId, h: Host, spawned: Option<int>, j: JobId)
    requires LinkOk(h) && h.down != [] && LocalOk(s, n, ViewOf(h, j), j)
    requires spawned.Some? ==> spawned.value > 0
    ensures LocalOk(s, n, ViewOf(SbdHandle(h.(down := h.down[1..]), h.down[0], spawned), j), j)
  {
    var P := v => LocalOk(s, n, v, j);
    NotesKept(s, n, j, None);
    NotesKept(s, n, j, spawned);
    SbdHandleKeeps(P, h, spawned, j);
  }

  lemma {:induction false} NotesKept(s: State, n: HostId, j: JobId, spawned: Option<int>)
    requires spawned.Some? ==> spawned.value > 0
    ensures KeptByNotes(v => LocalOk(s, n, v, j), j, spawned)
  {
    forall v: View | LocalOk(s, n, v, j) && v.down != [] && v.waiting.None?
      ensures LocalOk(s, n, ViewNote(v, j, spawned), j)
    {
      LocalNote(s, n, v, j, spawned);
    }
  }

  // -------------------------------------------------------------------
  // sbd sending
  // -------------------------------------------------------------------

  lemma {:induction false} LocalSendReply(s: State, n: HostId, v: View, j: JobId)
    requires LocalOk(s, n, v, j) && v.mem.Some? && !v.mem.value.pidAcked
    ensures LocalOk(s, n, ViewSbdSend(v, [ReplyOk(j, v.mem.value.pid, v.mem.value.epoch)]), j)
  {
    SendReplyHeld(v, RoleOf(s, j).m, j);
  }

  lemma {:induction false} LocalSendFinish(s: State, n: HostId, v: View, j: JobId)
    requires LocalOk(s, n, v, j) && v.mem.Some? && v.mem.value.pidAcked && v.mem.value.exitValid
    ensures LocalOk(s, n, ViewSbdSend(v, [Finish(j, v.mem.value.epoch)]), j)
  {
    match RoleOf(s, j)
    case Live(m) => SendFinishHeld(v, m, j);
    case Over(rec) => SendFinishEnded(v, n, j, rec);
  }

  lemma {:induction false} LocalExit(s: State, n: HostId, v: View, j: JobId)
    requires LocalOk(s, n, v, j) && v.mem.Some?
    ensures LocalOk(s, n, v.(mem := Some(v.mem.value.(exitValid := true))), j)
  {
    var w := v.(mem := Some(v.mem.value.(exitValid := true)));
    match RoleOf(s, j)
    case Live(m) => assert HeldHere(w, m, j);
    case Over(rec) => assert Ended(w, j);
  }

  // -------------------------------------------------------------------
  // Steps of one host
  // -------------------------------------------------------------------

  predicate HostOnly(step: Step) {
    step.MbdDisconnect? || step.MbdAcceptStale? || step.SbdReceive? || step.SbdSendReply?
    || step.SbdSendFinish? || step.SbdJobExits? || step.SbdLinkDown? || step.SbdConnect?
    || step.SbdRestart?
  }

  lemma {:induction false} LinkStepLocal(s: State, n: HostId, g: Host, j: JobId)
    requires JobInv(s, j) && n in s.hosts
    requires LinkEvent(ViewOf(s.hosts[n], j), ViewOf(g, j))
    ensures LocalOk(s, n, ViewOf(g, j), j)
  {
    LocalNow(s, n, j);
    LocalLinkEvent(s, n, ViewOf(s.hosts[n], j), ViewOf(g, j), j);
  }

  lemma {:induction false} AcceptStaleLocal(s: State, n: HostId, i: nat, j: JobId)
    requires TablesOk(s) && JobInv(s, j) && n in s.hosts && i < |s.hosts[n].stale|
    ensures LocalOk(s, n, ViewOf(MbdRegisterStale(s.hosts[n], i), j), j)
  {
    var h := s.hosts[n];
    LocalNow(s, n, j);
    RegisterStaleView(h, i, j);
    if h.mbdUp {
      LocalStale(s, n, ViewOf(h, j), ViewOf(MbdRegisterStale(h, i), j), j);
    } else {
      LocalLinkEvent(s, n, ViewOf(h, j), ViewOf(MbdRegisterStale(h, i), j), j);
    }
  }

  lemma {:induction false} SbdReceiveLocal(s: State, n: HostId, spawned: Option<int>, j: JobId)
    requires TablesOk(s) && JobInv(s, j) && n in s.hosts && s.hosts[n].down != []
    requires spawned.Some? ==> spawned.value > 0
    ensures LocalOk(s, n, ViewOf(HostNext(s.hosts[n], SbdReceive(n, spawned)), j), j)
  {
    LocalNow(s, n, j);
    SbdHandleLocal(s, n, s.hosts[n], spawned, j);
  }

  lemma {:induction false} SbdSendReplyLocal(s: State, n: HostId, k: JobId, j: JobId)
    requires JobInv(s, j) && Enabled(s, SbdSendReply(n, k))
    ensures LocalOk(s, n, ViewOf(HostNext(s.hosts[n], SbdSendReply(n, k)), j), j)
  {
    var h := s.hosts[n];
    LocalNow(s, n, j);
    SbdSendView(h, ReplyOk(k, h.mem[k].pid, h.mem[k].epoch), j);
    if k == j { LocalSendReply(s, n, ViewOf(h, j), j); }
  }

  lemma {:induction false} SbdSendFinishLocal(s: State, n: HostId, k: JobId, j: JobId)
    requires JobInv(s, j) && Enabled(s, SbdSendFinish(n, k))
    ensures LocalOk(s, n, ViewOf(HostNext(s.hosts[n], SbdSendFinish(n, k)), j), j)
  {
    var h := s.hosts[n];
    LocalNow(s, n, j);
    SbdSendView(h, Finish(k, h.mem[k].epoch), j);
    if k == j { LocalSendFinish(s, n, ViewOf(h, j), j); }
  }

  lemma {:induction false} SbdExitLocal(s: State, n: HostId, k: JobId, j: JobId)
    requires JobInv(s, j) && Enabled(s, SbdJobExits(n, k))
    ensures LocalOk(s, n, ViewOf(HostNext(s.hosts[n], SbdJobExits(n, k)), j), j)
  {
    var v, w := ViewOf(s.hosts[n], j), ViewOf(HostNext(s.hosts[n], SbdJobExits(n, k)), j);
    LocalNow(s, n, j);
    if k == j {
      LocalExit(s, n, v, j);
      assert w == v.(mem := Some(v.mem.value.(exitValid := true)));
    } else {
      assert w == v;
    }
  }

  lemma {:induction false} LinkDownEvent(h: Host, step: Step, j: JobId)
    requires LinkOk(h) && MemSaved(h, j)
    requires j !in h.mem && j in h.disk ==> h.disk[j].finishAcked
    requires step.MbdDisconnect? || step.SbdLinkDown? || (step.SbdConnect? && !h.sbdUp) || step.SbdRestart?
    ensures LinkEvent(ViewOf(h, j), ViewOf(HostNext(h, step), j))
  {
    hide LinkEvent, ViewOf;
    match step {
      case MbdDisconnect(_, keep) => MbdCutView(h, keep, j);
      case SbdLinkDown(_, keep) => SbdLinkDownView(h, keep, j);
      case SbdConnect(_) => SbdConnectView(h, j);
      case SbdRestart(_, keep) => SbdRestartView(h, keep, j);
    }
  }

  lemma {:induction false} LinkDownLocal(s: State, step: Step, j: JobId)
    requires TablesOk(s) && JobInv(s, j) && Enabled(s, step)
    requires step.MbdDisconnect? || step.SbdLinkDown? || step.SbdConnect? || step.SbdRestart?
    ensures LocalOk(s, step.n, ViewOf(HostNext(s.hosts[step.n], step), j), j)
  {
    SavedNow(s, step.n, j);
    LinkDownEvent(s.hosts[step.n], step, j);
    LinkStepLocal(s, step.n, HostNext(s.hosts[step.n], step), j);
  }

  lemma {:induction false} HostOnlyLocal(s: State, step: Step, j: JobId)
    requires TablesOk(s) && JobInv(s, j) && Enabled(s, step) && HostOnly(step)
    ensures LocalOk(s, step.n, ViewOf(HostNext(s.hosts[step.n], step), j), j)
  {
    match step {
      case MbdAcceptStale(n, i) => AcceptStaleLocal(s, n, i, j);
      case SbdReceive(n, spawned) => SbdReceiveLocal(s, n, spawned, j);
      case SbdSendReply(n, k) => SbdSendReplyLocal(s, n, k, j);
      case SbdSendFinish(n, k) => SbdSendFinishLocal(s, n, k, j);
      case SbdJobExits(n, k) => SbdExitLocal(s, n, k, j);
      case MbdDisconnect(_, _) => LinkDownLocal(s, step, j);
      case SbdLinkDown(_, _) => LinkDownLocal(s, step, j);
      case SbdConnect(_) => LinkDownLocal(s, step, j);
      case SbdRestart(_, _) => LinkDownLocal(s, step, j);
    }
  }

  lemma {:induction false} HostOnlyLink(s: State, step: Step)
    requires TablesOk(s) && Enabled(s, step) && HostOnly(step)
    ensures LinkOk(HostNext(s.hosts[step.n], step))
  {
    if step.SbdReceive? { SbdHandleLink(s.hosts[step.n], step.spawned); }
  }

  lemma {:induction false} HostOnlyKeeps(s: State, step: Step)
    requires Inv(s) && Enabled(s, step) && HostOnly(step)
    ensures Inv(Next(s, step))
  {
    var n := step.n;
    var h := HostNext(s.hosts[n], step);
    forall j: JobId
      ensures JobInv(Next(s, step), j)
    {
      HostOnlyLocal(s, step, j);
      HostReplace(s, n, h, j);
    }
    HostOnlyLink(s, step);
  }

  lemma {:induction false} MbdDieLocal(s: State, n: HostId, keep: nat, j: JobId)
    requires TablesOk(s) && JobInv(s, j) && n in s.hosts
    ensures LocalOk(s, n, ViewOf(MbdDie(s.hosts[n], keep), j), j)
  {
    SavedNow(s, n, j);
    MbdDieView(s.hosts[n], keep, j);
    LinkStepLocal(s, n, MbdDie(s.hosts[n], keep), j);
  }

  /** Replacing every host at once. */
  lemma {:induction false} HostsReplace(s: State, hosts: map<HostId, Host>, j: JobId)
    requires JobInv(s, j) && hosts.Keys == s.hosts.Keys
    requires forall n :: n in hosts ==> LocalOk(s, n, ViewOf(hosts[n], j), j)
    ensures JobInv(s.(hosts := hosts), j)
  {
    var t := s.(hosts := hosts);
    assert RoleOf(t, j) == RoleOf(s, j);
    assert forall n :: HoldsAt(t, n, j) && RoleOf(s, j).Over? ==> HoldsAt(s, n, j);
  }

  lemma {:induction false} MbdRestartJob(s: State, kept: map<HostId, nat>, j: JobId)
    requires TablesOk(s) && JobInv(s, j) && kept.Keys == s.hosts.Keys
    ensures JobInv(Next(s, MbdRestart(kept)), j)
  {
    var hosts := map n | n in s.hosts :: MbdDie(s.hosts[n], kept[n]);
    assert forall n :: n in hosts ==> LocalOk(s, n, ViewOf(hosts[n], j), j) by {
      forall n | n in hosts ensures LocalOk(s, n, ViewOf(hosts[n], j), j) { MbdDieLocal(s, n, kept[n], j); }
    }
    HostsReplace(s, hosts, j);
  }

  lemma {:induction false} MbdRestartKeeps(s: State, kept: map<HostId, nat>)
    requires Inv(s) && kept.Keys == s.hosts.Keys
    ensures Inv(Next(s, MbdRestart(kept)))
  {
    forall j: JobId
      ensures JobInv(Next(s, MbdRestart(kept)), j)
    {
      MbdRestartJob(s, kept, j);
    }
  }
}
