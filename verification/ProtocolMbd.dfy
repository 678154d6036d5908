/** The steps of mbd that change a job's record. */
module ProtocolMbd {
  import opened Protocol
  import opened ProtocolView
  import opened ProtocolLocal
  import opened ProtocolSteps

  // -------------------------------------------------------------------
  // Frames
  // -------------------------------------------------------------------

  ghost predicate SameRecord(s: State, t: State, j: JobId) {
    (j in s.jobs <==> j in t.jobs) && (j in s.jobs ==> t.jobs[j] == s.jobs[j])
  }

  lemma {:induction false} SameHosts(s: State, t: State, j: JobId)
    requires JobInv(s, j) && SameRecord(s, t, j) && t.hosts == s.hosts && RoleOf(t, j) == RoleOf(s, j)
    ensures JobInv(t, j)
  {
    assert forall n :: HoldsAt(t, n, j) <==> HoldsAt(s, n, j);
  }

  lemma {:induction false} OtherJob(s: State, t: State, n: HostId, g: Host, j: JobId)
    requires JobInv(s, j) && n in s.hosts && SameRecord(s, t, j) && t.lastId == s.lastId
    requires t.hosts == s.hosts[n := g] && ViewOf(g, j) == ViewOf(s.hosts[n], j)
    ensures JobInv(t, j)
  {
    LocalNow(s, n, j);
    HostReplace(s, n, g, j);
    SameHosts(s.(hosts := s.hosts[n := g]), t, j);
  }

  lemma {:induction false} LiveToLive(s: State, t: State, n: HostId, g: Host, j: JobId)
    requires JobInv(s, j) && n in s.hosts && t.hosts == s.hosts[n := g]
    requires RoleOf(s, j).Live? && RoleOf(t, j).Live?
    requires RoleOf(s, j).m.host == Some(n) && RoleOf(t, j).m.host == Some(n)
    requires Active(ViewOf(g, j), RoleOf(t, j).m, j)
    ensures JobInv(t, j)
  {
  }

  lemma {:induction false} LiveToIdle(s: State, t: State, n: HostId, g: Host, j: JobId)
    requires JobInv(s, j) && n in s.hosts && t.hosts == s.hosts[n := g]
    requires RoleOf(s, j).Live? && RoleOf(t, j).Idle? && RoleOf(s, j).m.host == Some(n)
    requires j in t.jobs && !t.jobs[j].forked && t.jobs[j].pid == 0
    requires Clear(ViewOf(g, j))
    ensures JobInv(t, j)
  {
  }

  lemma {:induction false} ClearIsEnded(v: View, n: HostId, j: JobId, rec: Option<MbdJob>)
    requires Clear(v)
    requires rec.Some? && rec.value.forked ==> rec.value.host != Some(n)
    ensures EndedAt(v, n, j, rec)
  {
  }

  lemma {:induction false} LiveToOver(s: State, t: State, n: HostId, g: Host, j: JobId)
    requires JobInv(s, j) && n in s.hosts && t.hosts == s.hosts[n := g]
    requires RoleOf(s, j).Live? && RoleOf(s, j).m.host == Some(n)
    requires RoleOf(t, j).Over? && RoleOf(t, j).rec.Some? && RoleOf(t, j).rec.value.host == Some(n)
    requires EndedAt(ViewOf(g, j), n, j, RoleOf(t, j).rec)
    ensures JobInv(t, j)
  {
    forall k | k in t.hosts
      ensures EndedAt(ViewOf(t.hosts[k], j), k, j, RoleOf(t, j).rec)
    {
      if k != n { ClearIsEnded(ViewOf(t.hosts[k], j), k, j, RoleOf(t, j).rec); }
    }
    forall k | k in t.hosts && k != n
      ensures !HoldsAt(t, k, j)
    {
      assert Clear(ViewOf(t.hosts[k], j));
    }
  }

  lemma {:induction false} OverToOver(s: State, t: State, n: HostId, g: Host, j: JobId)
    requires JobInv(s, j) && n in s.hosts && t.hosts == s.hosts[n := g]
    requires SameRecord(s, t, j) && t.lastId == s.lastId && RoleOf(s, j).Over?
    requires EndedAt(ViewOf(g, j), n, j, RoleOf(s, j).rec)
    requires ViewOf(g, j).mem == ViewOf(s.hosts[n], j).mem
    ensures JobInv(t, j)
  {
    HostReplace(s, n, g, j);
    SameHosts(s.(hosts := s.hosts[n := g]), t, j);
  }

  // -------------------------------------------------------------------
  // run_jobs_list
  // -------------------------------------------------------------------

  lemma {:induction false} WithoutSet(run: seq<JobId>, j: JobId)
    requires Distinct(run)
    ensures Distinct(Without(run, j))
    ensures forall k :: k in Without(run, j) <==> k in run && k != j
  {
    if run != [] {
      assert Distinct(run[1..]);
      WithoutSet(run[1..], j);
      assert run == [run[0]] + run[1..];
      if run[0] != j {
        assert run[0] !in run[1..];
      }
    }
  }

  /** build_sbd_run_list names every running job of the host once, with its
      recorded pid, and no other job. */
  lemma {:induction false} RunListForExact(run: seq<JobId>, jobs: map<JobId, MbdJob>, n: HostId, j: JobId)
    requires Distinct(run)
    ensures ListedOf(RunListFor(run, jobs, n), j)
         == if j in run && j in jobs && jobs[j].host == Some(n) then [NoteListed(jobs[j].pid)] else []
  {
    if run != [] {
      assert Distinct(run[1..]);
      RunListForExact(run[1..], jobs, n, j);
      assert run == [run[0]] + run[1..];
      var rest := RunListFor(run[1..], jobs, n);
      if run[0] in jobs && jobs[run[0]].host == Some(n) {
        var w := WireJob(run[0], jobs[run[0]].pid);
        assert ([w] + rest)[1..] == rest;
        assert ListedOf([w] + rest, j) == (if w.job == j then [NoteListed(w.pid)] else []) + ListedOf(rest, j);
      } else {
        assert [] + rest == rest;
      }
      if run[0] == j {
        assert j !in run[1..];
      }
    }
  }

  /** build_sbd_run_list: the host's jobs are counted, then written to an
      array of that size */
  method BuildSbdRunList(run: seq<JobId>, jobs: map<JobId, MbdJob>, n: HostId) returns (ws: array<WireJob>)
    requires forall j :: j in run ==> j in jobs
    ensures ws[..] == RunListFor(run, jobs, n)
  {
    var count := 0;
    var k := 0;
    while k < |run|
      invariant 0 <= k <= |run| && count >= 0
      invariant count + |RunListFor(run[k..], jobs, n)| == |RunListFor(run, jobs, n)|
    {
      assert run[k..][1..] == run[k + 1..] && run[k] in run;
      if jobs[run[k]].host == Some(n) {
        count := count + 1;
      }
      k := k + 1;
    }
    ws := new WireJob[count];
    var i := 0;
    k := 0;
    while k < |run|
      invariant 0 <= k <= |run| && 0 <= i <= count
      invariant i + |RunListFor(run[k..], jobs, n)| == count
      invariant ws[..i] + RunListFor(run[k..], jobs, n) == RunListFor(run, jobs, n)
    {
      assert run[k..][1..] == run[k + 1..] && run[k] in run;
      ghost var rest := RunListFor(run[k + 1..], jobs, n);
      if jobs[run[k]].host == Some(n) {
        assert RunListFor(run[k..], jobs, n) == [WireJob(run[k], jobs[run[k]].pid)] + rest;
        ws[i] := WireJob(run[k], jobs[run[k]].pid);
        assert ws[..i + 1] + rest == ws[..i] + ([ws[i]] + rest);
        i := i + 1;
      } else {
        assert RunListFor(run[k..], jobs, n) == rest;
      }
      k := k + 1;
    }
  }

  // -------------------------------------------------------------------
  // Registration and dispatch
  // -------------------------------------------------------------------

  lemma {:induction false} RegisterRefusedJob(s: State, n: HostId, j: JobId)
    requires TablesOk(s) && JobInv(s, j) && n in s.hosts && s.hosts[n].waiting.Some? && s.hosts[n].mbdUp
    ensures JobInv(MbdRegister(s, n), j)
  {
    var g := s.hosts[n].(waiting := None);
    SavedNow(s, n, j);
    RegisterRefusedView(s.hosts[n], j);
    LinkStepLocal(s, n, g, j);
    HostReplace(s, n, g, j);
  }

  lemma {:induction false} RegisterLocal(s: State, n: HostId, v: View, j: JobId, listed: seq<Note>)
    requires LocalOk(s, n, v, j) && v.waiting.Some? && v.down == [] && v.up == []
    requires listed == if RoleOf(s, j).Live? && RoleOf(s, j).m.host == Some(n)
                       then [NoteListed(RoleOf(s, j).m.pid)] else []
    ensures LocalOk(s, n, ViewRegister(v, listed), j)
  {
    match RoleOf(s, j)
    case Idle => RegisterClear(v);
    case Live(m) =>
      if m.host == Some(n) { RegisterActive(v, m, j); } else { RegisterClear(v); }
    case Over(rec) => RegisterEnded(v, n, j, rec);
  }

  lemma {:induction false} RegisterAcceptedJob(s: State, n: HostId, j: JobId)
    requires TablesOk(s) && JobInv(s, j) && n in s.hosts && s.hosts[n].waiting.Some? && !s.hosts[n].mbdUp
    ensures JobInv(MbdRegister(s, n), j)
  {
    var ws := RunListFor(s.run, s.jobs, n);
    var g := MbdRegister(s, n).hosts[n];
    LocalNow(s, n, j);
    RegisterView(s.hosts[n], ws, j);
    RunListForExact(s.run, s.jobs, n, j);
    RegisterLocal(s, n, ViewOf(s.hosts[n], j), j, ListedOf(ws, j));
    HostReplace(s, n, g, j);
  }

  lemma {:induction false} AcceptKeeps(s: State, n: HostId)
    requires Inv(s) && Enabled(s, MbdAccept(n))
    ensures Inv(Next(s, MbdAccept(n)))
  {
    forall j: JobId
      ensures JobInv(Next(s, MbdAccept(n)), j)
    {
      if s.hosts[n].mbdUp { RegisterRefusedJob(s, n, j); } else { RegisterAcceptedJob(s, n, j); }
    }
  }

  lemma {:induction false} DispatchSubject(s: State, j: JobId, n: HostId)
    requires JobInv(s, j) && Enabled(s, Dispatch(j, n))
    ensures JobInv(Next(s, Dispatch(j, n)), j)
  {
    var t := Next(s, Dispatch(j, n));
    var m := t.jobs[j];
    MbdSendView(s.hosts[n], NewJob(j, m.epoch), j);
    assert Clear(ViewOf(s.hosts[n], j));
    DispatchView(ViewOf(s.hosts[n], j), m, j);
  }

  lemma {:induction false} DispatchKeeps(s: State, k: JobId, n: HostId)
    requires Inv(s) && Enabled(s, Dispatch(k, n))
    ensures Inv(Next(s, Dispatch(k, n)))
  {
    var t := Next(s, Dispatch(k, n));
    forall j: JobId
      ensures JobInv(t, j)
    {
      assert JobInv(s, j);
      if j == k {
        DispatchSubject(s, j, n);
      } else {
        MbdSendView(s.hosts[n], NewJob(k, t.jobs[k].epoch), j);
        OtherJob(s, t, n, t.hosts[n], j);
      }
    }
    assert k !in s.run;
  }

  // -------------------------------------------------------------------
  // mbd reading a message
  // -------------------------------------------------------------------

  lemma {:induction false} PopView(h: Host, j: JobId)
    requires h.up != []
    ensures ViewOf(h.(up := h.up[1..]), j)
         == if h.up[0].job == j then ViewOf(h, j).(up := ViewOf(h, j).up[1..]) else ViewOf(h, j)
    ensures h.up[0].job == j ==> ViewOf(h, j).up != [] && ViewOf(h, j).up[0] == h.up[0]
  {
    var rest := UpOf(h.up[1..], j);
    if h.up[0].job == j {
      assert UpOf(h.up, j) == [h.up[0]] + rest;
      assert ([h.up[0]] + rest)[1..] == rest;
    } else {
      assert UpOf(h.up, j) == [] + rest;
    }
  }

  /** A message about a job comes from the host the job was sent to. */
  lemma {:induction false} SenderIsHost(s: State, n: HostId, j: JobId)
    requires JobInv(s, j) && n in s.hosts && ViewOf(s.hosts[n], j).up != []
    ensures RoleOf(s, j).Live? ==> RoleOf(s, j).m.host == Some(n) && Active(ViewOf(s.hosts[n], j), RoleOf(s, j).m, j)
    ensures RoleOf(s, j).Over? ==> EndedAt(ViewOf(s.hosts[n], j), n, j, RoleOf(s, j).rec)
    ensures !RoleOf(s, j).Idle?
  {
  }

  lemma {:induction false} ReplyOkLive(s: State, n: HostId)
    requires Enabled(s, MbdReceive(n)) && s.hosts[n].up[0].ReplyOk? && JobInv(s, s.hosts[n].up[0].job)
    requires RoleOf(s, s.hosts[n].up[0].job).Live?
    ensures !MbdFault(s, n, s.hosts[n].up[0])
    ensures JobInv(Next(s, MbdReceive(n)), s.hosts[n].up[0].job)
  {
    var j := s.hosts[n].up[0].job;
    var t := Next(s, MbdReceive(n));
    var m := RoleOf(s, j).m;
    PopView(s.hosts[n], j);
    SenderIsHost(s, n, j);
    ReplyOkView(ViewOf(s.hosts[n], j), m, j);
    MbdSendView(s.hosts[n].(up := s.hosts[n].up[1..]), ReplyAck(j, m.epoch), j);
    LiveToLive(s, t, n, t.hosts[n], j);
  }

  /** A late reply for a job mbd has finished, or has already purged. */
  lemma {:induction false} ReplyOkEnded(s: State, n: HostId)
    requires Enabled(s, MbdReceive(n)) && s.hosts[n].up[0].ReplyOk? && JobInv(s, s.hosts[n].up[0].job)
    requires RoleOf(s, s.hosts[n].up[0].job).Over? && RoleOf(s, s.hosts[n].up[0].job).rec.Some?
    ensures !MbdFault(s, n, s.hosts[n].up[0])
    ensures JobInv(Next(s, MbdReceive(n)), s.hosts[n].up[0].job)
  {
    var j := s.hosts[n].up[0].job;
    var t := Next(s, MbdReceive(n));
    var rec := RoleOf(s, j).rec;
    PopView(s.hosts[n], j);
    SenderIsHost(s, n, j);
    EndedReceive(ViewOf(s.hosts[n], j), n, j, rec, [NoteAck(rec.value.epoch)]);
    ReplyOkAcked(s, n);
    hide JobInv, EndedAt, ViewOf;
    MbdSendView(s.hosts[n].(up := s.hosts[n].up[1..]), ReplyAck(j, rec.value.epoch), j);
    OverToOver(s, t, n, t.hosts[n], j);
  }

  lemma {:induction false} ReplyOkAcked(s: State, n: HostId)
    requires Enabled(s, MbdReceive(n)) && s.hosts[n].up[0].ReplyOk?
    requires var j := s.hosts[n].up[0].job; j in s.jobs && s.jobs[j].forked
    ensures var t := Next(s, MbdReceive(n));
            var u := s.hosts[n].up[0];
            && t.hosts == s.hosts[n := MbdSend(s.hosts[n].(up := s.hosts[n].up[1..]), ReplyAck(u.job, s.jobs[u.job].epoch))]
            && t.jobs == s.jobs && t.lastId == s.lastId
  {
  }

  lemma {:induction false} ReplyOkUnknown(s: State, n: HostId)
    requires Enabled(s, MbdReceive(n)) && s.hosts[n].up[0].ReplyOk? && JobInv(s, s.hosts[n].up[0].job)
    requires RoleOf(s, s.hosts[n].up[0].job).Over? && RoleOf(s, s.hosts[n].up[0].job).rec.None?
    ensures !MbdFault(s, n, s.hosts[n].up[0])
    ensures JobInv(Next(s, MbdReceive(n)), s.hosts[n].up[0].job)
  {
    var j := s.hosts[n].up[0].job;
    var t := Next(s, MbdReceive(n));
    PopView(s.hosts[n], j);
    SenderIsHost(s, n, j);
    EndedReceive(ViewOf(s.hosts[n], j), n, j, None, []);
    assert ViewOf(s.hosts[n].(up := s.hosts[n].up[1..]), j).down + [] == ViewOf(s.hosts[n], j).down;
    OverToOver(s, t, n, t.hosts[n], j);
  }

  lemma {:induction false} ReplyOkOver(s: State, n: HostId)
    requires Enabled(s, MbdReceive(n)) && s.hosts[n].up[0].ReplyOk? && JobInv(s, s.hosts[n].up[0].job)
    requires RoleOf(s, s.hosts[n].up[0].job).Over?
    ensures !MbdFault(s, n, s.hosts[n].up[0])
    ensures JobInv(Next(s, MbdReceive(n)), s.hosts[n].up[0].job)
  {
    if RoleOf(s, s.hosts[n].up[0].job).rec.Some? { ReplyOkEnded(s, n); } else { ReplyOkUnknown(s, n); }
  }

  lemma {:induction false} ReplyOkSubject(s: State, n: HostId)
    requires Enabled(s, MbdReceive(n)) && s.hosts[n].up[0].ReplyOk? && JobInv(s, s.hosts[n].up[0].job)
    ensures !MbdFault(s, n, s.hosts[n].up[0])
    ensures JobInv(Next(s, MbdReceive(n)), s.hosts[n].up[0].job)
  {
    var j := s.hosts[n].up[0].job;
    PopView(s.hosts[n], j);
    SenderIsHost(s, n, j);
    if RoleOf(s, j).Live? { ReplyOkLive(s, n); } else { ReplyOkOver(s, n); }
  }

  lemma {:induction false} ReplyErrSubject(s: State, n: HostId)
    requires Enabled(s, MbdReceive(n)) && s.hosts[n].up[0].ReplyErr? && JobInv(s, s.hosts[n].up[0].job)
    ensures !MbdFault(s, n, s.hosts[n].up[0])
    ensures JobInv(Next(s, MbdReceive(n)), s.hosts[n].up[0].job)
  {
    var j := s.hosts[n].up[0].job;
    var t := Next(s, MbdReceive(n));
    var h := s.hosts[n].(up := s.hosts[n].up[1..]);
    PopView(s.hosts[n], j);
    SenderIsHost(s, n, j);
    if RoleOf(s, j).Over? {
      EndedReceive(ViewOf(s.hosts[n], j), n, j, RoleOf(s, j).rec, []);
    }
    var m := RoleOf(s, j).m;
    ReplyErrView(ViewOf(s.hosts[n], j), m, j);
    MbdSendView(h, ReplyAck(j, m.epoch), j);
    LiveToIdle(s, t, n, t.hosts[n], j);
  }

  lemma {:induction false} MissingSubject(s: State, n: HostId)
    requires Enabled(s, MbdReceive(n)) && s.hosts[n].up[0].Missing? && JobInv(s, s.hosts[n].up[0].job)
    ensures !MbdFault(s, n, s.hosts[n].up[0])
    ensures JobInv(Next(s, MbdReceive(n)), s.hosts[n].up[0].job)
  {
    var j := s.hosts[n].up[0].job;
    var t := Next(s, MbdReceive(n));
    PopView(s.hosts[n], j);
    SenderIsHost(s, n, j);
    if RoleOf(s, j).Over? {
      EndedReceive(ViewOf(s.hosts[n], j), n, j, RoleOf(s, j).rec, []);
    }
    MissingView(ViewOf(s.hosts[n], j), RoleOf(s, j).m, j);
    LiveToIdle(s, t, n, t.hosts[n], j);
  }

  lemma {:induction false} FinishLive(s: State, n: HostId)
    requires Enabled(s, MbdReceive(n)) && s.hosts[n].up[0].Finish? && JobInv(s, s.hosts[n].up[0].job)
    requires RoleOf(s, s.hosts[n].up[0].job).Live?
    ensures !MbdFault(s, n, s.hosts[n].up[0])
    ensures JobInv(Next(s, MbdReceive(n)), s.hosts[n].up[0].job)
  {
    var j := s.hosts[n].up[0].job;
    var t := Next(s, MbdReceive(n));
    PopView(s.hosts[n], j);
    SenderIsHost(s, n, j);
    MbdSendView(s.hosts[n].(up := s.hosts[n].up[1..]), FinishAck(j), j);
    FinishView(ViewOf(s.hosts[n], j), RoleOf(s, j).m, n, j);
    LiveToOver(s, t, n, t.hosts[n], j);
  }

  lemma {:induction false} FinishOver(s: State, n: HostId)
    requires Enabled(s, MbdReceive(n)) && s.hosts[n].up[0].Finish? && JobInv(s, s.hosts[n].up[0].job)
    requires RoleOf(s, s.hosts[n].up[0].job).Over?
    ensures !MbdFault(s, n, s.hosts[n].up[0])
    ensures JobInv(Next(s, MbdReceive(n)), s.hosts[n].up[0].job)
  {
    var j := s.hosts[n].up[0].job;
    var t := Next(s, MbdReceive(n));
    PopView(s.hosts[n], j);
    SenderIsHost(s, n, j);
    MbdSendView(s.hosts[n].(up := s.hosts[n].up[1..]), FinishAck(j), j);
    EndedReceive(ViewOf(s.hosts[n], j), n, j, RoleOf(s, j).rec, [NoteFin]);
    OverToOver(s, t, n, t.hosts[n], j);
  }

  lemma {:induction false} FinishSubject(s: State, n: HostId)
    requires Enabled(s, MbdReceive(n)) && s.hosts[n].up[0].Finish? && JobInv(s, s.hosts[n].up[0].job)
    ensures !MbdFault(s, n, s.hosts[n].up[0])
    ensures JobInv(Next(s, MbdReceive(n)), s.hosts[n].up[0].job)
  {
    if RoleOf(s, s.hosts[n].up[0].job).Live? { FinishLive(s, n); } else { FinishOver(s, n); }
  }

  lemma {:induction false} ReceiveSubject(s: State, n: HostId)
    requires Enabled(s, MbdReceive(n)) && JobInv(s, s.hosts[n].up[0].job)
    ensures !MbdFault(s, n, s.hosts[n].up[0])
    ensures JobInv(Next(s, MbdReceive(n)), s.hosts[n].up[0].job)
  {
    match s.hosts[n].up[0] {
      case ReplyOk(_, _, _) => ReplyOkSubject(s, n);
      case ReplyErr(_, _) => ReplyErrSubject(s, n);
      case Finish(_, _) => FinishSubject(s, n);
      case Missing(_) => MissingSubject(s, n);
    }
  }

  /** What the handlers can change, given that no unexpected branch is taken. */
  lemma {:induction false} ReceiveShape(s: State, n: HostId)
    requires Enabled(s, MbdReceive(n)) && !MbdFault(s, n, s.hosts[n].up[0])
    ensures var u := s.hosts[n].up[0];
            var t := Next(s, MbdReceive(n));
            var h := s.hosts[n].(up := s.hosts[n].up[1..]);
            && t.lastId == s.lastId
            && t.hosts == s.hosts[n := t.hosts[n]]
            && (t.hosts[n] == h || t.hosts[n] == MbdSend(h, FinishAck(u.job))
                || exists e :: t.hosts[n] == MbdSend(h, ReplyAck(u.job, e)))
            && (forall j :: j != u.job ==> SameRecord(s, t, j))
  {
  }

  lemma {:induction false} ReceiveOther(s: State, n: HostId, j: JobId)
    requires Enabled(s, MbdReceive(n)) && !MbdFault(s, n, s.hosts[n].up[0])
    requires JobInv(s, j) && j != s.hosts[n].up[0].job
    ensures JobInv(Next(s, MbdReceive(n)), j)
  {
    var u := s.hosts[n].up[0];
    var t := Next(s, MbdReceive(n));
    var h := s.hosts[n].(up := s.hosts[n].up[1..]);
    ReceiveShape(s, n);
    PopView(s.hosts[n], j);
    MbdSendView(h, FinishAck(u.job), j);
    forall e: nat
      ensures ViewOf(MbdSend(h, ReplyAck(u.job, e)), j) == ViewOf(h, j)
    {
      MbdSendView(h, ReplyAck(u.job, e), j);
    }
    OtherJob(s, t, n, t.hosts[n], j);
  }

  lemma {:induction false} ReceiveTables(s: State, n: HostId)
    requires TablesOk(s) && Enabled(s, MbdReceive(n)) && !MbdFault(s, n, s.hosts[n].up[0])
    ensures TablesOk(Next(s, MbdReceive(n)))
  {
    ReceiveShape(s, n);
    WithoutSet(s.run, s.hosts[n].up[0].job);
  }

  lemma {:induction false} ReceiveKeeps(s: State, n: HostId)
    requires Inv(s) && Enabled(s, MbdReceive(n))
    ensures !MbdFault(s, n, s.hosts[n].up[0])
    ensures Inv(Next(s, MbdReceive(n)))
  {
    var u := s.hosts[n].up[0];
    ReceiveSubject(s, n);
    forall j: JobId
      ensures JobInv(Next(s, MbdReceive(n)), j)
    {
      if j != u.job { ReceiveOther(s, n, j); }
    }
    ReceiveTables(s, n);
  }

  // -------------------------------------------------------------------
  // Client requests and compaction
  // -------------------------------------------------------------------

  lemma {:induction false} KillSubject(s: State, j: JobId)
    requires JobInv(s, j) && Enabled(s, KillPending(j))
    ensures JobInv(Next(s, KillPending(j)), j)
  {
    var t := Next(s, KillPending(j));
    forall n | n in t.hosts
      ensures EndedAt(ViewOf(t.hosts[n], j), n, j, Some(t.jobs[j])) && !HoldsAt(t, n, j)
    {
      assert Clear(ViewOf(s.hosts[n], j));
      ClearIsEnded(ViewOf(t.hosts[n], j), n, j, Some(t.jobs[j]));
    }
  }

  lemma {:induction false} PurgeSubject(s: State, j: JobId)
    requires JobInv(s, j) && Enabled(s, Purge(j)) && j <= s.lastId
    ensures JobInv(Next(s, Purge(j)), j)
  {
    var t := Next(s, Purge(j));
    var rec := Some(s.jobs[j]);
    forall n | n in t.hosts
      ensures EndedAt(ViewOf(t.hosts[n], j), n, j, None)
    {
      var v := ViewOf(s.hosts[n], j);
      assert EndedAt(v, n, j, rec);
      assert SomeReports(v);
    }
    assert forall n :: HoldsAt(t, n, j) <==> HoldsAt(s, n, j);
  }

  lemma {:induction false} RequestKeeps(s: State, step: Step)
    requires Inv(s) && Enabled(s, step)
    requires step.Submit? || step.Hold? || step.Resume? || step.KillPending? || step.Purge?
    ensures Inv(Next(s, step))
  {
    var t := Next(s, step);
    forall j: JobId
      ensures JobInv(t, j)
    {
      assert JobInv(s, j);
      if step.KillPending? && j == step.j {
        KillSubject(s, j);
      } else if step.Purge? && j == step.j {
        PurgeSubject(s, j);
      } else if step.Submit? && s.lastId < j < step.j {
        SkippedSubject(s, t, j);
      } else if SameRecord(s, t, j) {
        SameHosts(s, t, j);
      }
    }
  }

  /** An id that is passed over was never anybody's. */
  lemma {:induction false} SkippedSubject(s: State, t: State, j: JobId)
    requires JobInv(s, j) && RoleOf(s, j).Idle? && RoleOf(t, j) == Over(None) && t.hosts == s.hosts
    ensures JobInv(t, j)
  {
    forall k | k in t.hosts
      ensures EndedAt(ViewOf(t.hosts[k], j), k, j, None) && !HoldsAt(t, k, j)
    {
      assert Clear(ViewOf(s.hosts[k], j));
      ClearIsEnded(ViewOf(t.hosts[k], j), k, j, None);
    }
  }
}
