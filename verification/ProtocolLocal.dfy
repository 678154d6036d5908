/** What the steps do to one job's view of one host. */
module ProtocolLocal {
  import opened Protocol
  import opened ProtocolView

  // -------------------------------------------------------------------
  // Connections going away, and coming up unregistered
  // -------------------------------------------------------------------

  ghost predicate Prefix<T>(a: seq<T>, b: seq<T>) { a <= b }

  /** The job is still there after the daemon's memory was kept or reloaded. */
  ghost predicate SameJob(v: View, w: View) {
    && (if v.mem.Some? then
          && FileMatches(w)
          && w.mem.value.pid == v.mem.value.pid
          && w.mem.value.epoch == v.mem.value.epoch
          && w.mem.value.pidAcked == v.mem.value.pidAcked
        else w.mem.None? && w.file == v.file)
    && (w.mem == v.mem || (w.down == [] && !FinishSent(w)))
  }

  /** Every queue of w is what is left of a queue of v. */
  ghost predicate LinkEvent(v: View, w: View) {
    && !w.joined
    && (Prefix(w.up, v.up) || (v.up == [] && w.up in v.stale))
    && (w.waiting.None? || w.waiting == v.waiting || w.waiting.value == [])
    && (forall i :: 0 <= i < |w.stale| ==>
          w.stale[i] in v.stale || (v.waiting.Some? && Prefix(w.stale[i], v.waiting.value)))
    && Prefix(w.down, v.down)
    && SameJob(v, w)
  }

  lemma {:induction false} PrefixTail(a: seq<Note>, b: seq<Note>)
    requires Prefix(a, b) && a != []
    ensures b != [] && a[0] == b[0] && Prefix(a[1..], b[1..]) && a[1..] == b[1..|a|]
  {
  }

  lemma {:induction false} LinkEventQuiet(v: View, w: View)
    requires LinkEvent(v, w) && Quiet(v)
    ensures Quiet(w)
  {
  }

  lemma {:induction false} LinkEventClear(v: View, w: View)
    requires LinkEvent(v, w) && Clear(v)
    ensures Clear(w)
  {
    LinkEventQuiet(v, w);
  }

  lemma {:induction false} LinkEventReports(v: View, w: View, j: JobId, pid: int, e: nat, acked: bool)
    requires LinkEvent(v, w) && AllReports(v, j, pid, e, acked)
    ensures AllReports(w, j, pid, e, acked)
  {
  }

  lemma {:induction false} LinkEventActive(v: View, w: View, m: MbdJob, j: JobId)
    requires LinkEvent(v, w) && Active(v, m, j)
    ensures Active(w, m, j)
  {
    if HeldHere(v, m, j) {
      LinkEventReports(v, w, j, v.mem.value.pid, v.mem.value.epoch, v.mem.value.pidAcked);
      assert HeldHere(w, m, j);
    } else if OnItsWay(v, m) {
      LinkEventQuiet(v, w);
      if |w.down| == |v.down| {
        assert w.down == v.down;
        assert OnItsWay(w, m);
      } else {
        assert Lost(w, m);
      }
    } else if Answered(v, m, j) {
      LinkEventQuiet(v.(up := []), w.(up := []));
      if |w.up| == 0 {
        assert Lost(w, m);
      } else {
        assert w.up == v.up;
        assert Answered(w, m, j);
      }
    } else if Asked(v, m) {
      LinkEventQuiet(v, w);
      if |w.down| == 0 {
        assert Lost(w, m);
      } else {
        PrefixTail(w.down, v.down);
        assert Asked(w, m);
      }
    } else {
      LinkEventClear(v, w);
    }
  }

  lemma {:induction false} LinkEventEnded(v: View, w: View, n: HostId, j: JobId, rec: Option<MbdJob>)
    requires LinkEvent(v, w) && EndedAt(v, n, j, rec)
    ensures EndedAt(w, n, j, rec)
  {
    assert Ended(w, j);
    if rec.Some? && rec.value.host == Some(n) && rec.value.forked {
      LinkEventReports(v, w, j, rec.value.pid, rec.value.epoch, true);
    }
  }

  ghost predicate MemSaved(h: Host, j: JobId) {
    j in h.mem ==> FileMatches(ViewOf(h, j))
  }

  lemma {:induction false} SbdCutView(h: Host, keep: nat, j: JobId)
    requires LinkOk(h) && MemSaved(h, j)
    ensures LinkEvent(ViewOf(h, j), ViewOf(SbdCut(h, keep), j))
  {
    UpOfTake(h.up, keep, j);
    if h.waiting.Some? {
      UpOfTake(h.waiting.value, keep, j);
    }
    var v, w := ViewOf(h, j), ViewOf(SbdCut(h, keep), j);
    forall i | 0 <= i < |w.stale|
      ensures w.stale[i] in v.stale || (v.waiting.Some? && Prefix(w.stale[i], v.waiting.value))
    {
      if i < |h.stale| { assert w.stale[i] == v.stale[i]; }
    }
  }

  lemma {:induction false} SbdLinkDownView(h: Host, keep: nat, j: JobId)
    requires LinkOk(h) && MemSaved(h, j)
    ensures LinkEvent(ViewOf(h, j), ViewOf(SbdCut(h.(disk := SaveAll(h)), keep), j))
  {
    SbdCutView(h.(disk := SaveAll(h)), keep, j);
  }

  lemma {:induction false} SbdRestartView(h: Host, keep: nat, j: JobId)
    requires LinkOk(h) && MemSaved(h, j)
    requires j !in h.mem ==> j !in h.disk || h.disk[j].finishAcked
    ensures LinkEvent(ViewOf(h, j), ViewOf(SbdCut(h.(mem := LoadAll(h.disk)), keep), j))
  {
    SbdCutView(h.(mem := LoadAll(h.disk)), keep, j);
  }

  lemma {:induction false} SbdConnectView(h: Host, j: JobId)
    requires LinkOk(h) && MemSaved(h, j) && !h.sbdUp
    ensures LinkEvent(ViewOf(h, j), ViewOf(h.(sbdUp := true, waiting := Some([])), j))
  {
    var v, w := ViewOf(h, j), ViewOf(h.(sbdUp := true, waiting := Some([])), j);
    assert w.stale == v.stale;
  }

  lemma {:induction false} MbdCutView(h: Host, keep: nat, j: JobId)
    requires LinkOk(h) && MemSaved(h, j)
    ensures LinkEvent(ViewOf(h, j), ViewOf(MbdCut(h, keep), j))
  {
    DownOfTake(h.down, keep, j);
    assert ViewOf(MbdCut(h, keep), j).stale == ViewOf(h, j).stale;
  }

  lemma {:induction false} MbdDieView(h: Host, keep: nat, j: JobId)
    requires LinkOk(h) && MemSaved(h, j)
    ensures LinkEvent(ViewOf(h, j), ViewOf(MbdDie(h, keep), j))
  {
    MbdCutView(h, keep, j);
  }

  lemma {:induction false} RegisterRefusedView(h: Host, j: JobId)
    requires LinkOk(h) && MemSaved(h, j) && h.waiting.Some?
    ensures LinkEvent(ViewOf(h, j), ViewOf(h.(waiting := None), j))
  {
    assert ViewOf(h.(waiting := None), j).stale == ViewOf(h, j).stale;
  }

  /** Registering a channel whose sender is gone only matters when sbd's own
      channel is not the registered one. */
  lemma {:induction false} RegisterStaleView(h: Host, i: nat, j: JobId)
    requires LinkOk(h) && MemSaved(h, j) && i < |h.stale|
    ensures h.mbdUp ==> ViewOf(MbdRegisterStale(h, i), j).(stale := []) == ViewOf(h, j).(stale := [])
    ensures !h.mbdUp ==> LinkEvent(ViewOf(h, j), ViewOf(MbdRegisterStale(h, i), j))
    ensures forall k :: 0 <= k < |ViewOf(MbdRegisterStale(h, i), j).stale| ==>
              ViewOf(MbdRegisterStale(h, i), j).stale[k] in ViewOf(h, j).stale
  {
    var v, w := ViewOf(h, j), ViewOf(MbdRegisterStale(h, i), j);
    forall k | 0 <= k < |w.stale|
      ensures w.stale[k] in v.stale
    {
      assert w.stale[k] == if k < i then v.stale[k] else v.stale[k + 1];
    }
    assert v.stale[i] == UpOf(h.stale[i], j);
  }

  // -------------------------------------------------------------------
  // Registration
  // -------------------------------------------------------------------

  function ViewRegister(v: View, listed: seq<Note>): View
    requires v.waiting.Some?
  {
    v.(mbdUp := true, joined := true, waiting := None, up := v.waiting.value, down := v.down + listed)
  }

  lemma {:induction false} RegisterView(h: Host, ws: seq<WireJob>, j: JobId)
    requires h.waiting.Some?
    ensures ViewOf(h.(mbdUp := true, joined := true, waiting := None, up := h.waiting.value,
                      down := h.down + [RegisterAck(ws)]), j)
         == ViewRegister(ViewOf(h, j), ListedOf(ws, j))
  {
    DownOfConcat(h.down, [RegisterAck(ws)], j);
    assert DownOf([RegisterAck(ws)], j) == ListedOf(ws, j) + DownOf([], j);
  }

  lemma {:induction false} RegisterClear(v: View)
    requires Clear(v) && v.waiting.Some?
    ensures Clear(ViewRegister(v, []))
  {
  }

  lemma {:induction false} RegisterActive(v: View, m: MbdJob, j: JobId)
    requires Active(v, m, j) && v.waiting.Some? && v.down == [] && v.up == []
    ensures Active(ViewRegister(v, [NoteListed(m.pid)]), m, j)
  {
    var w := ViewRegister(v, [NoteListed(m.pid)]);
    if HeldHere(v, m, j) {
      assert HeldHere(w, m, j);
    } else {
      assert Lost(v, m);
      assert Asked(w, m);
    }
  }

  lemma {:induction false} RegisterEnded(v: View, n: HostId, j: JobId, rec: Option<MbdJob>)
    requires EndedAt(v, n, j, rec) && v.waiting.Some?
    ensures EndedAt(ViewRegister(v, []), n, j, rec)
  {
  }

  // -------------------------------------------------------------------
  // mbd sends and receives
  // -------------------------------------------------------------------

  lemma {:induction false} DispatchView(v: View, m: MbdJob, j: JobId)
    requires Clear(v) && !m.forked && m.pid == 0
    ensures Active(ViewMbdSend(v, [NoteNew(m.epoch)]), m, j)
  {
    var w := ViewMbdSend(v, [NoteNew(m.epoch)]);
    if v.joined {
      assert w.down[..|w.down| - 1] == v.down;
      assert OnItsWay(w, m);
    } else {
      assert Lost(w, m);
    }
  }

  lemma {:induction false} ReplyOkView(v: View, m: MbdJob, j: JobId)
    requires Active(v, m, j) && v.up != [] && v.up[0].ReplyOk?
    ensures HeldHere(v, m, j)
    ensures v.up[0] == ReplyOk(j, v.mem.value.pid, m.epoch)
    ensures m.forked ==> m.pid == v.mem.value.pid
    ensures Active(ViewMbdSend(v.(up := v.up[1..]), [NoteAck(m.epoch)]),
                   m.(forked := true, pid := v.mem.value.pid), j)
  {
    assert Report(v.up[0], j, v.mem.value.pid, v.mem.value.epoch, v.mem.value.pidAcked);
    var w := ViewMbdSend(v.(up := v.up[1..]), [NoteAck(m.epoch)]);
    assert HeldHere(w, m.(forked := true, pid := v.mem.value.pid), j);
  }

  lemma {:induction false} ReplyErrView(v: View, m: MbdJob, j: JobId)
    requires Active(v, m, j) && v.up != [] && v.up[0].ReplyErr?
    ensures !m.forked && v.up[0] == ReplyErr(j, m.epoch)
    ensures Clear(ViewMbdSend(v.(up := v.up[1..]), [NoteAck(m.epoch)]))
  {
  }

  lemma {:induction false} MissingView(v: View, m: MbdJob, j: JobId)
    requires Active(v, m, j) && v.up != [] && v.up[0].Missing?
    ensures !m.forked
    ensures Clear(v.(up := v.up[1..]))
  {
  }

  lemma {:induction false} FinishView(v: View, m: MbdJob, n: HostId, j: JobId)
    requires Active(v, m, j) && v.up != [] && v.up[0].Finish? && m.host == Some(n)
    ensures HeldHere(v, m, j) && m.forked && v.up[0] == Finish(j, m.epoch)
    ensures EndedAt(ViewMbdSend(v.(up := v.up[1..]), [NoteFin]), n, j, Some(m.(phase := Finished)))
  {
    assert Report(v.up[0], j, v.mem.value.pid, v.mem.value.epoch, v.mem.value.pidAcked);
    var w := ViewMbdSend(v.(up := v.up[1..]), [NoteFin]);
    assert v.joined ==> FinishSent(v);
    assert FinishSent(w) ==> FinishSent(v);
    assert Ended(w, j);
  }

  /** Whatever mbd answers about a job it is done with leaves it done. */
  lemma {:induction false} EndedReceive(v: View, n: HostId, j: JobId, rec: Option<MbdJob>, notes: seq<Note>)
    requires EndedAt(v, n, j, rec) && v.up != []
    requires notes == [] || (notes == [NoteFin] && v.up[0].Finish?) || OnlyAcks(notes)
    ensures v.up[0].ReplyOk? || v.up[0].Finish?
    ensures rec.Some? ==> rec.value.host == Some(n) && rec.value.forked
                          && Report(v.up[0], j, rec.value.pid, rec.value.epoch, true)
    ensures EndedAt(ViewMbdSend(v.(up := v.up[1..]), notes), n, j, rec)
  {
    var w := ViewMbdSend(v.(up := v.up[1..]), notes);
    assert v.joined && v.up[0].Finish? ==> FinishSent(v);
    assert FinishSent(w) ==> FinishSent(v);
    assert Ended(w, j);
  }

  // -------------------------------------------------------------------
  // sbd receives and sends
  // -------------------------------------------------------------------

  function ViewNote(v: View, j: JobId, spawned: Option<int>): View
    requires v.down != []
  {
    var w := v.(down := v.down[1..]);
    match v.down[0]
    case NoteNew(e) =>
      if v.mem.Some? then ViewSbdSend(w, [ReplyOk(j, v.mem.value.pid, v.mem.value.epoch)])
      else if spawned.None? then ViewSbdSend(w, [ReplyErr(j, e)])
      else
        var job := SbdJob(spawned.value, false, false, e);
        ViewSbdSend(w.(mem := Some(job), file := Some(SbdFile(job, false))), [ReplyOk(j, job.pid, e)])
    case NoteAck(_) =>
      if v.mem.None? || v.mem.value.pidAcked then w
      else
        var job := v.mem.value.(pidAcked := true);
        w.(mem := Some(job), file := Some(SbdFile(job, false)))
    case NoteFin =>
      if v.mem.None? then w else w.(mem := None, file := Some(SbdFile(v.mem.value, true)))
    case NoteListed(q) =>
      if v.mem.None? then ViewSbdSend(w, [Missing(j)])
      else if q > 0 then w
      else w.(mem := Some(v.mem.value.(pidAcked := false)))
  }

  lemma {:induction false} NoteClear(v: View, j: JobId, spawned: Option<int>)
    requires Clear(v) && v.down != []
    ensures Clear(ViewNote(v, j, spawned))
  {
    assert v.down[0].NoteAck?;
  }

  lemma {:induction false} NoteHeld(v: View, m: MbdJob, j: JobId, spawned: Option<int>)
    requires HeldHere(v, m, j) && v.down != []
    ensures HeldHere(ViewNote(v, j, spawned), m, j)
  {
    var w := ViewNote(v, j, spawned);
    var job := v.mem.value;
    assert HeldNote(v.down[0], true, job, m.forked);
    assert forall i :: 0 <= i < |w.down| ==> w.down[i] == v.down[i + 1];
    assert w.mem.Some? && (job.pidAcked ==> w.mem.value.pidAcked);
    assert FinishSent(w) ==> FinishSent(v);
  }

  lemma {:induction false} NoteActive(v: View, m: MbdJob, j: JobId, spawned: Option<int>)
    requires Active(v, m, j) && v.down != []
    requires spawned.Some? ==> spawned.value > 0
    requires v.waiting.None?
    ensures Active(ViewNote(v, j, spawned), m, j)
  {
    var w := ViewNote(v, j, spawned);
    if HeldHere(v, m, j) {
      NoteHeld(v, m, j, spawned);
    } else if OnItsWay(v, m) {
      if |v.down| > 1 {
        assert v.down[..|v.down| - 1][0].NoteAck?;
        assert w.down[..|w.down| - 1] == v.down[..|v.down| - 1][1..];
        assert OnItsWay(w, m);
      } else if spawned.Some? {
        assert HeldHere(w, m, j);
      } else if v.joined {
        assert Answered(w, m, j);
      } else {
        assert Lost(w, m);
      }
    } else if Asked(v, m) {
      if v.joined { assert Answered(w, m, j); } else { assert Lost(w, m); }
    } else {
      assert v.down[0].NoteAck?;
      assert Answered(v, m, j) ==> Answered(w, m, j);
      assert Lost(v, m) ==> Lost(w, m);
    }
  }

  lemma {:induction false} NoteEnded(v: View, n: HostId, j: JobId, rec: Option<MbdJob>, spawned: Option<int>)
    requires EndedAt(v, n, j, rec) && v.down != []
    ensures EndedAt(ViewNote(v, j, spawned), n, j, rec)
    ensures ViewNote(v, j, spawned).mem.Some? ==> v.mem.Some?
  {
    var w := ViewNote(v, j, spawned);
    assert EndedNote(v.down[0], true, v.mem);
    assert forall i :: 0 <= i < |w.down| ==> w.down[i] == v.down[i + 1];
    assert FinishSent(w) ==> FinishSent(v);
    assert Ended(w, j);
  }

  lemma {:induction false} SendReplyHeld(v: View, m: MbdJob, j: JobId)
    requires HeldHere(v, m, j)
    ensures HeldHere(ViewSbdSend(v, [ReplyOk(j, v.mem.value.pid, v.mem.value.epoch)]), m, j)
  {
    var w := ViewSbdSend(v, [ReplyOk(j, v.mem.value.pid, v.mem.value.epoch)]);
    assert NoFinish(v.up) && v.joined ==> NoFinish(w.up);
    assert FinishSent(w) ==> FinishSent(v);
  }

  lemma {:induction false} SendFinishHeld(v: View, m: MbdJob, j: JobId)
    requires HeldHere(v, m, j) && v.mem.value.pidAcked && v.mem.value.exitValid
    ensures HeldHere(ViewSbdSend(v, [Finish(j, v.mem.value.epoch)]), m, j)
  {
  }

  lemma {:induction false} SendFinishEnded(v: View, n: HostId, j: JobId, rec: Option<MbdJob>)
    requires EndedAt(v, n, j, rec) && v.mem.Some? && v.mem.value.exitValid
    ensures EndedAt(ViewSbdSend(v, [Finish(j, v.mem.value.epoch)]), n, j, rec)
  {
    assert Ended(ViewSbdSend(v, [Finish(j, v.mem.value.epoch)]), j);
  }
}
