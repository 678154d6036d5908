/**
 The execution daemon's handlers as they change its job list, its state files
 and what it has to send, each against the step it takes in the protocol.
 */
module SbdDaemon {
  import opened Protocol
  import opened ProtocolSafety

  /** What a handler sent, put on the link. */
  function SendAll(h: Host, us: seq<Up>): Host
    decreases |us|
  {
    if us == [] then h else SendAll(SbdSend(h, us[0]), us[1..])
  }

  lemma {:induction false} SendMore(h: Host, us: seq<Up>, u: Up)
    ensures SendAll(h, us + [u]) == SbdSend(SendAll(h, us), u)
    decreases |us|
  {
    if us == [] {
      assert us + [u] == [u] && [u][1..] == [];
    } else {
      assert (us + [u])[0] == us[0] && (us + [u])[1..] == us[1..] + [u];
      SendMore(SbdSend(h, us[0]), us[1..], u);
    }
  }

  lemma {:induction false} SendJustOne(h: Host, u: Up)
    ensures SendAll(h, [u]) == SbdSend(h, u)
  {
    assert [u][1..] == [];
  }

  /** mem and disk of a host, whatever its link. */
  predicate Has(h: Host, mem: map<JobId, SbdJob>, disk: map<JobId, SbdFile>) {
    h.mem == mem && h.disk == disk
  }

  /** The list holds each hashed job once. */
  ghost predicate Indexed(list: seq<JobId>, mem: map<JobId, SbdJob>) {
    (forall j :: j in list <==> j in mem) && forall i, k :: 0 <= i < k < |list| ==> list[i] != list[k]
  }

  lemma {:induction false} IndexedMore(list: seq<JobId>, mem: map<JobId, SbdJob>, j: JobId, job: SbdJob)
    requires Indexed(list, mem) && j !in mem
    ensures Indexed(list + [j], mem[j := job])
  {
  }

  /** The jobs of some state files. */
  function Loaded(files: seq<JobId>, disk: map<JobId, SbdFile>): map<JobId, SbdJob> {
    map j | j in disk && j in files && !disk[j].finishAcked :: disk[j].job
  }

  lemma {:induction false} LoadedMore(files: seq<JobId>, disk: map<JobId, SbdFile>, i: nat)
    requires i < |files| && files[i] in disk && files[i] !in files[..i]
    ensures var j := files[i];
            && j !in Loaded(files[..i], disk)
            && Loaded(files[..i + 1], disk)
               == if disk[j].finishAcked then Loaded(files[..i], disk) else Loaded(files[..i], disk)[j := disk[j].job]
  {
    assert files[..i + 1] == files[..i] + [files[i]];
  }

  lemma {:induction false} UnlistedAt(list: seq<JobId>, mem: map<JobId, SbdJob>, i: nat)
    requires Indexed(list, mem) && i < |list|
    ensures Indexed(list[..i] + list[i + 1..], mem - {list[i]})
  {
    var rest := list[..i] + list[i + 1..];
    assert list == list[..i] + [list[i]] + list[i + 1..];
    assert list[i] !in rest;
  }

  class Sbd {
    /** sbd_job_hash, and sbd_job_list with the order of the jobs. */
    var mem: map<JobId, SbdJob>
    var list: seq<JobId>
    var disk: map<JobId, SbdFile>
    var out: seq<Up>

    ghost predicate Valid()
      reads this
    {
      Indexed(list, mem)
    }

    constructor ()
      ensures Valid() && mem == map[] && disk == map[] && out == []
    {
      mem, list, disk, out := map[], [], map[], [];
    }

    /** sbd_job_new */
    method JobNew(j: JobId, e: nat, spawned: Option<int>)
      requires Valid()
      modifies this
      ensures Valid() && |out| == |old(out)| + 1 && out[..|old(out)|] == old(out)
      ensures forall h :: Has(h, old(mem), old(disk)) ==>
                SbdJobNew(h, j, e, spawned) == SbdSend(h.(mem := mem, disk := disk), out[|old(out)|])
    {
      if j in mem {
        out := out + [ReplyOk(j, mem[j].pid, mem[j].epoch)];
        return;
      }
      if spawned.None? {
        out := out + [ReplyErr(j, e)];
        return;
      }
      var job := SbdJob(spawned.value, false, false, e);
      mem := mem[j := job];
      list := list + [j];
      disk := disk[j := SbdFile(job, false)];
      out := out + [ReplyOk(j, job.pid, e)];
    }

    /** sbd_job_new_reply_ack */
    method NewReplyAck(j: JobId)
      requires Valid()
      modifies this
      ensures Valid() && out == old(out)
      ensures forall h :: Has(h, old(mem), old(disk)) ==> SbdReplyAck(h, j) == h.(mem := mem, disk := disk)
    {
      if j !in mem || mem[j].pidAcked {
        return;
      }
      mem := mem[j := mem[j].(pidAcked := true)];
      disk := disk[j := SbdFile(mem[j], false)];
    }

    /** sbd_job_finish_ack; an ack for a job that has not exited is fatal */
    method FinishAck(j: JobId) returns (fatal: bool)
      requires Valid()
      modifies this
      ensures Valid() && out == old(out)
      ensures fatal <==> j in old(mem) && !old(mem)[j].exitValid
      ensures forall h :: Has(h, old(mem), old(disk)) ==>
                && (fatal <==> SbdFatal(h, Down.FinishAck(j)))
                && (!fatal ==> SbdFinishAck(h, j) == h.(mem := mem, disk := disk))
    {
      if j !in mem {
        return false;
      }
      if !mem[j].exitValid {
        return true;
      }
      disk := disk[j := SbdFile(mem[j], true)];
      ghost var before := mem;
      mem := mem - {j};
      Unlist(j, before);
      return false;
    }

    /** ll_list_remove of a job */
    method Unlist(j: JobId, ghost before: map<JobId, SbdJob>)
      requires Indexed(list, before)
      requires j in before && mem == before - {j}
      modifies this`list
      ensures Valid()
    {
      var i := 0;
      while list[i] != j
        invariant 0 <= i < |list| && j !in list[..i] && j in list[i..]
        decreases |list| - i
      {
        assert list[i..] == [list[i]] + list[i + 1..];
        i := i + 1;
      }
      UnlistedAt(list, before, i);
      list := list[..i] + list[i + 1..];
    }

    /** sbd_register_ack: mbd's list is walked once, jobs we lack are reported,
        jobs whose pid mbd lacks are announced again */
    method RegisterAck(ws: seq<WireJob>) returns (fatal: bool)
      requires Valid()
      modifies this
      ensures Valid() && disk == old(disk) && list == old(list) && |out| >= |old(out)| && out[..|old(out)|] == old(out)
      ensures forall h :: Has(h, old(mem), old(disk)) ==>
                && (fatal <==> SbdFatal(h, Down.RegisterAck(ws)))
                && (!fatal ==> SbdRegisterAck(h, ws) == SendAll(h.(mem := mem), out[|old(out)|..]))
    {
      var i := 0;
      ghost var n := |out|;
      fatal := false;
      while i < |ws|
        invariant 0 <= i <= |ws| && list == old(list) && disk == old(disk) && !fatal
        invariant mem.Keys == old(mem).Keys && n <= |out| && out[..n] == old(out)
        invariant forall j :: j in mem ==> mem[j].pid == old(mem)[j].pid
        invariant forall k :: 0 <= k < i ==> !EntryBad(old(mem), ws[k])
        invariant forall h :: Has(h, old(mem), old(disk)) ==>
                    SbdRegisterAck(h, ws[..i]) == SendAll(h.(mem := mem), out[n..])
      {
        var w := ws[i];
        if EntryBad(mem, w) {
          fatal := true;
          assert EntryBad(old(mem), ws[i]);
          return;
        }
        ghost var before, sent := mem, out[n..];
        if w.job !in mem {
          out := out + [Missing(w.job)];
          assert out[n..] == sent + [Missing(w.job)];
        } else if w.pid <= 0 {
          mem := mem[w.job := mem[w.job].(pidAcked := false)];
        }
        forall h | Has(h, old(mem), old(disk))
          ensures SbdRegisterAck(h, ws[..i + 1]) == SendAll(h.(mem := mem), out[n..])
        {
          RegisterMore(h, ws, i);
          EntryStep(h, before, sent, w);
        }
        i := i + 1;
      }
      assert ws[..|ws|] == ws;
    }

    /** sbd_mbd_route: the handler of a message from mbd */
    method Route(d: Down, spawned: Option<int>) returns (fatal: bool)
      requires Valid()
      modifies this
      ensures Valid() && |out| >= |old(out)| && out[..|old(out)|] == old(out)
      ensures forall h :: Has(h, old(mem), old(disk)) ==>
                && (fatal <==> SbdFatal(h, d))
                && (!fatal ==> SbdHandle(h, d, spawned) == SendAll(h.(mem := mem, disk := disk), out[|old(out)|..]))
    {
      fatal := false;
      ghost var before, disk0 := out, disk;
      match d {
        case NewJob(j, e) =>
          JobNew(j, e, spawned);
          assert out[|before|..] == [out[|before|]];
          forall h | Has(h, old(mem), old(disk))
            ensures SbdHandle(h, d, spawned) == SendAll(h.(mem := mem, disk := disk), out[|before|..])
          {
            SendJustOne(h.(mem := mem, disk := disk), out[|before|]);
          }
        case ReplyAck(j, _) =>
          NewReplyAck(j);
          assert out[|before|..] == [];
        case FinishAck(j) =>
          fatal := FinishAck(j);
          assert out[|before|..] == [];
        case RegisterAck(ws) =>
          fatal := RegisterAck(ws);
          assert forall h :: Has(h, old(mem), old(disk)) ==> h.(mem := mem, disk := disk) == h.(mem := mem);
      }
    }

    /** In any run of the protocol the daemon reads its next message without
        dying of it, and ends up as the run says. */
    method Serve(ghost tr: seq<State>, ghost steps: seq<Step>, ghost i: nat, ghost n: HostId, d: Down, spawned: Option<int>)
      returns (fatal: bool)
      requires Valid() && IsRun(tr, steps) && i < |tr| && n in tr[i].hosts && tr[i].hosts[n].down != []
      requires d == tr[i].hosts[n].down[0] && Has(tr[i].hosts[n], mem, disk)
      modifies this
      ensures Valid() && !fatal && |out| >= |old(out)|
      ensures HostNext(tr[i].hosts[n], SbdReceive(n, spawned))
              == SendAll(tr[i].hosts[n].(down := tr[i].hosts[n].down[1..], mem := mem, disk := disk), out[|old(out)|..])
    {
      SbdNeverFatal(tr, steps, i, n);
      ghost var h := tr[i].hosts[n];
      fatal := Route(d, spawned);
      assert Has(h, old(mem), old(disk)) && Has(h.(down := h.down[1..]), old(mem), old(disk));
    }

    /** sbd_mbd_link_down: every job's file is written */
    method LinkDown()
      requires Valid()
      modifies this
      ensures Valid() && mem == old(mem) && list == old(list) && out == old(out)
      ensures forall h :: Has(h, old(mem), old(disk)) ==> SaveAll(h) == disk
    {
      var i := 0;
      while i < |list|
        invariant 0 <= i <= |list| && mem == old(mem) && list == old(list) && out == old(out)
        invariant disk.Keys == old(disk).Keys + set k | 0 <= k < i :: list[k]
        invariant forall j :: j in disk ==>
                    disk[j] == if j in list[..i] then SbdFile(mem[j], false) else old(disk)[j]
      {
        var j := list[i];
        assert list[..i + 1] == list[..i] + [j];
        disk := disk[j := SbdFile(mem[j], false)];
        i := i + 1;
      }
      assert list[..|list|] == list;
      assert disk.Keys == old(disk).Keys + mem.Keys;
    }

    /** sbd_job_state_load_all after a restart: files in directory order */
    method LoadState(files: seq<JobId>)
      requires forall j :: j in files <==> j in disk
      requires forall i, k :: 0 <= i < k < |files| ==> files[i] != files[k]
      modifies this
      ensures Valid() && disk == old(disk) && out == [] && mem == LoadAll(disk)
    {
      mem, list, out := map[], [], [];
      assert Loaded(files[..0], disk) == map[];
      var i := 0;
      while i < |files|
        invariant 0 <= i <= |files| && Valid() && disk == old(disk) && out == [] && mem == Loaded(files[..i], disk)
      {
        hide Indexed, Loaded;
        var j := files[i];
        LoadedMore(files, disk, i);
        if !disk[j].finishAcked {
          IndexedMore(list, mem, j, disk[j].job);
          mem := mem[j := disk[j].job];
          list := list + [j];
        }
        i := i + 1;
      }
      assert files[..|files|] == files;
    }

    /** job_new_drive: NEW_JOB_REPLY again for every job not acked */
    method NewDrive()
      requires Valid()
      modifies this`out
      ensures out == old(out) + Replies(list, mem)
    {
      var i := 0;
      while i < |list|
        invariant 0 <= i <= |list| && out == old(out) + Replies(list[..i], mem)
      {
        var j := list[i];
        assert list[..i + 1][..i] == list[..i];
        if !mem[j].pidAcked {
          out := out + [ReplyOk(j, mem[j].pid, mem[j].epoch)];
        }
        i := i + 1;
      }
      assert list[..|list|] == list;
    }

    /** job_finish_drive: JOB_FINISH for every job that exited and whose pid
        mbd has acked */
    method FinishDrive()
      requires Valid()
      modifies this`out
      ensures out == old(out) + Finishes(list, mem)
    {
      var i := 0;
      while i < |list|
        invariant 0 <= i <= |list| && out == old(out) + Finishes(list[..i], mem)
      {
        var j := list[i];
        assert list[..i + 1][..i] == list[..i];
        if mem[j].pidAcked && mem[j].exitValid {
          out := out + [Finish(j, mem[j].epoch)];
        }
        i := i + 1;
      }
      assert list[..|list|] == list;
    }
  }

  predicate EntryBad(mem: map<JobId, SbdJob>, w: WireJob) {
    w.job in mem && (mem[w.job].pid <= 0 || (w.pid > 0 && w.pid != mem[w.job].pid))
  }

  lemma {:induction false} RegisterMore(h: Host, ws: seq<WireJob>, i: nat)
    requires i < |ws|
    ensures SbdRegisterAck(h, ws[..i + 1]) == SbdRegisterEntry(SbdRegisterAck(h, ws[..i]), ws[i])
  {
    assert ws[..i + 1] == ws[..i] + [ws[i]];
    RegisterSnoc(h, ws[..i], ws[i]);
  }

  lemma {:induction false} RegisterSnoc(h: Host, ws: seq<WireJob>, w: WireJob)
    ensures SbdRegisterAck(h, ws + [w]) == SbdRegisterEntry(SbdRegisterAck(h, ws), w)
    decreases |ws|
  {
    if ws == [] {
      assert ws + [w] == [w] && [w][1..] == [];
    } else {
      assert (ws + [w])[0] == ws[0] && (ws + [w])[1..] == ws[1..] + [w];
      RegisterSnoc(SbdRegisterEntry(h, ws[0]), ws[1..], w);
    }
  }

  /** Sending does not look at the jobs. */
  lemma {:induction false} SendAllMem(h: Host, us: seq<Up>, mem: map<JobId, SbdJob>)
    ensures SendAll(h, us).(mem := mem) == SendAll(h.(mem := mem), us)
    ensures SendAll(h, us).mem == h.mem
    decreases |us|
  {
    if us != [] { SendAllMem(SbdSend(h, us[0]), us[1..], mem); }
  }

  lemma {:induction false} EntryStep(h: Host, mem: map<JobId, SbdJob>, sent: seq<Up>, w: WireJob)
    ensures SbdRegisterEntry(SendAll(h.(mem := mem), sent), w)
            == if w.job !in mem then SendAll(h.(mem := mem), sent + [Missing(w.job)])
               else if w.pid > 0 then SendAll(h.(mem := mem), sent)
               else SendAll(h.(mem := mem[w.job := mem[w.job].(pidAcked := false)]), sent)
  {
    SendAllMem(h.(mem := mem), sent, mem);
    SendMore(h.(mem := mem), sent, Missing(w.job));
    if w.job in mem {
      SendAllMem(h.(mem := mem), sent, mem[w.job := mem[w.job].(pidAcked := false)]);
    }
  }

  function Replies(list: seq<JobId>, mem: map<JobId, SbdJob>): seq<Up> {
    if list == [] then []
    else
      var n := |list| - 1;
      Replies(list[..n], mem)
      + if list[n] in mem && !mem[list[n]].pidAcked then [ReplyOk(list[n], mem[list[n]].pid, mem[list[n]].epoch)] else []
  }

  function Finishes(list: seq<JobId>, mem: map<JobId, SbdJob>): seq<Up> {
    if list == [] then []
    else
      var n := |list| - 1;
      Finishes(list[..n], mem)
      + if list[n] in mem && mem[list[n]].pidAcked && mem[list[n]].exitValid then [Finish(list[n], mem[list[n]].epoch)] else []
  }

  /** Every message of a drive is one the protocol allows at that moment. */
  lemma {:induction false} DriveIsAllowed(list: seq<JobId>, mem: map<JobId, SbdJob>, u: Up)
    ensures u in Replies(list, mem) <==>
              u.ReplyOk? && u.job in list && u.job in mem && !mem[u.job].pidAcked
              && u == ReplyOk(u.job, mem[u.job].pid, mem[u.job].epoch)
    ensures u in Finishes(list, mem) <==>
              u.Finish? && u.job in list && u.job in mem && mem[u.job].pidAcked && mem[u.job].exitValid
              && u == Finish(u.job, mem[u.job].epoch)
  {
    if list != [] {
      var n := |list| - 1;
      assert list == list[..n] + [list[n]];
      DriveIsAllowed(list[..n], mem, u);
    }
  }
}
