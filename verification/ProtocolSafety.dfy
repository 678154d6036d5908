/**
 What holds in every state of every run of the mbd/sbd protocol, however many
 connections and daemons die on the way.
 */
module ProtocolSafety {
  import opened Protocol
  import opened ProtocolView
  import opened ProtocolLocal
  import opened ProtocolSteps
  import opened ProtocolMbd

  lemma {:induction false} InitInv(s: State)
    requires Init(s)
    ensures Inv(s)
  {
    forall j: JobId
      ensures JobInv(s, j)
    {
      assert RoleOf(s, j).Over? ==> j == 0;
      forall n | n in s.hosts
        ensures Clear(ViewOf(s.hosts[n], j))
      {
      }
    }
  }

  lemma {:induction false} StepKeepsInv(s: State, step: Step)
    requires Inv(s) && Enabled(s, step)
    ensures Inv(Next(s, step))
  {
    if HostOnly(step) {
      HostOnlyKeeps(s, step);
    } else {
      match step {
        case MbdRestart(kept) => MbdRestartKeeps(s, kept);
        case MbdAccept(n) => AcceptKeeps(s, n);
        case Dispatch(j, n) => DispatchKeeps(s, j, n);
        case MbdReceive(n) => ReceiveKeeps(s, n);
        case Submit(_, _) => RequestKeeps(s, step);
        case Hold(_) => RequestKeeps(s, step);
        case Resume(_) => RequestKeeps(s, step);
        case KillPending(_) => RequestKeeps(s, step);
        case Purge(_) => RequestKeeps(s, step);
      }
    }
  }

  lemma {:induction false} RunInv(tr: seq<State>, steps: seq<Step>, i: nat)
    requires IsRun(tr, steps) && i < |tr|
    ensures Inv(tr[i])
  {
    if i == 0 {
      InitInv(tr[0]);
    } else {
      RunInv(tr, steps, i - 1);
      StepKeepsInv(tr[i - 1], steps[i - 1]);
    }
  }

  // -------------------------------------------------------------------
  // One holder
  // -------------------------------------------------------------------

  /** At most one sbd holds a job, in memory or in a state file it would
      reload, and a job mbd has not finished is held, if at all, by the host
      mbd has on its run list for it, and from the current dispatch. */
  lemma {:induction false} AtMostOneHolder(tr: seq<State>, steps: seq<Step>, i: nat, j: JobId, n: HostId, k: HostId)
    requires IsRun(tr, steps) && i < |tr|
    requires HoldsAt(tr[i], n, j)
    ensures HoldsAt(tr[i], k, j) ==> n == k
    ensures j in tr[i].hosts[n].disk && !tr[i].hosts[n].disk[j].finishAcked
    ensures k in tr[i].hosts && j in LoadAll(tr[i].hosts[k].disk) ==> n == k
    ensures j in tr[i].jobs && tr[i].jobs[j].phase != Finished ==>
              && tr[i].jobs[j].phase == Running && j in tr[i].run
              && tr[i].jobs[j].host == Some(n)
              && tr[i].jobs[j].epoch == tr[i].hosts[n].mem[j].epoch
    ensures j !in tr[i].jobs ==> j <= tr[i].lastId
  {
    var s := tr[i];
    RunInv(tr, steps, i);
    assert JobInv(s, j);
    assert ViewOf(s.hosts[n], j).mem.Some?;
    SavedNow(s, n, j);
    if k in s.hosts && j in LoadAll(s.hosts[k].disk) {
      SavedNow(s, k, j);
      assert HoldsAt(s, k, j);
      assert ViewOf(s.hosts[k], j).mem.Some?;
    }
  }

  /** A job is spawned only where nobody holds it, by its current dispatch. */
  lemma {:induction false} SpawnIsFirst(tr: seq<State>, steps: seq<Step>, i: nat, n: HostId, k: HostId)
    requires IsRun(tr, steps) && i < |tr| && n in tr[i].hosts
    requires tr[i].hosts[n].down != [] && tr[i].hosts[n].down[0].NewJob?
    ensures var d := tr[i].hosts[n].down[0];
            && !HoldsAt(tr[i], k, d.job)
            && d.job in tr[i].jobs && tr[i].jobs[d.job].phase == Running
            && tr[i].jobs[d.job].host == Some(n) && tr[i].jobs[d.job].epoch == d.epoch
  {
    var s := tr[i];
    var d := s.hosts[n].down[0];
    RunInv(tr, steps, i);
    assert JobInv(s, d.job);
    var v := ViewOf(s.hosts[n], d.job);
    assert v.down == [NoteNew(d.epoch)] + DownOf(s.hosts[n].down[1..], d.job);
    assert v.down[0] == NoteNew(d.epoch);
    SpawnRole(s, n, d.job, d.epoch);
    assert k in s.hosts && k != n ==> Clear(ViewOf(s.hosts[k], d.job));
  }

  lemma {:induction false} EndedHead(v: View, j: JobId, k: nat)
    requires Ended(v, j) && k < |v.down|
    ensures EndedNote(v.down[k], k == 0, v.mem)
  {
  }

  lemma {:induction false} HeldHead(v: View, m: MbdJob, j: JobId, k: nat)
    requires HeldHere(v, m, j) && k < |v.down|
    ensures HeldNote(v.down[k], k == 0, v.mem.value, m.forked)
  {
  }

  lemma {:induction false} SpawnRole(s: State, n: HostId, j: JobId, e: nat)
    requires JobInv(s, j) && n in s.hosts
    requires ViewOf(s.hosts[n], j).down != [] && ViewOf(s.hosts[n], j).down[0] == NoteNew(e)
    ensures RoleOf(s, j).Live? && RoleOf(s, j).m.host == Some(n)
    ensures OnItsWay(ViewOf(s.hosts[n], j), RoleOf(s, j).m) && RoleOf(s, j).m.epoch == e
  {
  }

  // -------------------------------------------------------------------
  // No unexpected branch
  // -------------------------------------------------------------------

  /** The asserts and the mismatch branches of mbd's handlers are never
      reached: every report is about the current dispatch of the sender's own
      job, and a job whose pid is recorded is never rejected or missing. */
  lemma {:induction false} MbdNeverFaults(tr: seq<State>, steps: seq<Step>, i: nat, n: HostId)
    requires IsRun(tr, steps) && i < |tr| && Enabled(tr[i], MbdReceive(n))
    ensures !MbdFault(tr[i], n, tr[i].hosts[n].up[0])
  {
    RunInv(tr, steps, i);
    ReceiveKeeps(tr[i], n);
  }

  lemma {:induction false} ListedMember(ws: seq<WireJob>, i: nat)
    requires i < |ws|
    ensures exists k :: 0 <= k < |ListedOf(ws, ws[i].job)| && ListedOf(ws, ws[i].job)[k] == NoteListed(ws[i].pid)
  {
    var j := ws[i].job;
    var rest := ListedOf(ws[1..], j);
    if i == 0 {
      assert ListedOf(ws, j)[0] == NoteListed(ws[0].pid);
    } else {
      ListedMember(ws[1..], i - 1);
      assert ws[1..][i - 1] == ws[i];
      var k :| 0 <= k < |rest| && rest[k] == NoteListed(ws[i].pid);
      var off := if ws[0].job == j then 1 else 0;
      assert ListedOf(ws, j)[k + off] == rest[k];
    }
  }

  lemma {:induction false} ListedPid(s: State, n: HostId, j: JobId, k: nat)
    requires JobInv(s, j) && n in s.hosts && j in s.hosts[n].mem
    requires k < |ViewOf(s.hosts[n], j).down| && ViewOf(s.hosts[n], j).down[k].NoteListed?
    ensures s.hosts[n].mem[j].pid > 0
    ensures ViewOf(s.hosts[n], j).down[k].pid in {0, s.hosts[n].mem[j].pid}
    ensures ViewOf(s.hosts[n], j).down[k].pid == 0 ==> !s.hosts[n].mem[j].pidAcked
  {
    var v := ViewOf(s.hosts[n], j);
    if RoleOf(s, j).Over? { EndedHead(v, j, k); }
    if RoleOf(s, j).Live? { HeldHead(v, RoleOf(s, j).m, j, k); }
  }

  /** sbd never dies on an invariant: no pid mismatch on registration, no
      finish ack without an exit status. */
  lemma {:induction false} SbdNeverFatal(tr: seq<State>, steps: seq<Step>, i: nat, n: HostId)
    requires IsRun(tr, steps) && i < |tr| && n in tr[i].hosts && tr[i].hosts[n].down != []
    ensures !SbdFatal(tr[i].hosts[n], tr[i].hosts[n].down[0])
  {
    RunInv(tr, steps, i);
    NotFatal(tr[i], n);
  }

  lemma {:induction false} NotFatal(s: State, n: HostId)
    requires Inv(s) && n in s.hosts && s.hosts[n].down != []
    ensures !SbdFatal(s.hosts[n], s.hosts[n].down[0])
  {
    var h := s.hosts[n];
    match h.down[0] {
      case FinishAck(j) =>
        assert JobInv(s, j);
        FinishAckHasStatus(s, n, j);
      case RegisterAck(ws) =>
        forall x | 0 <= x < |ws|
          ensures !EntryFatal(h, ws[x])
        {
          var j := ws[x].job;
          if j in h.mem {
            ListedMember(ws, x);
            var k :| 0 <= k < |ListedOf(ws, j)| && ListedOf(ws, j)[k] == NoteListed(ws[x].pid);
            assert DownOf(h.down, j) == ListedOf(ws, j) + DownOf(h.down[1..], j);
            assert JobInv(s, j);
            ListedPid(s, n, j, k);
          }
        }
      case NewJob(_, _) =>
      case ReplyAck(_, _) =>
    }
  }

  lemma {:induction false} FinishAckHasStatus(s: State, n: HostId, j: JobId)
    requires JobInv(s, j) && n in s.hosts && s.hosts[n].down != [] && s.hosts[n].down[0] == FinishAck(j)
    ensures j in s.hosts[n].mem ==> s.hosts[n].mem[j].exitValid
  {
    var v := ViewOf(s.hosts[n], j);
    assert v.down == [NoteFin] + DownOf(s.hosts[n].down[1..], j);
    assert v.down[0] == NoteFin;
    if j in s.hosts[n].mem {
      if RoleOf(s, j).Over? { EndedHead(v, j, 0); }
      if RoleOf(s, j).Live? { HeldHead(v, RoleOf(s, j).m, j, 0); }
    }
  }

  /** An ack an sbd acts on belongs to the dispatch it runs, and mbd has logged
      that dispatch's pid; the ack of a rejected dispatch finds nobody. */
  lemma {:induction false} AcksAreCurrent(tr: seq<State>, steps: seq<Step>, i: nat, n: HostId)
    requires IsRun(tr, steps) && i < |tr| && n in tr[i].hosts
    requires tr[i].hosts[n].down != [] && tr[i].hosts[n].down[0].ReplyAck?
    requires tr[i].hosts[n].down[0].job in tr[i].hosts[n].mem
    requires !tr[i].hosts[n].mem[tr[i].hosts[n].down[0].job].pidAcked
    ensures var j := tr[i].hosts[n].down[0].job;
            && tr[i].hosts[n].down[0].epoch == tr[i].hosts[n].mem[j].epoch
            && j in tr[i].jobs && tr[i].jobs[j].phase == Running
            && tr[i].jobs[j].forked && tr[i].jobs[j].pid == tr[i].hosts[n].mem[j].pid
  {
    var s := tr[i];
    var j := s.hosts[n].down[0].job;
    RunInv(tr, steps, i);
    assert JobInv(s, j);
    var v := ViewOf(s.hosts[n], j);
    assert v.down == [NoteAck(s.hosts[n].down[0].epoch)] + DownOf(s.hosts[n].down[1..], j);
    assert v.down[0] == NoteAck(s.hosts[n].down[0].epoch);
    if RoleOf(s, j).Live? { HeldHead(v, RoleOf(s, j).m, j, 0); }
  }

  /** While the host's connection is intact a dispatch is never lost: it is on
      its way, running, or about to be answered. */
  lemma {:induction false} JoinedNeverLoses(tr: seq<State>, steps: seq<Step>, i: nat, j: JobId)
    requires IsRun(tr, steps) && i < |tr|
    requires j in tr[i].jobs && tr[i].jobs[j].phase == Running
    ensures tr[i].jobs[j].host.Some? && tr[i].jobs[j].host.value in tr[i].hosts
    ensures var h := tr[i].hosts[tr[i].jobs[j].host.value];
            h.joined ==> j in h.mem
                         || NewJob(j, tr[i].jobs[j].epoch) in h.down
                         || ReplyErr(j, tr[i].jobs[j].epoch) in h.up
                         || Missing(j) in h.up
                         || (exists k :: 0 <= k < |h.down| && h.down[k].RegisterAck?
                                         && WireJob(j, 0) in h.down[k].jobs)
  {
    RunInv(tr, steps, i);
    Somewhere(tr[i], j);
  }

  lemma {:induction false} Somewhere(s: State, j: JobId)
    requires Inv(s) && j in s.jobs && s.jobs[j].phase == Running
    ensures s.jobs[j].host.Some? && s.jobs[j].host.value in s.hosts
    ensures var h := s.hosts[s.jobs[j].host.value];
            h.joined ==> j in h.mem
                         || NewJob(j, s.jobs[j].epoch) in h.down
                         || ReplyErr(j, s.jobs[j].epoch) in h.up
                         || Missing(j) in h.up
                         || (exists k :: 0 <= k < |h.down| && h.down[k].RegisterAck?
                                         && WireJob(j, 0) in h.down[k].jobs)
  {
    assert JobInv(s, j);
    var h := s.hosts[s.jobs[j].host.value];
    var v := ViewOf(h, j);
    var m := s.jobs[j];
    if OnItsWay(v, m) {
      NewJobThere(h.down, j, m.epoch, |v.down| - 1);
    } else if Answered(v, m, j) {
      UpThere(h.up, j, 0);
    } else if Asked(v, m) {
      ListedThere(h.down, j, 0, 0);
    }
  }

  lemma {:induction false} UpThere(q: seq<Up>, j: JobId, i: nat)
    requires i < |UpOf(q, j)|
    ensures UpOf(q, j)[i] in q
  {
    var off := if q[0].job == j then 1 else 0;
    if i >= off {
      UpThere(q[1..], j, i - off);
      assert UpOf(q, j)[i] == UpOf(q[1..], j)[i - off];
    }
  }

  lemma {:induction false} NewJobThere(q: seq<Down>, j: JobId, e: nat, i: nat)
    requires i < |DownOf(q, j)| && DownOf(q, j)[i] == NoteNew(e)
    ensures NewJob(j, e) in q
  {
    var here := NotesOf(q[0], j);
    if i >= |here| {
      assert DownOf(q, j)[i] == DownOf(q[1..], j)[i - |here|];
      NewJobThere(q[1..], j, e, i - |here|);
    } else {
      assert here[i] == NoteNew(e);
      if q[0].RegisterAck? { ListedKind(q[0].jobs, j, i); }
    }
  }

  lemma {:induction false} ListedKind(ws: seq<WireJob>, j: JobId, i: nat)
    requires i < |ListedOf(ws, j)|
    ensures ListedOf(ws, j)[i].NoteListed? && WireJob(j, ListedOf(ws, j)[i].pid) in ws
  {
    var off := if ws[0].job == j then 1 else 0;
    if i >= off {
      assert ListedOf(ws, j)[i] == ListedOf(ws[1..], j)[i - off];
      ListedKind(ws[1..], j, i - off);
    }
  }

  lemma {:induction false} ListedThere(q: seq<Down>, j: JobId, pid: int, i: nat)
    requires i < |DownOf(q, j)| && DownOf(q, j)[i] == NoteListed(pid)
    ensures exists k :: 0 <= k < |q| && q[k].RegisterAck? && WireJob(j, pid) in q[k].jobs
  {
    var here := NotesOf(q[0], j);
    if i >= |here| {
      assert DownOf(q, j)[i] == DownOf(q[1..], j)[i - |here|];
      ListedThere(q[1..], j, pid, i - |here|);
      var k :| 0 <= k < |q[1..]| && q[1..][k].RegisterAck? && WireJob(j, pid) in q[1..][k].jobs;
      assert q[k + 1] == q[1..][k];
    } else {
      assert here[i] == NoteListed(pid);
      assert q[0].RegisterAck?;
      ListedKind(q[0].jobs, j, i);
    }
  }
}
