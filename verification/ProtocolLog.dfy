/**
 Dispatches in mbd's durable log: each is settled exactly once before the job
 is dispatched again or retired, a finish is logged only after the fork of the
 same dispatch, and no job is ever forked twice.
 */
module ProtocolLog {
  import opened Protocol
  import opened ProtocolView
  import opened ProtocolMbd
  import opened ProtocolSafety

  function Starts(log: seq<LogEvent>, j: JobId, e: nat): nat {
    if log == [] then 0
    else Starts(log[..|log| - 1], j, e) + if log[|log| - 1] == LogStart(j, e) then 1 else 0
  }

  /** How often dispatch e of job j was settled, by whatever of the three ways. */
  function Settles(log: seq<LogEvent>, j: JobId, e: nat): nat {
    if log == [] then 0
    else Settles(log[..|log| - 1], j, e)
         + var x := log[|log| - 1]; if x.LogSettle? && x.job == j && x.epoch == e then 1 else 0
  }

  /** How often job j was forked, in any dispatch. */
  function Forks(log: seq<LogEvent>, j: JobId): nat {
    if log == [] then 0
    else Forks(log[..|log| - 1], j) + var x := log[|log| - 1]; if x.LogFork? && x.job == j then 1 else 0
  }

  predicate ForkedBefore(log: seq<LogEvent>, i: nat, j: JobId, e: nat)
    requires i <= |log|
  {
    exists k :: 0 <= k < i && log[k].LogFork? && log[k].job == j && log[k].epoch == e
  }

  /** Finish settles only forked dispatches, reject and missing only others. */
  ghost predicate SettlesFit(log: seq<LogEvent>) {
    forall i :: 0 <= i < |log| && log[i].LogSettle? ==>
      (log[i].how == ByFinish <==> ForkedBefore(log, i, log[i].job, log[i].epoch))
  }

  ghost predicate JobLog(s: State, j: JobId) {
    if j in s.jobs then
      var m := s.jobs[j];
      && (m.phase == Running ==> m.epoch > 0)
      && (forall e: nat :: Starts(s.log, j, e) == if 0 < e <= m.epoch then 1 else 0)
      && (forall e: nat :: Settles(s.log, j, e)
                        == if 0 < e < m.epoch || (0 < e == m.epoch && m.phase != Running) then 1 else 0)
      && Forks(s.log, j) == (if m.forked then 1 else 0)
      && (m.forked ==> LogFork(j, m.epoch, m.pid) in s.log)
      && (forall k :: 0 <= k < |s.log| && s.log[k].LogFork? && s.log[k].job == j ==> m.forked && s.log[k].epoch == m.epoch)
    else if j <= s.lastId then
      Forks(s.log, j) <= 1 && forall e: nat :: Settles(s.log, j, e) == Starts(s.log, j, e) <= 1
    else
      && Forks(s.log, j) == 0
      && (forall e: nat :: Settles(s.log, j, e) == Starts(s.log, j, e) == 0)
      && (forall k :: 0 <= k < |s.log| && s.log[k].LogFork? ==> s.log[k].job != j)
  }

  ghost predicate LogInv(s: State) {
    SettlesFit(s.log) && forall j: JobId :: JobLog(s, j)
  }

  lemma {:induction false} Appended(log: seq<LogEvent>, x: LogEvent)
    ensures forall j, e: nat :: Starts(log + [x], j, e) == Starts(log, j, e) + if x == LogStart(j, e) then 1 else 0
    ensures forall j, e: nat :: Settles(log + [x], j, e)
              == Settles(log, j, e) + if x.LogSettle? && x.job == j && x.epoch == e then 1 else 0
    ensures forall j :: Forks(log + [x], j) == Forks(log, j) + if x.LogFork? && x.job == j then 1 else 0
  {
    assert (log + [x])[..|log + [x]| - 1] == log;
  }

  lemma {:induction false} FitAppended(log: seq<LogEvent>, x: LogEvent)
    requires SettlesFit(log)
    requires x.LogSettle? ==> (x.how == ByFinish <==> ForkedBefore(log, |log|, x.job, x.epoch))
    ensures SettlesFit(log + [x])
  {
    var l := log + [x];
    forall i | 0 <= i < |l| && l[i].LogSettle?
      ensures l[i].how == ByFinish <==> ForkedBefore(l, i, l[i].job, l[i].epoch)
    {
      assert forall k :: 0 <= k < i ==> l[k] == log[k];
      assert ForkedBefore(l, i, l[i].job, l[i].epoch) <==> ForkedBefore(log, i, l[i].job, l[i].epoch);
    }
  }

  /** A step either leaves log and records of j alone, or logs one event. */
  lemma {:induction false} LogFrame(s: State, t: State, j: JobId)
    requires JobLog(s, j) && t.log == s.log && SameRecord(s, t, j) && t.lastId == s.lastId
    ensures JobLog(t, j)
  {
  }

  lemma {:induction false} OtherJobLog(s: State, t: State, x: LogEvent, j: JobId)
    requires JobLog(s, j) && t.log == s.log + [x] && x.job != j && SameRecord(s, t, j) && t.lastId == s.lastId
    ensures JobLog(t, j)
  {
    Appended(s.log, x);
  }

  lemma {:induction false} StartLogged(s: State, t: State, j: JobId)
    requires JobLog(s, j) && j in s.jobs && s.jobs[j].phase == Pending && !s.jobs[j].forked
    requires t.log == s.log + [LogStart(j, s.jobs[j].epoch + 1)]
    requires j in t.jobs && t.jobs[j].phase == Running && t.jobs[j].epoch == s.jobs[j].epoch + 1 && !t.jobs[j].forked
    ensures JobLog(t, j)
  {
    Appended(s.log, LogStart(j, s.jobs[j].epoch + 1));
  }

  lemma {:induction false} ForkLogged(s: State, t: State, j: JobId, pid: int)
    requires JobLog(s, j) && j in s.jobs && s.jobs[j].phase == Running && !s.jobs[j].forked
    requires t.log == s.log + [LogFork(j, s.jobs[j].epoch, pid)]
    requires j in t.jobs && t.jobs[j] == s.jobs[j].(forked := true, pid := pid)
    ensures JobLog(t, j)
  {
    Appended(s.log, LogFork(j, s.jobs[j].epoch, pid));
    assert t.log[|s.log|] == LogFork(j, s.jobs[j].epoch, pid);
  }

  lemma {:induction false} SettleLogged(s: State, t: State, j: JobId, how: How)
    requires JobLog(s, j) && j in s.jobs && s.jobs[j].phase == Running
    requires t.log == s.log + [LogSettle(j, s.jobs[j].epoch, how)]
    requires j in t.jobs && t.jobs[j].phase != Running && t.jobs[j].epoch == s.jobs[j].epoch
    requires t.jobs[j].forked == s.jobs[j].forked && (s.jobs[j].forked ==> t.jobs[j].pid == s.jobs[j].pid)
    ensures JobLog(t, j)
  {
    Appended(s.log, LogSettle(j, s.jobs[j].epoch, how));
  }

  lemma {:induction false} ForkedIffLogged(s: State, j: JobId)
    requires JobLog(s, j) && j in s.jobs
    ensures s.jobs[j].forked <==> ForkedBefore(s.log, |s.log|, j, s.jobs[j].epoch)
  {
    if s.jobs[j].forked {
      var k :| 0 <= k < |s.log| && s.log[k] == LogFork(j, s.jobs[j].epoch, s.jobs[j].pid);
    }
  }

  /** What reading a message logs, from the role its subject has. */
  lemma {:induction false} ReceiveLogs(s: State, n: HostId)
    requires Inv(s) && Enabled(s, MbdReceive(n))
    ensures var u := s.hosts[n].up[0];
            var j := u.job;
            var t := Next(s, MbdReceive(n));
            || (t.log == s.log && SameRecord(s, t, j))
            || (j in s.jobs && j in t.jobs && s.jobs[j].phase == Running
                && (|| (&& u.ReplyOk? && !s.jobs[j].forked
                        && t.log == s.log + [LogFork(j, s.jobs[j].epoch, u.pid)]
                        && t.jobs[j] == s.jobs[j].(forked := true, pid := u.pid))
                    || (&& t.jobs[j].phase != Running && t.jobs[j].epoch == s.jobs[j].epoch
                        && t.jobs[j].forked == s.jobs[j].forked
                        && (s.jobs[j].forked ==> t.jobs[j].pid == s.jobs[j].pid)
                        && exists how :: t.log == s.log + [LogSettle(j, s.jobs[j].epoch, how)]
                                         && (how == ByFinish <==> s.jobs[j].forked))))
  {
    var j := s.hosts[n].up[0].job;
    assert JobInv(s, j);
    ReceiveSubject(s, n);
    ReceiveShape(s, n);
  }

  lemma {:induction false} ForkKeepsLog(s: State, t: State, k: JobId, pid: int)
    requires LogInv(s) && k in s.jobs && s.jobs[k].phase == Running && !s.jobs[k].forked && t.lastId == s.lastId
    requires t.log == s.log + [LogFork(k, s.jobs[k].epoch, pid)]
    requires k in t.jobs && t.jobs[k] == s.jobs[k].(forked := true, pid := pid)
    requires forall j :: j != k ==> SameRecord(s, t, j)
    ensures LogInv(t)
  {
    var x := LogFork(k, s.jobs[k].epoch, pid);
    hide JobLog, SettlesFit;
    forall j: JobId ensures JobLog(t, j) {
      assert JobLog(s, j);
      if j == k { ForkLogged(s, t, k, pid); } else { OtherJobLog(s, t, x, j); }
    }
    FitAppended(s.log, x);
  }

  lemma {:induction false} SettleKeepsLog(s: State, t: State, k: JobId, how: How)
    requires LogInv(s) && k in s.jobs && s.jobs[k].phase == Running && t.lastId == s.lastId
    requires t.log == s.log + [LogSettle(k, s.jobs[k].epoch, how)] && (how == ByFinish <==> s.jobs[k].forked)
    requires k in t.jobs && t.jobs[k].phase != Running && t.jobs[k].epoch == s.jobs[k].epoch
    requires t.jobs[k].forked == s.jobs[k].forked && (s.jobs[k].forked ==> t.jobs[k].pid == s.jobs[k].pid)
    requires forall j :: j != k ==> SameRecord(s, t, j)
    ensures LogInv(t)
  {
    var x := LogSettle(k, s.jobs[k].epoch, how);
    assert JobLog(s, k);
    ForkedIffLogged(s, k);
    hide JobLog, SettlesFit;
    forall j: JobId ensures JobLog(t, j) {
      assert JobLog(s, j);
      if j == k { SettleLogged(s, t, k, how); } else { OtherJobLog(s, t, x, j); }
    }
    FitAppended(s.log, x);
  }

  lemma {:induction false} ReceiveKeepsLog(s: State, n: HostId)
    requires Inv(s) && LogInv(s) && Enabled(s, MbdReceive(n))
    ensures LogInv(Next(s, MbdReceive(n)))
  {
    var u := s.hosts[n].up[0];
    var k := u.job;
    var t := Next(s, MbdReceive(n));
    ReceiveLogs(s, n);
    ReceiveKeeps(s, n);
    ReceiveShape(s, n);
    hide Inv, Next, JobLog, Enabled;
    if t.log == s.log && SameRecord(s, t, k) {
      forall j: JobId ensures JobLog(t, j) {
        assert JobLog(s, j);
        LogFrame(s, t, j);
      }
    } else if u.ReplyOk? && t.log == s.log + [LogFork(k, s.jobs[k].epoch, u.pid)] {
      ForkKeepsLog(s, t, k, u.pid);
    } else {
      var how :| t.log == s.log + [LogSettle(k, s.jobs[k].epoch, how)] && (how == ByFinish <==> s.jobs[k].forked);
      SettleKeepsLog(s, t, k, how);
    }
  }

  lemma {:induction false} StepKeepsLog(s: State, step: Step)
    requires Inv(s) && LogInv(s) && Enabled(s, step)
    ensures LogInv(Next(s, step))
  {
    var t := Next(s, step);
    if step.MbdReceive? {
      ReceiveKeepsLog(s, step.n);
    } else if step.Dispatch? {
      assert JobInv(s, step.j);
      var x := LogStart(step.j, t.jobs[step.j].epoch);
      forall j: JobId ensures JobLog(t, j) {
        assert JobLog(s, j);
        if j == step.j { StartLogged(s, t, j); } else { OtherJobLog(s, t, x, j); }
      }
      FitAppended(s.log, x);
    } else {
      forall j: JobId ensures JobLog(t, j) {
        assert JobLog(s, j);
        if step.Submit? || step.Purge? {
          assert TablesOk(s);
        } else if SameRecord(s, t, j) {
          LogFrame(s, t, j);
        }
      }
    }
  }

  lemma {:induction false} RunLogInv(tr: seq<State>, steps: seq<Step>, i: nat)
    requires IsRun(tr, steps) && i < |tr|
    ensures LogInv(tr[i])
  {
    if i == 0 {
    } else {
      RunLogInv(tr, steps, i - 1);
      RunInv(tr, steps, i - 1);
      StepKeepsLog(tr[i - 1], steps[i - 1]);
    }
  }

  /** However often replies and finishes are resent, every dispatch is settled
      at most once, and exactly once unless it is the job's running one. */
  lemma {:induction false} SettledOnce(tr: seq<State>, steps: seq<Step>, i: nat, j: JobId, e: nat)
    requires IsRun(tr, steps) && i < |tr|
    ensures Settles(tr[i].log, j, e) <= Starts(tr[i].log, j, e) <= 1
    ensures Settles(tr[i].log, j, e) < Starts(tr[i].log, j, e)
            <==> j in tr[i].jobs && tr[i].jobs[j].phase == Running && e == tr[i].jobs[j].epoch
  {
    RunLogInv(tr, steps, i);
    assert JobLog(tr[i], j);
  }

  /** A finish is accepted only after the fork of the same dispatch was
      logged; a rejected or missing dispatch never had one; and no job is
      forked twice over its whole life. */
  lemma {:induction false} FinishAfterFork(tr: seq<State>, steps: seq<Step>, i: nat, k: nat)
    requires IsRun(tr, steps) && i < |tr| && k < |tr[i].log| && tr[i].log[k].LogSettle?
    ensures tr[i].log[k].how == ByFinish <==> ForkedBefore(tr[i].log, k, tr[i].log[k].job, tr[i].log[k].epoch)
    ensures Forks(tr[i].log, tr[i].log[k].job) <= 1
  {
    RunLogInv(tr, steps, i);
    assert JobLog(tr[i], tr[i].log[k].job);
  }
}
