/**
 Every dispatch is charged once, and what it took comes back exactly once: in
 every run of the protocol and the tables together, the steps that charge and
 release a job are its dispatches and their settlements, one for one.
 */
module Charges {
  import opened Mbd
  import opened MbdSafety
  import opened Coupling
  import P = Protocol
  import V = ProtocolView
  import S = ProtocolSteps
  import B = ProtocolMbd
  import G = ProtocolLog

  /** A step that gives back what job j was charged. */
  predicate Releases(q: Option<Step>, j: JobId) {
    q.Some? && match q.value
               case DoReject(i) => i == j
               case DoMissing(i) => i == j
               case DoFinish(i, _, _) => i == j
               case _ => false
  }

  /** A step that charges job j. */
  predicate Charging(q: Option<Step>, j: JobId) {
    q.Some? && q.value.DoDispatch? && q.value.j == j
  }

  predicate InEpoch(s: P.State, j: JobId, e: nat) {
    j in s.jobs && s.jobs[j].epoch == e
  }

  /** How often dispatch e of job j was charged in the first i ticks. */
  function Taken(ss: seq<P.State>, ks: seq<Tick>, i: nat, j: JobId, e: nat): nat
    requires i <= |ks| && |ss| == |ks| + 1
  {
    if i == 0 then 0
    else Taken(ss, ks, i - 1, j, e) + if Charging(ks[i - 1].q, j) && InEpoch(ss[i], j, e) then 1 else 0
  }

  /** How often its charges were given back. */
  function Returned(ss: seq<P.State>, ks: seq<Tick>, i: nat, j: JobId, e: nat): nat
    requires i <= |ks| && |ss| == |ks| + 1
  {
    if i == 0 then 0
    else Returned(ss, ks, i - 1, j, e) + if Releases(ks[i - 1].q, j) && InEpoch(ss[i - 1], j, e) then 1 else 0
  }

  // -------------------------------------------------------------------
  // What a tick logs
  // -------------------------------------------------------------------

  ghost predicate Logs(s: P.State, t: P.State, k: Tick) {
    if k.q.Some? && k.q.value.DoDispatch? then
      k.q.value.j in t.jobs && t.log == s.log + [P.LogStart(k.q.value.j, t.jobs[k.q.value.j].epoch)]
    else if k.q.Some? && (k.q.value.DoReject? || k.q.value.DoMissing? || k.q.value.DoFinish?) then
      k.q.value.j in s.jobs && exists how :: t.log == s.log + [P.LogSettle(k.q.value.j, s.jobs[k.q.value.j].epoch, how)]
    else t.log == s.log || exists x: P.LogEvent :: x.LogFork? && t.log == s.log + [x]
  }

  lemma {:induction false} ReceiveLogs(s: P.State, m: Tables, k: Tick, n: HostId, success: bool, exit: int)
    requires k.ps == [P.MbdReceive(n)] && P.Enabled(s, P.MbdReceive(n)) && V.Inv(s) && PathOk(s, k.ps)
    requires k.q == StepOf(ReportOf(s, n), success, exit)
    ensures Logs(s, PathEnd(s, k.ps), k)
  {
    ReportRecord(s, n);
    hide V.Inv, P.Next, P.Enabled, PathOk, PathEnd;
    OneStepPath(s, P.MbdReceive(n));
    var t := P.Next(s, P.MbdReceive(n));
    var j := s.hosts[n].up[0].job;
    match ReportOf(s, n) {
      case Nothing =>
      case Forks(_, pid) => assert P.LogFork(j, s.jobs[j].epoch, pid).LogFork?;
      case Finishes(_) => assert t.log == s.log + [P.LogSettle(j, s.jobs[j].epoch, P.ByFinish)];
      case Rejects(_) => assert t.log == s.log + [P.LogSettle(j, s.jobs[j].epoch, P.ByReject)];
      case Loses(_) => assert t.log == s.log + [P.LogSettle(j, s.jobs[j].epoch, P.ByMissing)];
    }
  }

  lemma {:induction false} QuietLogs(s: P.State, p: P.Step)
    requires P.Enabled(s, p) && (S.HostOnly(p) || p.MbdAccept? || p.MbdRestart? || p.Hold? || p.Resume? || p.KillPending?)
    ensures P.Next(s, p).log == s.log
  {
    hide P.HostNext, P.RunListFor;
  }

  lemma {:induction false} SingleLogs(s: P.State, m: Tables, k: Tick)
    requires TickOk(s, m, k) && |k.ps| == 1 && !k.ps[0].MbdReceive? && !k.ps[0].Submit? && !k.ps[0].Purge?
    ensures Logs(s, PathEnd(s, k.ps), k)
  {
    var p := k.ps[0];
    assert k.ps == [p];
    hide P.Next, P.Enabled, Enabled, Next, PurgesOf, Submits, DrawIds;
    OneStepPath(s, p);
    if p.Dispatch? {
      DispatchRecord(s, p.j, p.n);
    } else {
      QuietLogs(s, p);
    }
  }

  lemma {:induction false} TickLogs(s: P.State, m: Tables, k: Tick)
    requires TickOk(s, m, k) && V.Inv(s)
    ensures Logs(s, PathEnd(s, k.ps), k)
  {
    hide V.Inv, Enabled, Next, P.Next, PathEnd, PathOk, Logs;
    if k.q.Some? && IsReport(k.q.value) {
      var n, success, exit := ReceivedBy(s, m, k);
      ReceiveLogs(s, m, k, n, success, exit);
    } else if k.q.Some? && k.q.value.DoSubmit? {
      var req := k.q.value.req;
      SubmitPathEnds(s, DrawIds(m.jobs, m.lastId, Elements(req)), req.hold);
      NothingLogged(s, PathEnd(s, k.ps), k);
    } else if k.q.Some? && k.q.value.DoCompact? {
      PurgeMember(m, k.ps, 0);
      PurgePathEnds(s, k.ps);
      NothingLogged(s, PathEnd(s, k.ps), k);
    } else if k.q.Some? && BooksOnly(k.q.value) {
      EmptyPath(s);
      NothingLogged(s, PathEnd(s, k.ps), k);
    } else if k.q.None? && k.ps[0].MbdReceive? {
      assert k.ps == [P.MbdReceive(k.ps[0].n)];
      ReceiveLogs(s, m, k, k.ps[0].n, true, 0);
    } else {
      SingleLogs(s, m, k);
    }
  }

  lemma {:induction false} EmptyPath(s: P.State)
    ensures PathOk(s, []) && PathEnd(s, []) == s
  {
  }

  lemma {:induction false} NothingLogged(s: P.State, t: P.State, k: Tick)
    requires t.log == s.log && k.q.Some? && !IsReport(k.q.value) && !k.q.value.DoDispatch?
    ensures Logs(s, t, k)
  {
  }

  // -------------------------------------------------------------------
  // Counting
  // -------------------------------------------------------------------

  lemma {:induction false} CountsMove(s: P.State, t: P.State, k: Tick, j: JobId, e: nat)
    requires Logs(s, t, k)
    ensures G.Starts(t.log, j, e) == G.Starts(s.log, j, e) + if Charging(k.q, j) && InEpoch(t, j, e) then 1 else 0
    ensures G.Settles(t.log, j, e) == G.Settles(s.log, j, e) + if Releases(k.q, j) && InEpoch(s, j, e) then 1 else 0
  {
    if t.log != s.log {
      var x :| t.log == s.log + [x];
      LogMoves(s.log, x, j, e);
      assert t.log[|s.log|] == x;
    }
  }

  lemma {:induction false} LogMoves(log: seq<P.LogEvent>, x: P.LogEvent, j: JobId, e: nat)
    ensures G.Starts(log + [x], j, e) == G.Starts(log, j, e) + if x == P.LogStart(j, e) then 1 else 0
    ensures G.Settles(log + [x], j, e) == G.Settles(log, j, e) + if x.LogSettle? && x.job == j && x.epoch == e then 1 else 0
  {
    G.Appended(log, x);
  }

  lemma {:induction false} TickCounts(s: P.State, m: Tables, k: Tick, t: P.State, u: Tables, j: JobId, e: nat)
    requires JointInv(s, m) && Ticks(s, m, k, t, u)
    ensures G.Starts(t.log, j, e) == G.Starts(s.log, j, e) + if Charging(k.q, j) && InEpoch(t, j, e) then 1 else 0
    ensures G.Settles(t.log, j, e) == G.Settles(s.log, j, e) + if Releases(k.q, j) && InEpoch(s, j, e) then 1 else 0
  {
    hide V.Inv, MbdInv, Couples, G.LogInv, Together, Enabled, Next, PathOk, PathEnd, G.Starts, G.Settles, Logs, Proper;
    TickLogs(s, m, k);
    CountsMove(s, t, k, j, e);
  }

  lemma {:induction false} NoneCounted(s: P.State, j: JobId, e: nat)
    requires P.Init(s)
    ensures G.Starts(s.log, j, e) == 0 && G.Settles(s.log, j, e) == 0
  {
  }

  lemma {:induction false} Counted(ss: seq<P.State>, ms: seq<Tables>, ks: seq<Tick>, i: nat, j: JobId, e: nat)
    requires JointRun(ss, ms, ks) && i <= |ks|
    ensures Taken(ss, ks, i, j, e) == G.Starts(ss[i].log, j, e)
    ensures Returned(ss, ks, i, j, e) == G.Settles(ss[i].log, j, e)
  {
    hide JointInv, Ticks, G.Starts, G.Settles, P.Init, Init;
    if i == 0 {
      NoneCounted(ss[0], j, e);
    } else {
      Counted(ss, ms, ks, i - 1, j, e);
      RunCouples(ss, ms, ks, i - 1);
      TickCounts(ss[i - 1], ms[i - 1], ks[i - 1], ss[i], ms[i], j, e);
    }
  }

  /** However often finishes and replies are resent, hosts, tokens and queues
      get back what dispatch e of job j took exactly once, unless it is the
      one the job is running in: then not yet. */
  lemma {:induction false} ReturnedOnce(ss: seq<P.State>, ms: seq<Tables>, ks: seq<Tick>, i: nat, j: JobId, e: nat)
    requires JointRun(ss, ms, ks) && i <= |ks|
    ensures Returned(ss, ks, i, j, e) <= Taken(ss, ks, i, j, e) <= 1
    ensures Returned(ss, ks, i, j, e) < Taken(ss, ks, i, j, e)
            <==> j in ms[i].jobs && ms[i].jobs[j].list == OnRun && InEpoch(ss[i], j, e)
  {
    Counted(ss, ms, ks, i, j, e);
    RunCouples(ss, ms, ks, i);
    Settled(ss[i], ms[i], j, e);
  }

  lemma {:induction false} Settled(s: P.State, m: Tables, j: JobId, e: nat)
    requires G.LogInv(s) && Couples(s, m)
    ensures G.Settles(s.log, j, e) <= G.Starts(s.log, j, e) <= 1
    ensures G.Settles(s.log, j, e) < G.Starts(s.log, j, e) <==> j in m.jobs && m.jobs[j].list == OnRun && InEpoch(s, j, e)
  {
    hide G.Starts, G.Settles;
    assert G.JobLog(s, j);
    if j in m.jobs { assert CoupledJob(s.jobs[j], m.jobs[j]); }
  }

  /** And every message mbd can read in such a run is a step its tables can
      take at that moment, or changes nothing. */
  lemma {:induction false} EveryReportTaken(ss: seq<P.State>, ms: seq<Tables>, ks: seq<Tick>, i: nat, n: HostId, now: int,
                                            success: bool, exit: int)
    requires JointRun(ss, ms, ks) && i <= |ks| && P.Enabled(ss[i], P.MbdReceive(n)) && now > 0
    ensures TakesReport(ss[i], ms[i], n, now, success, exit)
  {
    RunCouples(ss, ms, ks, i);
    hide V.Inv, MbdInv, Couples, G.LogInv, JointRun, TakesReport;
    ReceiveCoupled(ss[i], ms[i], n, now, success, exit);
  }
}
