/**
 The protocol and the books together: what mbd reads from its execution
 daemons is a step of its tables or nothing, so every dispatch is charged once
 and its charges come back exactly once, however often reports are resent.
 */
module Coupling {
  import opened Mbd
  import opened JobLists
  import opened Manifest
  import opened Compaction
  import opened Accounting
  import opened AccountingSteps
  import opened AccountingRestart
  import opened MbdSafety
  import P = Protocol
  import V = ProtocolView
  import S = ProtocolSteps
  import B = ProtocolMbd
  import Safe = ProtocolSafety
  import G = ProtocolLog
  import N = Names

  // -------------------------------------------------------------------
  // One job, twice
  // -------------------------------------------------------------------

  function PhaseOf(job: Job): P.Phase {
    match job.list
    case OnPend => if job.state == Held then P.Held else P.Pending
    case OnRun => P.Running
    case OnFinish => P.Finished
  }

  predicate CoupledJob(p: P.MbdJob, job: Job) {
    && p.phase == PhaseOf(job)
    && (job.list == OnRun ==>
          && job.runHosts != [] && p.host == P.Some(job.runHosts[0])
          && (p.forked <==> job.forkTime != 0) && p.pid == job.pid)
  }

  /** The daemon's records as the protocol and as the tables have them. */
  ghost predicate Couples(s: P.State, m: Tables) {
    && s.jobs.Keys == m.jobs.Keys && s.lastId <= m.savedId
    && forall j :: j in m.jobs ==> CoupledJob(s.jobs[j], m.jobs[j])
  }

  // -------------------------------------------------------------------
  // What a report means for the tables
  // -------------------------------------------------------------------

  datatype Report = Nothing | Forks(j: JobId, pid: int) | Rejects(j: JobId) | Loses(j: JobId) | Finishes(j: JobId)

  function ReportOf(s: P.State, n: HostId): Report
    requires n in s.hosts && s.hosts[n].up != []
  {
    match s.hosts[n].up[0]
    case ReplyOk(j, pid, _) => if j in s.jobs && !s.jobs[j].forked then Forks(j, pid) else Nothing
    case ReplyErr(j, _) => if j in s.jobs && s.jobs[j].phase == P.Running then Rejects(j) else Nothing
    case Finish(j, _) =>
      if j in s.jobs && s.jobs[j].host == P.Some(n) && s.jobs[j].phase != P.Finished then Finishes(j) else Nothing
    case Missing(j) =>
      if j in s.jobs && s.jobs[j].host == P.Some(n) && s.jobs[j].phase == P.Running then Loses(j) else Nothing
  }

  /** The step of the tables; how the job ended is not the protocol's business. */
  function StepOf(r: Report, success: bool, exit: int): Option<Step> {
    match r
    case Nothing => None
    case Forks(j, pid) => Some(DoFork(j, pid))
    case Rejects(j) => Some(DoReject(j))
    case Loses(j) => Some(DoMissing(j))
    case Finishes(j) => Some(DoFinish(j, success, exit))
  }

  /** The steps a report can be. */
  predicate OfReport(step: Step, j: JobId) {
    match step
    case DoFork(i, _) => i == j
    case DoReject(i) => i == j
    case DoMissing(i) => i == j
    case DoFinish(i, _, _) => i == j
    case _ => false
  }

  /** A job as far as it is coupled. */
  predicate SameCoupling(a: Job, b: Job) {
    a.list == b.list && a.state == b.state && a.runHosts == b.runHosts && a.forkTime == b.forkTime && a.pid == b.pid
  }

  lemma {:induction false} ReportSpares(m: Tables, step: Step, now: int, j: JobId, k: JobId)
    requires Enabled(m, step, now) && OfReport(step, j) && k != j
    ensures k in m.jobs <==> k in Next(m, step, now).jobs
    ensures k in m.jobs ==> SameCoupling(m.jobs[k], Next(m, step, now).jobs[k])
    ensures Next(m, step, now).savedId == m.savedId
  {
  }

  lemma {:induction false} ReportTakes(m: Tables, step: Step, now: int, j: JobId)
    requires Enabled(m, step, now) && OfReport(step, j)
    ensures j in m.jobs && j in Next(m, step, now).jobs
    ensures var was, after := m.jobs[j], Next(m, step, now).jobs[j];
            match step
            case DoFork(_, pid) =>
              && after.list == was.list == OnRun && after.state == Running && after.runHosts == was.runHosts
              && after.forkTime == now > 0 && after.pid == pid
            case DoFinish(_, _, _) => after.list == OnFinish
            case _ => after.list == OnPend && after.state == Pending
  {
  }

  lemma {:induction false} OthersStayCoupled(s: P.State, t: P.State, m: Tables, step: Step, now: int, j: JobId)
    requires Couples(s, m) && Enabled(m, step, now) && OfReport(step, j)
    requires (forall k :: k != j ==> B.SameRecord(s, t, k)) && t.lastId == s.lastId
    requires j in t.jobs && j in Next(m, step, now).jobs && CoupledJob(t.jobs[j], Next(m, step, now).jobs[j])
    ensures Couples(t, Next(m, step, now))
  {
    hide Enabled, Next;
    var u := Next(m, step, now);
    ReportTakes(m, step, now, j);
    ReportSpares(m, step, now, j, j + 1);
    forall k: JobId
      ensures k in t.jobs <==> k in u.jobs
      ensures k in u.jobs ==> CoupledJob(t.jobs[k], u.jobs[k])
    {
      if k != j {
        ReportSpares(m, step, now, j, k);
        assert B.SameRecord(s, t, k);
      }
    }
    assert t.jobs.Keys == u.jobs.Keys;
  }

  /** What reading the message does to the record it is about. */
  lemma {:induction false} ReportRecord(s: P.State, n: HostId)
    requires V.Inv(s) && P.Enabled(s, P.MbdReceive(n))
    ensures var t := P.Next(s, P.MbdReceive(n));
            var j := s.hosts[n].up[0].job;
            && t.lastId == s.lastId && (forall k :: k != j ==> B.SameRecord(s, t, k))
            && match ReportOf(s, n)
               case Nothing => B.SameRecord(s, t, j) && t.log == s.log
               case Forks(i, pid) =>
                 && i == j && j in s.jobs && s.jobs[j].phase == P.Running && !s.jobs[j].forked
                 && j in t.jobs && t.jobs[j] == s.jobs[j].(pid := pid, forked := true)
                 && t.log == s.log + [P.LogFork(j, s.jobs[j].epoch, pid)]
               case Finishes(i) =>
                 && i == j && j in s.jobs && s.jobs[j].phase == P.Running
                 && j in t.jobs && t.jobs[j].phase == P.Finished && t.log == s.log + [P.LogSettle(j, s.jobs[j].epoch, P.ByFinish)]
               case Rejects(i) =>
                 && i == j && j in s.jobs && s.jobs[j].phase == P.Running
                 && j in t.jobs && t.jobs[j].phase == P.Pending && t.log == s.log + [P.LogSettle(j, s.jobs[j].epoch, P.ByReject)]
               case Loses(i) =>
                 && i == j && j in s.jobs && s.jobs[j].phase == P.Running
                 && j in t.jobs && t.jobs[j].phase == P.Pending && t.log == s.log + [P.LogSettle(j, s.jobs[j].epoch, P.ByMissing)]
  {
    B.ReceiveKeeps(s, n);
    B.ReceiveShape(s, n);
    NoFault(s, n);
  }

  lemma {:induction false} NoFault(s: P.State, n: HostId)
    requires V.Inv(s) && P.Enabled(s, P.MbdReceive(n))
    ensures !P.MbdFault(s, n, s.hosts[n].up[0])
    ensures ReportOf(s, n).Rejects? ==> s.jobs[s.hosts[n].up[0].job].host.Some? && s.jobs[s.hosts[n].up[0].job].host.value in s.hosts
  {
    B.ReceiveKeeps(s, n);
  }

  /** What the tables are told of a job that is running. */
  predicate Sound(s: P.State, r: Report, j: JobId) {
    match r
    case Nothing => true
    case Forks(i, _) => i == j && j in s.jobs && s.jobs[j].phase == P.Running && !s.jobs[j].forked
    case Rejects(i) => i == j && j in s.jobs && s.jobs[j].phase == P.Running
    case Loses(i) => i == j && j in s.jobs && s.jobs[j].phase == P.Running
    case Finishes(i) => i == j && j in s.jobs && s.jobs[j].phase == P.Running
  }

  lemma {:induction false} QueuesKnown(m: Tables)
    requires MbdInv(m)
    ensures forall j :: j in m.jobs ==> m.jobs[j].queue in m.queues
  {
    forall j | j in m.jobs
      ensures m.jobs[j].queue in m.queues
    {
      assert JobSound(m.jobs[j], m.queues);
    }
  }

  lemma {:induction false} ReportEnabled(s: P.State, m: Tables, r: Report, j: JobId, now: int, success: bool, exit: int)
    requires Couples(s, m) && Sound(s, r, j) && now > 0 && forall k :: k in m.jobs ==> m.jobs[k].queue in m.queues
    ensures var q := StepOf(r, success, exit); q.Some? ==> OfReport(q.value, j) && Enabled(m, q.value, now)
  {
    if r != Nothing { assert CoupledJob(s.jobs[j], m.jobs[j]); }
  }

  lemma {:induction false} NothingHappens(s: P.State, t: P.State, m: Tables)
    requires Couples(s, m) && t.lastId == s.lastId && forall j :: B.SameRecord(s, t, j)
    ensures Couples(t, m)
  {
    assert forall j :: j in s.jobs <==> j in t.jobs by {
      forall j ensures j in s.jobs <==> j in t.jobs { assert B.SameRecord(s, t, j); }
    }
    forall j | j in m.jobs
      ensures CoupledJob(t.jobs[j], m.jobs[j])
    {
      assert B.SameRecord(s, t, j);
    }
  }

  /** The record after a report, as the protocol has it. */
  ghost predicate Told(s: P.State, t: P.State, r: Report, j: JobId) {
    match r
    case Nothing => B.SameRecord(s, t, j)
    case Forks(i, pid) => j in s.jobs && j in t.jobs && t.jobs[j] == s.jobs[j].(pid := pid, forked := true)
    case Finishes(i) => j in t.jobs && t.jobs[j].phase == P.Finished
    case Rejects(i) => j in t.jobs && t.jobs[j].phase == P.Pending
    case Loses(i) => j in t.jobs && t.jobs[j].phase == P.Pending
  }

  lemma {:induction false} SubjectCoupled(s: P.State, t: P.State, m: Tables, r: Report, j: JobId, now: int, step: Step)
    requires Couples(s, m) && Sound(s, r, j) && Told(s, t, r, j)
    requires Enabled(m, step, now) && OfReport(step, j) && exists success, exit :: StepOf(r, success, exit) == Some(step)
    ensures j in t.jobs && j in Next(m, step, now).jobs && CoupledJob(t.jobs[j], Next(m, step, now).jobs[j])
  {
    ReportTakes(m, step, now, j);
    hide Enabled, Next;
    assert CoupledJob(s.jobs[j], m.jobs[j]);
  }

  lemma {:induction false} Untold(s: P.State, t: P.State, j: JobId)
    ensures Told(s, t, Nothing, j) ==> B.SameRecord(s, t, j)
  {
  }

  lemma {:induction false} ReportHeard(s: P.State, n: HostId)
    requires V.Inv(s) && P.Enabled(s, P.MbdReceive(n))
    ensures var t, j, r := P.Next(s, P.MbdReceive(n)), s.hosts[n].up[0].job, ReportOf(s, n);
            && t.lastId == s.lastId && (forall k :: k != j ==> B.SameRecord(s, t, k)) && Sound(s, r, j) && Told(s, t, r, j)
  {
    ReportRecord(s, n);
    hide V.Inv, P.Next;
  }

  lemma {:induction false} CoupledAfter(s: P.State, t: P.State, m: Tables, r: Report, j: JobId, now: int, success: bool, exit: int)
    requires Couples(s, m) && Sound(s, r, j) && Told(s, t, r, j) && t.lastId == s.lastId && now > 0
    requires (forall k :: k != j ==> B.SameRecord(s, t, k)) && forall k :: k in m.jobs ==> m.jobs[k].queue in m.queues
    ensures var q := StepOf(r, success, exit);
            if q.None? then Couples(t, m) else Enabled(m, q.value, now) && Couples(t, Next(m, q.value, now))
  {
    hide Enabled, Next, Couples, Told, Sound;
    Untold(s, t, j);
    ReportEnabled(s, m, r, j, now, success, exit);
    var q := StepOf(r, success, exit);
    if q.None? {
      assert forall k :: B.SameRecord(s, t, k);
      NothingHappens(s, t, m);
    } else {
      SubjectCoupled(s, t, m, r, j, now, q.value);
      OthersStayCoupled(s, t, m, q.value, now, j);
    }
  }

  /** Reading the next message of host n is a step the tables can take, or
      changes nothing; either way both sides still agree. */
  ghost predicate TakesReport(s: P.State, m: Tables, n: HostId, now: int, success: bool, exit: int)
    requires P.Enabled(s, P.MbdReceive(n))
  {
    var q := StepOf(ReportOf(s, n), success, exit);
    var t := P.Next(s, P.MbdReceive(n));
    if q.None? then Couples(t, m) else Enabled(m, q.value, now) && Couples(t, Next(m, q.value, now))
  }

  lemma {:induction false} ReceiveCoupled(s: P.State, m: Tables, n: HostId, now: int, success: bool, exit: int)
    requires P.Enabled(s, P.MbdReceive(n)) && now > 0 && V.Inv(s) && Couples(s, m) && MbdInv(m)
    ensures TakesReport(s, m, n, now, success, exit)
  {
    hide V.Inv, P.Next, MbdInv, Enabled, Next, Couples, Told, Sound, StepOf, ReportOf;
    ReportHeard(s, n);
    QueuesKnown(m);
    CoupledAfter(s, P.Next(s, P.MbdReceive(n)), m, ReportOf(s, n), s.hosts[n].up[0].job, now, success, exit);
  }

  // -------------------------------------------------------------------
  // Running together
  // -------------------------------------------------------------------

  /** What happens at once on both sides. */
  datatype Tick = Tick(ps: seq<P.Step>, q: Option<Step>, now: int)

  ghost predicate PathOk(s: P.State, ps: seq<P.Step>)
    decreases |ps|
  {
    ps == [] || (P.Enabled(s, ps[0]) && PathOk(P.Next(s, ps[0]), ps[1..]))
  }

  ghost function PathEnd(s: P.State, ps: seq<P.Step>): P.State
    requires PathOk(s, ps)
    decreases |ps|
  {
    if ps == [] then s else PathEnd(P.Next(s, ps[0]), ps[1..])
  }

  function Submits(ids: seq<JobId>, held: bool): seq<P.Step> {
    seq(|ids|, i requires 0 <= i < |ids| => P.Submit(ids[i], held))
  }

  /** Compaction drops each purged job once. */
  ghost predicate PurgesOf(m: Tables, ps: seq<P.Step>) {
    && (forall i :: 0 <= i < |ps| ==> ps[i].Purge?)
    && (forall i, k :: 0 <= i < k < |ps| ==> ps[i].j != ps[k].j)
    && (forall j :: (exists i :: 0 <= i < |ps| && ps[i].j == j) <==> j in m.jobs && j !in Compact(m).jobs)
  }

  /** Which steps of the two sides are the same event. */
  ghost predicate Together(s: P.State, m: Tables, k: Tick) {
    match k.q
    case None =>
      && |k.ps| == 1
      && (|| S.HostOnly(k.ps[0]) || k.ps[0].MbdAccept?
          || (k.ps[0].MbdReceive? && P.Enabled(s, k.ps[0]) && ReportOf(s, k.ps[0].n) == Nothing))
    case Some(step) =>
      match step
      case DoSubmit(req) => GoodRequest(m, req) && k.ps == Submits(DrawIds(m.jobs, m.lastId, Elements(req)), req.hold)
      case DoHold(j, _) => k.ps == [P.Hold(j)]
      case DoResume(j, _) => k.ps == [P.Resume(j)]
      case DoKill(j, _) => k.ps == [P.KillPending(j)]
      case DoDispatch(j, plan) => plan != [] && k.ps == [P.Dispatch(j, plan[0])]
      case DoCompact => PurgesOf(m, k.ps)
      case DoRestart => |k.ps| == 1 && k.ps[0].MbdRestart?
      case DoFork(_, _) => Reported(s, k.ps, step)
      case DoReject(_) => Reported(s, k.ps, step)
      case DoMissing(_) => Reported(s, k.ps, step)
      case DoFinish(_, _, _) => Reported(s, k.ps, step)
      case _ => k.ps == []
  }

  ghost predicate Reported(s: P.State, ps: seq<P.Step>, step: Step) {
    && |ps| == 1 && ps[0].MbdReceive? && P.Enabled(s, ps[0])
    && exists success, exit :: StepOf(ReportOf(s, ps[0].n), success, exit) == Some(step)
  }

  ghost predicate Ticks(s: P.State, m: Tables, k: Tick, t: P.State, u: Tables) {
    && PathOk(s, k.ps) && t == PathEnd(s, k.ps) && Together(s, m, k) && k.now > 0
    && (if k.q.None? then u == m else Enabled(m, k.q.value, k.now) && Proper(k.q.value) && u == Next(m, k.q.value, k.now))
  }

  ghost predicate JointRun(ss: seq<P.State>, ms: seq<Tables>, ks: seq<Tick>) {
    && |ss| == |ks| + 1 && |ms| == |ks| + 1 && P.Init(ss[0]) && Init(ms[0])
    && forall i :: 0 <= i < |ks| ==> Ticks(ss[i], ms[i], ks[i], ss[i + 1], ms[i + 1])
  }

  ghost predicate JointInv(s: P.State, m: Tables) {
    V.Inv(s) && G.LogInv(s) && MbdInv(m) && Couples(s, m)
  }

  lemma {:induction false} PathKeeps(s: P.State, ps: seq<P.Step>)
    requires V.Inv(s) && G.LogInv(s) && PathOk(s, ps)
    ensures V.Inv(PathEnd(s, ps)) && G.LogInv(PathEnd(s, ps))
    decreases |ps|
  {
    hide V.Inv, G.LogInv, P.Next, P.Enabled;
    if ps != [] {
      Safe.StepKeepsInv(s, ps[0]);
      G.StepKeepsLog(s, ps[0]);
      PathKeeps(P.Next(s, ps[0]), ps[1..]);
    }
  }

  lemma {:induction false} OneStepPath(s: P.State, p: P.Step)
    requires PathOk(s, [p])
    ensures P.Enabled(s, p) && PathEnd(s, [p]) == P.Next(s, p)
  {
    hide P.Next, P.Enabled;
    assert [p][1..] == [];
  }

  // -------------------------------------------------------------------
  // Each tick keeps both sides together
  // -------------------------------------------------------------------

  function Fresh(held: bool): P.MbdJob {
    P.MbdJob(if held then P.Held else P.Pending, P.None, 0, false, 0)
  }

  lemma {:induction false} SubmitsRest(ids: seq<JobId>, held: bool)
    requires ids != []
    ensures Submits(ids, held) == [P.Submit(ids[0], held)] + Submits(ids[1..], held)
    ensures Submits(ids, held)[1..] == Submits(ids[1..], held)
  {
    assert Submits(ids, held)[1..] == Submits(ids[1..], held);
  }

  /** Submission: jobs appear one by one in the protocol. */
  lemma {:induction false} SubmitPath(s: P.State, ids: seq<JobId>, held: bool, j: JobId)
    requires PathOk(s, Submits(ids, held)) && NoDup(ids)
    ensures var t := PathEnd(s, Submits(ids, held));
            if j in ids then j in t.jobs && t.jobs[j] == Fresh(held) else B.SameRecord(s, t, j)
    decreases |ids|
  {
    if ids != [] {
      SubmitsRest(ids, held);
      var p, rest := P.Submit(ids[0], held), ids[1..];
      assert ids == [ids[0]] + rest && ids[0] !in rest && NoDup(rest);
      SubmitPath(P.Next(s, p), rest, held, j);
      assert PathEnd(s, Submits(ids, held)) == PathEnd(P.Next(s, p), Submits(rest, held));
      hide PathEnd, PathOk, Submits;
    }
  }

  lemma {:induction false} SubmitPathEnds(s: P.State, ids: seq<JobId>, held: bool)
    requires PathOk(s, Submits(ids, held))
    ensures var t := PathEnd(s, Submits(ids, held));
            t.log == s.log && t.lastId == if ids == [] then s.lastId else ids[|ids| - 1]
    decreases |ids|
  {
    if ids != [] {
      SubmitsRest(ids, held);
      SubmitPathEnds(P.Next(s, P.Submit(ids[0], held)), ids[1..], held);
    }
  }

  /** What a submission adds to the tables. */
  ghost predicate Added(m: Tables, t: Tables, ids: seq<JobId>, req: Request, k: nat) {
    && k <= |ids| && req.queue in t.queues
    && (forall j :: j in t.jobs <==> j in m.jobs || j in ids[..k])
    && (forall j :: j in m.jobs ==> SameCoupling(m.jobs[j], t.jobs[j]))
    && (forall j :: j in ids[..k] ==> t.jobs[j].list == OnPend && t.jobs[j].state == if req.hold then Held else Pending)
  }

  lemma {:induction false} CommitCoupling(t: Tables, id: JobId, job: Job, nhosts: int, j: JobId)
    requires job.queue in t.queues
    ensures var u := Commit(t, id, job, nhosts);
            && (j in u.jobs <==> j == id || j in t.jobs)
            && (j in u.jobs ==> SameCoupling(u.jobs[j], if j == id then job else t.jobs[j]))
            && u.queues.Keys == t.queues.Keys
  {
    hide LoggedWords, Refs;
  }

  lemma {:induction false} PreparedIs(req: Request, priority: int, head: JobId, k: nat, count: nat, now: int)
    ensures var job := Prepared(req, priority, head, k, count, now);
            job.queue == req.queue && job.list == OnPend && job.state == if req.hold then Held else Pending
  {
  }

  lemma {:induction false} OneAdded(m: Tables, t: Tables, ids: seq<JobId>, req: Request, k: nat, now: int)
    requires Added(m, t, ids, req, k) && k < |ids| && ids[k] !in m.jobs && NoDup(ids)
    ensures Added(m, CommitNth(t, req, ids, k, now), ids, req, k + 1)
  {
    hide Commit, Prepared;
    var priority := t.queues[req.queue].priority;
    var job := Prepared(req, priority, ids[0], k, |ids|, now);
    PreparedIs(req, priority, ids[0], k, |ids|, now);
    var u := CommitNth(t, req, ids, k, now);
    CommitCoupling(t, ids[k], job, req.nhosts, 0);
    forall j: JobId
      ensures (j in u.jobs <==> j == ids[k] || j in t.jobs)
      ensures j in u.jobs ==> SameCoupling(u.jobs[j], if j == ids[k] then job else t.jobs[j])
    {
      CommitCoupling(t, ids[k], job, req.nhosts, j);
    }
    hide CommitNth;
    AddedMore(m, t, u, ids, req, k, job);
  }

  lemma {:induction false} AddedMore(m: Tables, t: Tables, u: Tables, ids: seq<JobId>, req: Request, k: nat, job: Job)
    requires Added(m, t, ids, req, k) && k < |ids| && ids[k] !in m.jobs && NoDup(ids) && req.queue in u.queues
    requires job.list == OnPend && job.state == if req.hold then Held else Pending
    requires forall j :: j in u.jobs <==> j == ids[k] || j in t.jobs
    requires forall j :: j in u.jobs ==> SameCoupling(u.jobs[j], if j == ids[k] then job else t.jobs[j])
    ensures Added(m, u, ids, req, k + 1)
  {
    assert ids[..k + 1] == ids[..k] + [ids[k]] && ids[k] !in ids[..k];
  }

  lemma {:induction false} SubmitAdds(m: Tables, req: Request, now: int)
    requires GoodRequest(m, req) && forall j :: j in m.jobs ==> j <= m.lastId
    ensures var ids := DrawIds(m.jobs, m.lastId, Elements(req));
            && NoDup(ids) && |ids| > 0 && Added(m, Submit(m, req, now), ids, req, |ids|)
            && Submit(m, req, now).savedId == ids[|ids| - 1]
  {
    var ids := DrawIds(m.jobs, m.lastId, Elements(req));
    IdsConsecutive(m.jobs, m.lastId, Elements(req));
    hide Added, CommitNth, DrawIds;
    var Q := (t: Tables, k: nat) => Added(m, t, ids, req, k);
    forall t: Tables, k: nat
      ensures Q(t, k) ==> req.queue in t.queues
      ensures Q(t, k) && k < |ids| ==> Q(CommitNth(t, req, ids, k, now), k + 1)
    {
      AddedQueue(m, t, ids, req, k);
      if Q(t, k) && k < |ids| { OneAdded(m, t, ids, req, k, now); }
    }
    NoneAdded(m, ids, req);
    CommitLoop(Q, m, req, ids, |ids|, now);
    AddedIgnoresIds(m, CommitRest(m, req, ids, |ids|, now), Submit(m, req, now), ids, req);
  }

  lemma {:induction false} AddedQueue(m: Tables, t: Tables, ids: seq<JobId>, req: Request, k: nat)
    ensures Added(m, t, ids, req, k) ==> req.queue in t.queues
  {
  }

  lemma {:induction false} NoneAdded(m: Tables, ids: seq<JobId>, req: Request)
    requires req.queue in m.queues
    ensures Added(m, m, ids, req, 0)
  {
  }

  lemma {:induction false} AddedIgnoresIds(m: Tables, t: Tables, u: Tables, ids: seq<JobId>, req: Request)
    requires Added(m, t, ids, req, |ids|) && u.jobs == t.jobs && u.queues == t.queues
    ensures Added(m, u, ids, req, |ids|)
  {
  }

  lemma {:induction false} SubmittedJob(s: P.State, t: P.State, m: Tables, u: Tables, ids: seq<JobId>, req: Request, j: JobId)
    requires Couples(s, m) && Added(m, u, ids, req, |ids|)
    requires if j in ids then j in t.jobs && t.jobs[j] == Fresh(req.hold) else B.SameRecord(s, t, j)
    ensures j in t.jobs <==> j in u.jobs
    ensures j in u.jobs ==> CoupledJob(t.jobs[j], u.jobs[j])
  {
    assert ids[..|ids|] == ids;
    if j in m.jobs { assert CoupledJob(s.jobs[j], m.jobs[j]); }
  }

  lemma {:induction false} AllCoupled(t: P.State, u: Tables)
    requires forall j: JobId :: (j in t.jobs <==> j in u.jobs) && (j in u.jobs ==> CoupledJob(t.jobs[j], u.jobs[j]))
    requires t.lastId <= u.savedId
    ensures Couples(t, u)
  {
    assert t.jobs.Keys == u.jobs.Keys;
  }

  lemma {:induction false} SubmitTick(s: P.State, m: Tables, req: Request, now: int, ids: seq<JobId>)
    requires Couples(s, m) && GoodRequest(m, req) && (forall j :: j in m.jobs ==> j <= m.lastId)
    requires ids == DrawIds(m.jobs, m.lastId, Elements(req)) && PathOk(s, Submits(ids, req.hold))
    ensures Couples(PathEnd(s, Submits(ids, req.hold)), Submit(m, req, now))
  {
    hide PathEnd, PathOk, Submits, Submit, Added, Couples, Fresh;
    SubmitAdds(m, req, now);
    SubmitPathEnds(s, ids, req.hold);
    var t, u := PathEnd(s, Submits(ids, req.hold)), Submit(m, req, now);
    forall j: JobId
      ensures (j in t.jobs <==> j in u.jobs) && (j in u.jobs ==> CoupledJob(t.jobs[j], u.jobs[j]))
    {
      SubmitPath(s, ids, req.hold, j);
      SubmittedJob(s, t, m, u, ids, req, j);
    }
    AllCoupled(t, u);
  }

  /** A request about a job that waits, or a dispatch. */
  lemma {:induction false} RequestSpares(m: Tables, step: Step, now: int, j: JobId, k: JobId)
    requires Enabled(m, step, now) && (step.DoHold? || step.DoResume? || step.DoKill? || step.DoDispatch?) && step.j == j && k != j
    ensures k in m.jobs <==> k in Next(m, step, now).jobs
    ensures k in m.jobs ==> SameCoupling(m.jobs[k], Next(m, step, now).jobs[k])
    ensures Next(m, step, now).savedId == m.savedId
  {
    hide N.HostsText, ChargeAll, MoveTokens, Without, Refs;
  }

  lemma {:induction false} RequestTakes(m: Tables, step: Step, now: int, j: JobId)
    requires Enabled(m, step, now) && (step.DoHold? || step.DoResume? || step.DoKill? || step.DoDispatch?) && step.j == j
    ensures j in m.jobs && m.jobs[j].list == OnPend && j in Next(m, step, now).jobs
    ensures var was, after := m.jobs[j], Next(m, step, now).jobs[j];
            match step
            case DoHold(_, _) => after.list == OnPend && after.state == Held
            case DoResume(_, _) => after.list == OnPend && after.state == Pending
            case DoKill(_, _) => after.list == OnFinish
            case DoDispatch(_, plan) =>
              after.list == OnRun && after.runHosts == plan && after.forkTime == was.forkTime && after.pid == was.pid
            case _ => true
  {
    hide N.HostsText, ChargeAll, MoveTokens, Without, Refs;
  }

  lemma {:induction false} RequestTick(s: P.State, t: P.State, m: Tables, step: Step, now: int, j: JobId)
    requires Couples(s, m) && Enabled(m, step, now) && (step.DoHold? || step.DoResume? || step.DoKill? || step.DoDispatch?) && step.j == j
    requires (forall k :: k != j ==> B.SameRecord(s, t, k)) && t.lastId == s.lastId
    requires j in t.jobs && j in Next(m, step, now).jobs && CoupledJob(t.jobs[j], Next(m, step, now).jobs[j])
    ensures Couples(t, Next(m, step, now))
  {
    hide Enabled, Next;
    var u := Next(m, step, now);
    RequestSpares(m, step, now, j, j + 1);
    forall k: JobId
      ensures (k in t.jobs <==> k in u.jobs) && (k in u.jobs ==> CoupledJob(t.jobs[k], u.jobs[k]))
    {
      if k != j {
        RequestSpares(m, step, now, j, k);
        assert B.SameRecord(s, t, k);
      }
    }
    AllCoupled(t, u);
  }

  lemma {:induction false} HoldTick(s: P.State, m: Tables, step: Step, now: int)
    requires Couples(s, m) && Enabled(m, step, now) && (step.DoHold? || step.DoResume? || step.DoKill?)
    requires P.Enabled(s, HoldOf(step))
    ensures Couples(P.Next(s, HoldOf(step)), Next(m, step, now))
  {
    RequestTakes(m, step, now, step.j);
    hide Enabled, Next, Couples;
    HoldRecord(s, step);
    RequestTick(s, P.Next(s, HoldOf(step)), m, step, now, step.j);
  }

  lemma {:induction false} HoldRecord(s: P.State, step: Step)
    requires (step.DoHold? || step.DoResume? || step.DoKill?) && P.Enabled(s, HoldOf(step))
    ensures var t := P.Next(s, HoldOf(step));
            && t.lastId == s.lastId && (forall k :: k != step.j ==> B.SameRecord(s, t, k)) && step.j in t.jobs
            && t.jobs[step.j].phase == if step.DoHold? then P.Held else if step.DoResume? then P.Pending else P.Finished
  {
  }

  function HoldOf(step: Step): P.Step
    requires step.DoHold? || step.DoResume? || step.DoKill?
  {
    if step.DoHold? then P.Hold(step.j) else if step.DoResume? then P.Resume(step.j) else P.KillPending(step.j)
  }

  /** A job that waits has no pid on either side. */
  lemma {:induction false} WaitingHasNoPid(s: P.State, m: Tables, j: JobId)
    requires V.Inv(s) && MbdInv(m) && Couples(s, m) && j in m.jobs && m.jobs[j].list == OnPend
    ensures !s.jobs[j].forked && s.jobs[j].pid == 0 && m.jobs[j].forkTime == 0 && m.jobs[j].pid == 0
  {
    hide MbdInv, V.Inv;
    WaitingIsSound(m, j);
    assert CoupledJob(s.jobs[j], m.jobs[j]);
    NoPidBeforeRun(s, j);
  }

  lemma {:induction false} WaitingIsSound(m: Tables, j: JobId)
    requires MbdInv(m) && j in m.jobs && m.jobs[j].list == OnPend
    ensures m.jobs[j].state in {Pending, Held} && m.jobs[j].forkTime == 0 && m.jobs[j].pid == 0
  {
    assert JobSound(m.jobs[j], m.queues);
  }

  lemma {:induction false} NoPidBeforeRun(s: P.State, j: JobId)
    requires V.Inv(s) && j in s.jobs && s.jobs[j].phase in {P.Pending, P.Held}
    ensures !s.jobs[j].forked && s.jobs[j].pid == 0
  {
    assert V.JobInv(s, j);
  }

  lemma {:induction false} DispatchRecord(s: P.State, j: JobId, n: HostId)
    requires P.Enabled(s, P.Dispatch(j, n))
    ensures var t := P.Next(s, P.Dispatch(j, n));
            && t.lastId == s.lastId && (forall k :: k != j ==> B.SameRecord(s, t, k))
            && j in s.jobs && j in t.jobs
            && t.jobs[j] == s.jobs[j].(phase := P.Running, host := P.Some(n), epoch := s.jobs[j].epoch + 1)
            && t.log == s.log + [P.LogStart(j, t.jobs[j].epoch)]
  {
  }

  lemma {:induction false} DispatchTick(s: P.State, m: Tables, j: JobId, plan: seq<HostId>, now: int)
    requires V.Inv(s) && MbdInv(m) && Couples(s, m) && Enabled(m, DoDispatch(j, plan), now) && plan != []
    requires P.Enabled(s, P.Dispatch(j, plan[0]))
    ensures Couples(P.Next(s, P.Dispatch(j, plan[0])), Next(m, DoDispatch(j, plan), now))
  {
    hide V.Inv, MbdInv, Enabled, Next, P.Next, P.Enabled;
    RequestTakes(m, DoDispatch(j, plan), now, j);
    DispatchRecord(s, j, plan[0]);
    WaitingHasNoPid(s, m, j);
    RequestTick(s, P.Next(s, P.Dispatch(j, plan[0])), m, DoDispatch(j, plan), now, j);
  }

  // -------------------------------------------------------------------
  // Compaction and restart
  // -------------------------------------------------------------------

  ghost predicate Purging(ps: seq<P.Step>) {
    && (forall i :: 0 <= i < |ps| ==> ps[i].Purge?)
    && (forall i, k :: 0 <= i < k < |ps| && ps[i].Purge? && ps[k].Purge? ==> ps[i].j != ps[k].j)
  }

  lemma {:induction false} PurgePath(s: P.State, ps: seq<P.Step>, j: JobId)
    requires PathOk(s, ps) && Purging(ps)
    ensures var t := PathEnd(s, ps); if P.Purge(j) in ps then j !in t.jobs else B.SameRecord(s, t, j)
    decreases |ps|
  {
    if ps != [] {
      var p, rest := ps[0], ps[1..];
      assert ps == [p] + rest && Purging(rest) && p !in rest;
      PurgePath(P.Next(s, p), rest, j);
      PurgeRecord(s, p.j, j);
      hide P.Next, P.Enabled;
    }
  }

  lemma {:induction false} PurgeRecord(s: P.State, i: JobId, j: JobId)
    requires P.Enabled(s, P.Purge(i))
    ensures var t := P.Next(s, P.Purge(i)); if i == j then j !in t.jobs else B.SameRecord(s, t, j)
  {
  }

  lemma {:induction false} PurgePathEnds(s: P.State, ps: seq<P.Step>)
    requires PathOk(s, ps) && Purging(ps)
    ensures PathEnd(s, ps).log == s.log && PathEnd(s, ps).lastId == s.lastId
    decreases |ps|
  {
    if ps != [] {
      assert Purging(ps[1..]);
      PurgePathEnds(P.Next(s, ps[0]), ps[1..]);
    }
  }

  lemma {:induction false} PurgeMember(m: Tables, ps: seq<P.Step>, j: JobId)
    requires PurgesOf(m, ps)
    ensures Purging(ps) && (P.Purge(j) in ps <==> j in m.jobs && j !in Compact(m).jobs)
  {
    hide Compact;
    if P.Purge(j) in ps {
      var i :| 0 <= i < |ps| && ps[i] == P.Purge(j);
      assert ps[i].j == j;
    }
    if j in m.jobs && j !in Compact(m).jobs {
      var i :| 0 <= i < |ps| && ps[i].j == j;
      assert ps[i] == P.Purge(j);
    }
  }

  lemma {:induction false} CompactKept(m: Tables, j: JobId)
    ensures j in Compact(m).jobs ==> j in m.jobs && Compact(m).jobs[j] == m.jobs[j]
    ensures Compact(m).savedId == m.savedId
  {
  }

  lemma {:induction false} CompactTick(s: P.State, m: Tables, ps: seq<P.Step>)
    requires Couples(s, m) && PurgesOf(m, ps) && PathOk(s, ps)
    ensures Couples(PathEnd(s, ps), Compact(m))
  {
    hide PathEnd, PathOk, PurgesOf, Compact, Purging;
    var t, u := PathEnd(s, ps), Compact(m);
    PurgeMember(m, ps, 0);
    PurgePathEnds(s, ps);
    CompactKept(m, 0);
    forall j: JobId
      ensures (j in t.jobs <==> j in u.jobs) && (j in u.jobs ==> CoupledJob(t.jobs[j], u.jobs[j]))
    {
      PurgeMember(m, ps, j);
      PurgePath(s, ps, j);
      CompactKept(m, j);
      if j in m.jobs { assert CoupledJob(s.jobs[j], m.jobs[j]); }
    }
    AllCoupled(t, u);
  }

  lemma {:induction false} RestartKept(m: Tables, r: Replayed, j: JobId)
    requires Mirrors(r, m.jobs)
    ensures j in Restart(m, r).jobs <==> j in m.jobs
    ensures j in m.jobs ==>
              var was, after := m.jobs[j], Restart(m, r).jobs[j];
              && after.list == was.list && after.state == was.state && after.forkTime == was.forkTime && after.pid == was.pid
              && (was.dispatchTime != 0 ==> after.runHosts == was.runHosts)
    ensures Restart(m, r).savedId == m.savedId
  {
    RestartJobs(m, r);
    hide Filed;
    if j in m.jobs { assert See(r.jobs[j]) == See(m.jobs[j]); }
  }

  lemma {:induction false} InvMirrors(m: Tables)
    requires MbdInv(m)
    ensures Replay(m.manifest, m.queues).Some? && Mirrors(Replay(m.manifest, m.queues).value, m.jobs)
  {
  }

  lemma {:induction false} RunningIsDispatched(m: Tables, j: JobId)
    requires MbdInv(m) && j in m.jobs
    ensures m.jobs[j].list == OnRun ==> m.jobs[j].dispatchTime != 0
  {
    assert JobSound(m.jobs[j], m.queues);
  }

  lemma {:induction false} RestartTick(s: P.State, m: Tables, kept: map<HostId, nat>, now: int)
    requires Couples(s, m) && MbdInv(m) && P.Enabled(s, P.MbdRestart(kept)) && Enabled(m, DoRestart, now)
    ensures Couples(P.Next(s, P.MbdRestart(kept)), Next(m, DoRestart, now))
  {
    hide MbdInv, Mirrors, Replay, Restart;
    InvMirrors(m);
    var r := Replay(m.manifest, m.queues);
    var t, u := P.Next(s, P.MbdRestart(kept)), Restart(m, r.value);
    RestartKept(m, r.value, 0);
    forall j: JobId
      ensures (j in t.jobs <==> j in u.jobs) && (j in u.jobs ==> CoupledJob(t.jobs[j], u.jobs[j]))
    {
      RestartKept(m, r.value, j);
      if j in m.jobs {
        assert CoupledJob(s.jobs[j], m.jobs[j]);
        RunningIsDispatched(m, j);
      }
    }
    AllCoupled(t, u);
  }

  // -------------------------------------------------------------------
  // Ticks that touch one side only
  // -------------------------------------------------------------------

  lemma {:induction false} WireTick(s: P.State, m: Tables, p: P.Step)
    requires Couples(s, m) && P.Enabled(s, p) && (S.HostOnly(p) || p.MbdAccept?)
    ensures Couples(P.Next(s, p), m) && P.Next(s, p).log == s.log && P.Next(s, p).jobs == s.jobs
  {
    hide P.HostNext, P.RunListFor, CoupledJob;
  }

  predicate BooksOnly(step: Step) {
    step.DoMove? || step.DoPriority? || step.DoSignal? || step.DoMark? || step.DoFailSubmit?
  }

  lemma {:induction false} BooksSpare(m: Tables, step: Step, now: int, j: JobId)
    requires Enabled(m, step, now) && BooksOnly(step)
    ensures j in Next(m, step, now).jobs <==> j in m.jobs
    ensures j in m.jobs ==> SameCoupling(m.jobs[j], Next(m, step, now).jobs[j])
    ensures Next(m, step, now).savedId == m.savedId
  {
  }

  lemma {:induction false} BooksTick(s: P.State, m: Tables, step: Step, now: int)
    requires Couples(s, m) && Enabled(m, step, now) && BooksOnly(step)
    ensures Couples(s, Next(m, step, now))
  {
    hide Enabled, Next;
    var u := Next(m, step, now);
    BooksSpare(m, step, now, 0);
    forall j: JobId
      ensures (j in s.jobs <==> j in u.jobs) && (j in u.jobs ==> CoupledJob(s.jobs[j], u.jobs[j]))
    {
      BooksSpare(m, step, now, j);
    }
    AllCoupled(s, u);
  }

  // -------------------------------------------------------------------
  // Every tick
  // -------------------------------------------------------------------

  /** Reading a message, whether it means something or not. */
  lemma {:induction false} ReceiveTick(s: P.State, m: Tables, k: Tick, n: HostId, success: bool, exit: int)
    requires k.ps == [P.MbdReceive(n)] && P.Enabled(s, P.MbdReceive(n)) && k.now > 0
    requires k.q == StepOf(ReportOf(s, n), success, exit) && PathOk(s, k.ps)
    requires Couples(s, m) && V.Inv(s) && MbdInv(m)
    ensures if k.q.None? then Couples(PathEnd(s, k.ps), m)
            else Enabled(m, k.q.value, k.now) && Couples(PathEnd(s, k.ps), Next(m, k.q.value, k.now))
  {
    hide V.Inv, MbdInv, Couples, P.Next, Next, Enabled, ReportOf, StepOf, PathOk, PathEnd;
    OneStepPath(s, P.MbdReceive(n));
    ReceiveCoupled(s, m, n, k.now, success, exit);
  }

  lemma {:induction false} ReceivedBy(s: P.State, m: Tables, k: Tick) returns (n: HostId, success: bool, exit: int)
    requires Together(s, m, k) && k.q.Some? && (k.q.value.DoFork? || k.q.value.DoReject? || k.q.value.DoMissing? || k.q.value.DoFinish?)
    ensures k.ps == [P.MbdReceive(n)] && P.Enabled(s, P.MbdReceive(n)) && k.q == StepOf(ReportOf(s, n), success, exit)
  {
    hide ReportOf, StepOf;
    assert Reported(s, k.ps, k.q.value);
    n := k.ps[0].n;
    success, exit :| StepOf(ReportOf(s, n), success, exit) == k.q;
  }

  ghost predicate TickOk(s: P.State, m: Tables, k: Tick) {
    PathOk(s, k.ps) && Together(s, m, k) && k.now > 0 && (k.q.Some? ==> Enabled(m, k.q.value, k.now))
  }

  ghost function After(m: Tables, k: Tick): Tables
    requires k.q.Some? ==> Enabled(m, k.q.value, k.now)
  {
    if k.q.None? then m else Next(m, k.q.value, k.now)
  }

  lemma {:induction false} OneSideTick(s: P.State, m: Tables, k: Tick)
    requires TickOk(s, m, k) && (k.q.None? || BooksOnly(k.q.value))
    requires Couples(s, m) && V.Inv(s) && MbdInv(m)
    ensures Couples(PathEnd(s, k.ps), After(m, k))
  {
    hide V.Inv, MbdInv, Couples, P.Next, Next, Enabled, ReportOf;
    if k.q.None? {
      OneStepPath(s, k.ps[0]);
      assert k.ps == [k.ps[0]];
      if k.ps[0].MbdReceive? {
        ReceiveTick(s, m, k, k.ps[0].n, true, 0);
      } else {
        WireTick(s, m, k.ps[0]);
      }
    } else {
      BooksTick(s, m, k.q.value, k.now);
    }
  }

  lemma {:induction false} JobTick(s: P.State, m: Tables, k: Tick)
    requires TickOk(s, m, k) && k.q.Some? && (k.q.value.DoHold? || k.q.value.DoResume? || k.q.value.DoKill? || k.q.value.DoDispatch?)
    requires Couples(s, m) && V.Inv(s) && MbdInv(m)
    ensures Couples(PathEnd(s, k.ps), After(m, k))
  {
    hide V.Inv, MbdInv, Couples, P.Next, Next, Enabled, P.Enabled;
    OneStepPath(s, k.ps[0]);
    assert k.ps == [k.ps[0]];
    if k.q.value.DoDispatch? {
      DispatchTick(s, m, k.q.value.j, k.q.value.plan, k.now);
    } else {
      HoldTick(s, m, k.q.value, k.now);
    }
  }

  lemma {:induction false} TableTick(s: P.State, m: Tables, k: Tick)
    requires TickOk(s, m, k) && k.q.Some? && (k.q.value.DoSubmit? || k.q.value.DoCompact? || k.q.value.DoRestart?)
    requires Couples(s, m) && V.Inv(s) && MbdInv(m) && forall j :: j in m.jobs ==> j <= m.lastId
    ensures Couples(PathEnd(s, k.ps), After(m, k))
  {
    hide V.Inv, MbdInv, Couples, P.Next, P.Enabled, Submit, Compact, Restart, Replay, PurgesOf;
    match k.q.value {
      case DoSubmit(req) => SubmitTick(s, m, req, k.now, DrawIds(m.jobs, m.lastId, Elements(req)));
      case DoCompact => CompactTick(s, m, k.ps);
      case DoRestart =>
        OneStepPath(s, k.ps[0]);
        assert k.ps == [k.ps[0]];
        RestartTick(s, m, k.ps[0].kept, k.now);
      case _ =>
    }
  }

  predicate IsReport(step: Step) {
    step.DoFork? || step.DoReject? || step.DoMissing? || step.DoFinish?
  }

  lemma {:induction false} TickCouples(s: P.State, m: Tables, k: Tick)
    requires TickOk(s, m, k)
    requires Couples(s, m) && V.Inv(s) && MbdInv(m) && forall j :: j in m.jobs ==> j <= m.lastId
    ensures Couples(PathEnd(s, k.ps), After(m, k))
  {
    hide V.Inv, MbdInv, Couples, P.Next, Next, Enabled, Together, PathOk, PathEnd;
    if k.q.None? || BooksOnly(k.q.value) {
      OneSideTick(s, m, k);
    } else if IsReport(k.q.value) {
      var n, success, exit := ReceivedBy(s, m, k);
      ReceiveTick(s, m, k, n, success, exit);
    } else if k.q.value.DoSubmit? || k.q.value.DoCompact? || k.q.value.DoRestart? {
      TableTick(s, m, k);
    } else {
      JobTick(s, m, k);
    }
  }

  lemma {:induction false} InvIds(m: Tables)
    requires MbdInv(m)
    ensures forall j :: j in m.jobs ==> j <= m.lastId
  {
  }

  lemma {:induction false} TickKeeps(s: P.State, m: Tables, k: Tick, t: P.State, u: Tables)
    requires JointInv(s, m) && Ticks(s, m, k, t, u)
    ensures JointInv(t, u)
  {
    hide V.Inv, MbdInv, Couples, G.LogInv, Next, Enabled, Together, PathOk, PathEnd, Proper;
    InvIds(m);
    PathKeeps(s, k.ps);
    TickCouples(s, m, k);
    if k.q.Some? { StepKeepsInv(m, k.q.value, k.now); }
  }

  /** In every run of both sides together they agree. */
  lemma {:induction false} RunCouples(ss: seq<P.State>, ms: seq<Tables>, ks: seq<Tick>, i: nat)
    requires JointRun(ss, ms, ks) && i < |ss|
    ensures JointInv(ss[i], ms[i])
  {
    if i == 0 {
      Safe.InitInv(ss[0]);
      InitInv(ms[0]);
      InitLog(ss[0]);
    } else {
      RunCouples(ss, ms, ks, i - 1);
      TickKeeps(ss[i - 1], ms[i - 1], ks[i - 1], ss[i], ms[i]);
    }
  }

  lemma {:induction false} InitLog(s: P.State)
    requires P.Init(s)
    ensures G.LogInv(s)
  {
  }
}
