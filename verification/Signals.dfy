/**
 A signal to a job: what becomes of a job that waits, and what is logged for
 one that runs.
 */
module Signals {
  import opened Mbd
  import opened JobLists
  import opened MbdSafety
  import opened History

  datatype Signal = Terminate(n: Sig) | Stop(n: Sig) | Continue(n: Sig) | Other(n: Sig)

  /** signal_one_job for a job the caller may signal; reachable says whether the
      sbd of the job's first host is connected. */
  function SignalOne(m: Tables, j: JobId, sig: Signal, reachable: bool, now: int): Tables
    requires j in m.jobs && m.jobs[j].queue in m.queues
  {
    var s := m.jobs[j].state;
    if s == Done || s == Exited then m
    else if s == Running then
      if sig.Continue? || !reachable then m else SignalRunning(m, j, sig.n, now)
    else
      match sig
      case Terminate(n) => Kill(m, j, n, now)
      case Stop(n) => if s == Held then m else SetHeld(m, j, true, n, now)
      case Continue(n) => if s == Held then SetHeld(m, j, false, n, now) else m
      case Other(_) => m
  }

  // -------------------------------------------------------------------
  // Steps
  // -------------------------------------------------------------------

  predicate CanTake(m: Tables, steps: seq<Step>, now: int)
    decreases |steps|
  {
    steps == [] || (Enabled(m, steps[0], now) && CanTake(Next(m, steps[0], now), steps[1..], now))
  }

  function After(m: Tables, steps: seq<Step>, now: int): Tables
    requires CanTake(m, steps, now)
    decreases |steps|
  {
    if steps == [] then m else After(Next(m, steps[0], now), steps[1..], now)
  }

  lemma {:induction false} OneMore(m: Tables, steps: seq<Step>, step: Step, now: int)
    requires CanTake(m, steps, now) && Enabled(After(m, steps, now), step, now)
    ensures CanTake(m, steps + [step], now) && After(m, steps + [step], now) == Next(After(m, steps, now), step, now)
    decreases |steps|
  {
    hide Enabled, Next;
    if steps == [] {
      assert steps + [step] == [step] && [step][1..] == [];
    } else {
      assert (steps + [step])[0] == steps[0] && (steps + [step])[1..] == steps[1..] + [step];
      OneMore(Next(m, steps[0], now), steps[1..], step, now);
    }
  }

  /** State and list of every job go together. */
  ghost predicate StatesOk(m: Tables) {
    forall j :: j in m.jobs ==>
      && m.jobs[j].queue in m.queues
      && (m.jobs[j].list == OnPend <==> m.jobs[j].state == Pending || m.jobs[j].state == Held)
      && (m.jobs[j].list == OnRun <==> m.jobs[j].state == Running)
  }

  ghost predicate Consistent(m: Tables) {
    ListsOk(m) && StatesOk(m)
  }

  /** The step a signal to a job comes to, if any. */
  function StepFor(job: Job, j: JobId, sig: Signal, reachable: bool): Option<Step> {
    if job.state == Running then
      if sig.Continue? || !reachable then None else Some(DoSignal(j, sig.n))
    else if job.state == Pending then
      if sig.Terminate? then Some(DoKill(j, sig.n)) else if sig.Stop? then Some(DoHold(j, sig.n)) else None
    else if job.state == Held then
      if sig.Terminate? then Some(DoKill(j, sig.n)) else if sig.Continue? then Some(DoResume(j, sig.n)) else None
    else None
  }

  lemma {:induction false} SignalIsStep(m: Tables, j: JobId, sig: Signal, reachable: bool, now: int)
    requires StatesOk(m) && j in m.jobs && now > 0
    ensures var step := StepFor(m.jobs[j], j, sig, reachable);
            if step.None? then SignalOne(m, j, sig, reachable, now) == m
            else Enabled(m, step.value, now) && SignalOne(m, j, sig, reachable, now) == Next(m, step.value, now)
  {
    hide Kill, SetHeld, SignalRunning;
  }

  // -------------------------------------------------------------------
  // What becomes of the jobs
  // -------------------------------------------------------------------

  /** A signalled job, in the fields of its record and in the log: ended if it
      waited and is to terminate, held or waiting again if that was asked, and
      if it runs and its host can be reached, logged as signalled. */
  ghost predicate Signalled(was: Job, m: Tables, t: Tables, j: JobId, sig: Signal, reachable: bool, now: int) {
    && j in t.jobs && |m.manifest| <= |t.manifest|
    && (was.state == Running ==>
          && Alike(was, t.jobs[j])
          && (reachable && !sig.Continue? ==> EvSignal(j, now, sig.n) in t.manifest[|m.manifest|..]))
    && (was.state == Pending || was.state == Held ==>
          match sig
          case Terminate(n) =>
            && t.jobs[j].state == Exited && t.jobs[j].list == OnFinish && t.jobs[j].endTime == now
            && EvSignal(j, now, n) in t.manifest[|m.manifest|..]
          case Stop(n) =>
            && t.jobs[j].state == Held && t.jobs[j].list == was.list
            && (was.state == Pending ==> EvSignal(j, now, n) in t.manifest[|m.manifest|..])
          case Continue(n) =>
            && t.jobs[j].state == Pending && t.jobs[j].list == was.list
            && (was.state == Held ==> EvSignal(j, now, n) in t.manifest[|m.manifest|..])
          case Other(_) => Alike(was, t.jobs[j]))
  }

  /** The log has grown by records about these jobs. */
  ghost predicate LogOnly(a: seq<Event>, b: seq<Event>, sent: seq<JobId>) {
    |a| <= |b| && b[..|a|] == a && forall i :: |a| <= i < |b| ==> b[i].job in sent
  }

  /** From m to t exactly the jobs of sent were signalled. */
  ghost predicate Effects(m: Tables, t: Tables, sent: seq<JobId>, sig: Signal, reachable: JobId -> bool, now: int) {
    && Consistent(t) && t.jobs.Keys == m.jobs.Keys
    && LogOnly(m.manifest, t.manifest, sent) && EachAs(m, t, sent, sig, reachable, now)
  }

  ghost predicate EachAs(m: Tables, t: Tables, sent: seq<JobId>, sig: Signal, reachable: JobId -> bool, now: int) {
    && t.jobs.Keys == m.jobs.Keys
    && forall j :: j in m.jobs ==>
         if j in sent then Signalled(m.jobs[j], m, t, j, sig, reachable(j), now) else Alike(m.jobs[j], t.jobs[j])
  }

  /** Whoever is to terminate and waited is off the pending list, and on the
      list of finished jobs. */
  lemma {:induction false} Terminated(m: Tables, t: Tables, sent: seq<JobId>, sig: Signal, reachable: JobId -> bool, now: int, j: JobId)
    requires Effects(m, t, sent, sig, reachable, now) && sig.Terminate? && j in sent && j in m.jobs && m.jobs[j].list == OnPend
    requires Consistent(m)
    ensures j in t.fin && j !in t.pend && j !in t.run && t.jobs[j].state == Exited
  {
    assert Signalled(m.jobs[j], m, t, j, sig, reachable(j), now);
  }

  lemma {:induction false} SignalledStill(was: Job, m: Tables, t: Tables, u: Tables, j: JobId, sig: Signal, reachable: bool, now: int)
    requires Signalled(was, m, t, j, sig, reachable, now) && j in u.jobs && Alike(t.jobs[j], u.jobs[j])
    requires |t.manifest| <= |u.manifest| && u.manifest[..|t.manifest|] == t.manifest
    ensures Signalled(was, m, u, j, sig, reachable, now)
  {
    if was.state == Running { AlikeTrans(was, t.jobs[j], u.jobs[j]); }
    if (was.state == Pending || was.state == Held) && sig.Other? { AlikeTrans(was, t.jobs[j], u.jobs[j]); }
    LogGrows(m.manifest, t.manifest, u.manifest, EvSignal(j, now, sig.n));
  }

  lemma {:induction false} LogGrows(a: seq<Event>, b: seq<Event>, c: seq<Event>, e: Event)
    requires |a| <= |b| <= |c| && c[..|b|] == b
    ensures e in b[|a|..] ==> e in c[|a|..]
  {
    if e in b[|a|..] {
      var i :| 0 <= i < |b[|a|..]| && b[|a|..][i] == e;
      assert c[|a|..][i] == c[..|b|][|a| + i] == e;
    }
  }

  // -------------------------------------------------------------------
  // One signal more
  // -------------------------------------------------------------------

  predicate OfSignal(step: Step) {
    step.DoKill? || step.DoHold? || step.DoResume? || step.DoSignal?
  }

  /** What the step leaves in the log and elsewhere. */
  lemma {:induction false} SignalLogs(m: Tables, step: Step, now: int)
    requires Enabled(m, step, now) && OfSignal(step)
    ensures var t := Next(m, step, now);
            && |m.manifest| < |t.manifest| && t.manifest[..|m.manifest|] == m.manifest
            && t.manifest[|m.manifest|] == EvSignal(step.j, now, step.sig)
            && (forall i :: |m.manifest| <= i < |t.manifest| ==> t.manifest[i].job == step.j)
            && t.queues.Keys == m.queues.Keys && t.jobs.Keys == m.jobs.Keys
  {
    hide Without, Refs;
  }

  lemma {:induction false} SignalSpares(m: Tables, step: Step, now: int)
    requires Enabled(m, step, now) && OfSignal(step) && step.j in m.jobs && ListsOk(m)
    ensures var t := Next(m, step, now);
            && ListsOk(t) && t.jobs.Keys == m.jobs.Keys
            && Alike(Left(m.jobs[step.j], step, now), t.jobs[step.j])
            && forall k :: k in m.jobs && k != step.j ==> Alike(m.jobs[k], t.jobs[k])
  {
    var t := Next(m, step, now);
    SignalLogs(m, step, now);
    hide Next, Enabled, Alike, ListsOk, Left;
    if step.DoSignal? {
      DispatchStepLists(m, step, now);
      DispatchLeaves(m, step, now);
    } else {
      PendingStepLists(m, step, now);
      PendingLeaves(m, step, now);
    }
    forall k | k in m.jobs && k != step.j
      ensures Alike(m.jobs[k], t.jobs[k])
    {
      if step.DoSignal? { DispatchSpares(m, step, now, k); } else { PendingSpares(m, step, now, k); }
    }
  }

  lemma {:induction false} StatesStill(m: Tables, t: Tables, x: JobId, job: Job)
    requires StatesOk(m) && x in m.jobs && t.jobs.Keys == m.jobs.Keys && t.queues.Keys == m.queues.Keys
    requires Alike(job, t.jobs[x]) && job.queue in m.queues
    requires job.list == OnPend <==> job.state == Pending || job.state == Held
    requires job.list == OnRun <==> job.state == Running
    requires forall k :: k in m.jobs && k != x ==> Alike(m.jobs[k], t.jobs[k])
    ensures StatesOk(t)
  {
  }

  /** The record of a signalled job. */
  lemma {:induction false} StepSignals(was: Job, job: Job, m: Tables, t: Tables, j: JobId, sig: Signal, reachable: bool, now: int)
    requires Alike(was, job) && StepFor(job, j, sig, reachable).Some? && j in t.jobs && now > 0
    requires job.list == OnPend <==> job.state == Pending || job.state == Held
    requires Alike(Left(job, StepFor(job, j, sig, reachable).value, now), t.jobs[j])
    requires |m.manifest| <= |t.manifest| && EvSignal(j, now, sig.n) in t.manifest[|m.manifest|..]
    ensures Signalled(was, m, t, j, sig, reachable, now)
  {
  }

  lemma {:induction false} NoStepSignals(was: Job, m: Tables, t: Tables, j: JobId, sig: Signal, reachable: bool, now: int)
    requires j in t.jobs && Alike(was, t.jobs[j]) && StepFor(t.jobs[j], j, sig, reachable).None? && |m.manifest| <= |t.manifest|
    ensures Signalled(was, m, t, j, sig, reachable, now)
  {
  }

  lemma {:induction false} EffectsMore(m: Tables, was: Tables, sent: seq<JobId>, x: JobId, sig: Signal, reachable: JobId -> bool, now: int)
    requires Effects(m, was, sent, sig, reachable, now) && x in m.jobs && x !in sent && now > 0
    ensures Effects(m, SignalOne(was, x, sig, reachable(x), now), sent + [x], sig, reachable, now)
  {
    var next := StepFor(was.jobs[x], x, sig, reachable(x));
    var t := SignalOne(was, x, sig, reachable(x), now);
    SignalIsStep(was, x, sig, reachable(x), now);
    hide SignalOne, Enabled, Next, StepFor, Alike, Signalled, ListsOk;
    assert Alike(m.jobs[x], was.jobs[x]);
    hide LogOnly;
    if next.None? {
      NoStepSignals(m.jobs[x], m, was, x, sig, reachable(x), now);
    } else {
      StepIsSignal(was.jobs[x], x, sig, reachable(x));
      EffectsOfStep(m, was, t, sent, next.value, x, sig, reachable, now);
    }
  }

  lemma {:induction false} StepIsSignal(job: Job, j: JobId, sig: Signal, reachable: bool)
    requires StepFor(job, j, sig, reachable).Some?
    ensures var step := StepFor(job, j, sig, reachable).value; OfSignal(step) && step.j == j && step.sig == sig.n
  {
  }

  lemma {:induction false} LeftStates(job: Job, j: JobId, sig: Signal, reachable: bool, now: int)
    requires StepFor(job, j, sig, reachable).Some?
    requires job.list == OnPend <==> job.state == Pending || job.state == Held
    requires job.list == OnRun <==> job.state == Running
    ensures var left := Left(job, StepFor(job, j, sig, reachable).value, now);
            && left.queue == job.queue
            && (left.list == OnPend <==> left.state == Pending || left.state == Held)
            && (left.list == OnRun <==> left.state == Running)
  {
  }

  lemma {:induction false} EffectsOfStep(m: Tables, was: Tables, t: Tables, sent: seq<JobId>, step: Step, x: JobId,
                                         sig: Signal, reachable: JobId -> bool, now: int)
    requires Effects(m, was, sent, sig, reachable, now) && x in m.jobs && x !in sent && now > 0
    requires StepFor(was.jobs[x], x, sig, reachable(x)) == Some(step) && OfSignal(step) && step.j == x && step.sig == sig.n
    requires Enabled(was, step, now) && t == Next(was, step, now)
    ensures Effects(m, t, sent + [x], sig, reachable, now)
  {
    hide Enabled, Next, StepFor, Alike, Signalled, ListsOk, Left, LogOnly;
    SignalLogs(was, step, now);
    SignalSpares(was, step, now);
    LogOnlyMore(m.manifest, was.manifest, t.manifest, sent, x, EvSignal(x, now, sig.n));
    LeftStates(was.jobs[x], x, sig, reachable(x), now);
    StatesStill(was, t, x, Left(was.jobs[x], step, now));
    StepSignals(m.jobs[x], was.jobs[x], m, t, x, sig, reachable(x), now);
    hide EachAs, StatesOk;
    EachMore(m, was, t, sent, x, sig, reachable, now);
  }

  lemma {:induction false} EachMore(m: Tables, was: Tables, t: Tables, sent: seq<JobId>, x: JobId,
                                    sig: Signal, reachable: JobId -> bool, now: int)
    requires EachAs(m, was, sent, sig, reachable, now) && t.jobs.Keys == m.jobs.Keys && x in m.jobs
    requires Signalled(m.jobs[x], m, t, x, sig, reachable(x), now)
    requires |was.manifest| <= |t.manifest| && t.manifest[..|was.manifest|] == was.manifest
    requires forall k :: k in was.jobs && k != x ==> Alike(was.jobs[k], t.jobs[k])
    ensures EachAs(m, t, sent + [x], sig, reachable, now)
  {
    hide Alike, Signalled;
    forall j | j in m.jobs && j != x
      ensures if j in sent then Signalled(m.jobs[j], m, t, j, sig, reachable(j), now) else Alike(m.jobs[j], t.jobs[j])
    {
      if j in sent {
        SignalledStill(m.jobs[j], m, was, t, j, sig, reachable(j), now);
      } else {
        AlikeTrans(m.jobs[j], was.jobs[j], t.jobs[j]);
      }
    }
  }

  lemma {:induction false} LogOnlyMore(a: seq<Event>, b: seq<Event>, c: seq<Event>, sent: seq<JobId>, x: JobId, e: Event)
    requires LogOnly(a, b, sent) && |b| < |c| && c[..|b|] == b && c[|b|] == e && forall i :: |b| <= i < |c| ==> c[i].job == x
    ensures LogOnly(a, c, sent + [x]) && |a| <= |c| && e in c[|a|..]
  {
    assert c[..|a|] == c[..|b|][..|a|];
    assert c[|a|..][|b| - |a|] == e;
    forall i | |a| <= i < |c|
      ensures c[i].job in sent + [x]
    {
      if i < |b| { assert c[i] == c[..|b|][i]; }
    }
  }

  lemma {:induction false} NoEffects(m: Tables, sig: Signal, reachable: JobId -> bool, now: int)
    requires Consistent(m)
    ensures Effects(m, m, [], sig, reachable, now)
  {
  }

  // -------------------------------------------------------------------
  // Every run
  // -------------------------------------------------------------------

  /** The states of a run are such that signals have these effects. */
  lemma {:induction false} RunConsistent(tr: seq<Tables>, steps: seq<Step>, clock: seq<int>, i: nat)
    requires IsRun(tr, steps, clock) && i < |tr| && Remembers(steps)
    ensures Consistent(tr[i])
  {
    RunTells(tr, steps, clock, i);
    RunLists(tr, steps, clock, i);
    RunQueues(tr, steps, clock, i);
    hide IsRun, BookOf, AsksAs, ListsOk;
    forall j | j in tr[i].jobs
      ensures tr[i].jobs[j].list == OnPend <==> tr[i].jobs[j].state == Pending || tr[i].jobs[j].state == Held
      ensures tr[i].jobs[j].list == OnRun <==> tr[i].jobs[j].state == Running
    {
      assert GoesAs(tr[i].jobs[j], BookOf(tr, steps, clock, i)[j]);
    }
  }
}
