/**
 Finding one element of an array by its index, and signalling all of them.
 */
module ArrayOps {
  import opened Int32
  import opened Mbd
  import opened JobLists
  import opened Accounting
  import opened AccountingSteps
  import opened Arrays
  import opened History
  import opened Signals

  /** job_find_array: walks indices and ids together from the head. */
  method JobFindArray(m: Tables, a: JobId, index: int) returns (r: Option<JobId>)
    requires ArrayInv(m) && 0 !in m.jobs
    ensures r.Some? ==> r.value in m.jobs && m.jobs[r.value].tag.id == a && m.jobs[r.value].tag.index == index
    ensures forall j :: j in m.jobs && m.jobs[j].tag.id == a && a in m.jobs && m.jobs[j].tag.index == index
              ==> r == Some(j)
  {
    if a !in m.jobs || m.jobs[a].tag.id != a {
      NotAHead(m, a);
      return None;
    }
    var tag := m.jobs[a].tag;
    assert TagOk(a, tag, m.savedId);
    hide ArrayInv;
    var found, id := WalkTo(tag, a, index);
    if !found {
      NotAnIndex(m, a, id, index);
      return None;
    }
    Found(m, a, id);
    return if id in m.jobs then Some(id) else None;
  }

  /** The walk: the id that belongs to the index, or the end of the block. */
  method WalkTo(tag: ArrayTag, a: JobId, index: int) returns (found: bool, id: JobId)
    requires tag.stride > 0 && tag.end >= tag.start && IndexFits(tag.start, tag.end, tag.stride)
    ensures id >= a
    ensures found ==> index == tag.start + (id - a) * tag.stride <= tag.end
    ensures !found ==> tag.start + (id - a) * tag.stride > tag.end
    ensures !found ==> forall k :: 0 <= k < id - a ==> tag.start + k * tag.stride != index
  {
    hide Wrap, IndexFits;
    id := a;
    var at := tag.start;
    while at <= tag.end
      invariant id >= a && at == tag.start + (id - a) * tag.stride
      invariant forall k :: 0 <= k < id - a ==> tag.start + k * tag.stride != index
      decreases tag.end - at
    {
      if at == index {
        return true, id;
      }
      NextIndex(tag.start, tag.end, tag.stride, id - a);
      Onwards(tag.start, tag.stride, id - a, index);
      id, at := id + 1, Wrap(at + tag.stride);
    }
    return false, id;
  }

  lemma {:induction false} Onwards(start: int, stride: int, n: int, index: int)
    requires stride > 0 && start + n * stride != index && forall k :: 0 <= k < n ==> start + k * stride != index
    ensures start + (n + 1) * stride > start + n * stride
    ensures forall k :: 0 <= k < n + 1 ==> start + k * stride != index
  {
    assert (n + 1) * stride == n * stride + stride;
  }

  lemma {:induction false} NotAnIndex(m: Tables, a: JobId, id: JobId, index: int)
    requires ArrayInv(m) && 0 !in m.jobs && a in m.jobs && m.jobs[a].tag.id == a && id >= a
    requires m.jobs[a].tag.start + (id - a) * m.jobs[a].tag.stride > m.jobs[a].tag.end
    requires forall k :: 0 <= k < id - a ==> m.jobs[a].tag.start + k * m.jobs[a].tag.stride != index
    ensures forall j :: j in m.jobs && m.jobs[j].tag.id == a ==> m.jobs[j].tag.index != index
  {
    var tag := m.jobs[a].tag;
    assert TagOk(a, tag, m.savedId);
    forall j | j in m.jobs && m.jobs[j].tag.id == a
      ensures m.jobs[j].tag.index != index
    {
      assert TagOk(j, m.jobs[j].tag, m.savedId) && InBlock(m.jobs[j].tag, a) && m.jobs[a].tag == TagAt(m.jobs[j].tag, a);
      CountExact(tag.start, tag.end, tag.stride, id - a);
      assert m.jobs[j].tag.index == tag.start + (j - a) * tag.stride;
    }
  }

  lemma {:induction false} NotAHead(m: Tables, a: JobId)
    requires ArrayInv(m) && 0 !in m.jobs && (a !in m.jobs || m.jobs[a].tag.id != a)
    ensures forall j :: j in m.jobs && m.jobs[j].tag.id == a ==> a !in m.jobs
  {
    forall j | j in m.jobs && m.jobs[j].tag.id == a && a in m.jobs
      ensures false
    {
      assert TagOk(j, m.jobs[j].tag, m.savedId) && InBlock(m.jobs[j].tag, a);
    }
  }

  /** The id reached at an index is that element's, if it is in the table. */
  lemma {:induction false} Found(m: Tables, a: JobId, id: JobId)
    requires ArrayInv(m) && 0 !in m.jobs && a in m.jobs && m.jobs[a].tag.id == a && id >= a
    requires m.jobs[a].tag.start + (id - a) * m.jobs[a].tag.stride <= m.jobs[a].tag.end
    ensures id in m.jobs ==> m.jobs[id].tag == TagAt(m.jobs[a].tag, id)
    ensures forall j :: j in m.jobs && m.jobs[j].tag.id == a && m.jobs[j].tag.index == TagAt(m.jobs[a].tag, id).index
              ==> j == id
  {
    var tag := m.jobs[a].tag;
    assert TagOk(a, tag, m.savedId);
    CountExact(tag.start, tag.end, tag.stride, id - a);
    assert InBlock(tag, id);
    forall j | j in m.jobs && m.jobs[j].tag.id == a && m.jobs[j].tag.index == TagAt(tag, id).index
      ensures j == id
    {
      assert TagOk(j, m.jobs[j].tag, m.savedId) && InBlock(m.jobs[j].tag, a);
      assert tag == TagAt(m.jobs[j].tag, a);
      OneIndex(tag.stride, j - a, id - a);
    }
  }

  lemma {:induction false} OneIndex(stride: int, i: int, k: int)
    requires stride > 0 && i * stride == k * stride
    ensures i == k
  {
    assert (i - k) * stride == 0;
  }

  // -------------------------------------------------------------------
  // Signals
  // -------------------------------------------------------------------

  /** Every job is in a configured queue. */
  ghost predicate Queued(m: Tables) {
    forall j :: j in m.jobs ==> m.jobs[j].queue in m.queues
  }

  predicate Ended(job: Job) { job.state == Done || job.state == Exited }

  predicate Reaches(m: Tables, j: JobId, uid: nat, manager: bool) {
    j in m.jobs && !Ended(m.jobs[j]) && (m.jobs[j].uid == uid || manager)
  }

  /** Signalling one job decides nothing about another. */
  lemma {:induction false} SignalLocal(m: Tables, j: JobId, sig: Signal, reachable: bool, now: int, k: JobId)
    requires j in m.jobs && m.jobs[j].queue in m.queues && k != j
    ensures var t := SignalOne(m, j, sig, reachable, now);
            && (k in t.jobs <==> k in m.jobs)
            && (k in m.jobs ==> t.jobs[k].state == m.jobs[k].state && t.jobs[k].uid == m.jobs[k].uid
                                && t.jobs[k].queue == m.jobs[k].queue)
            && t.queues.Keys == m.queues.Keys
  {
    hide Kill, SetHeld;
    HoldLeaves(m, j, true, sig.n, now);
    HoldLeaves(m, j, false, sig.n, now);
    KillLeaves(m, j, sig.n, now);
  }

  /** Jobs from `from` on are as they were. */
  ghost predicate Ahead(m: Tables, t: Tables, from: int) {
    && t.queues.Keys == m.queues.Keys
    && forall k :: k >= from ==>
         && (k in t.jobs <==> k in m.jobs)
         && (k in m.jobs ==> t.jobs[k].state == m.jobs[k].state && t.jobs[k].uid == m.jobs[k].uid
                             && t.jobs[k].queue == m.jobs[k].queue)
  }

  lemma {:induction false} SignalAhead(m: Tables, t: Tables, j: JobId, sig: Signal, reachable: bool, now: int)
    requires Ahead(m, t, j) && j in t.jobs && t.jobs[j].queue in t.queues
    ensures Ahead(m, SignalOne(t, j, sig, reachable, now), j + 1)
  {
    forall k: JobId | k >= j + 1
      ensures var u := SignalOne(t, j, sig, reachable, now);
              && (k in u.jobs <==> k in m.jobs)
              && (k in m.jobs ==> u.jobs[k].state == m.jobs[k].state && u.jobs[k].uid == m.jobs[k].uid
                                  && u.jobs[k].queue == m.jobs[k].queue)
              && u.queues.Keys == m.queues.Keys
    {
      SignalLocal(t, j, sig, reachable, now, k);
    }
    SignalLocal(t, j, sig, reachable, now, j + 1);
  }

  function SignalEach(m: Tables, js: seq<JobId>, sig: Signal, reachable: JobId -> bool, now: int): Tables {
    if js == [] then m
    else
      var n := |js| - 1;
      var t := SignalEach(m, js[..n], sig, reachable, now);
      if js[n] in t.jobs && t.jobs[js[n]].queue in t.queues then SignalOne(t, js[n], sig, reachable(js[n]), now) else t
  }

  lemma {:induction false} SignalMore(m: Tables, js: seq<JobId>, j: JobId, sig: Signal, reachable: JobId -> bool, now: int)
    requires var t := SignalEach(m, js, sig, reachable, now); j in t.jobs && t.jobs[j].queue in t.queues
    ensures SignalEach(m, js + [j], sig, reachable, now)
            == SignalOne(SignalEach(m, js, sig, reachable, now), j, sig, reachable(j), now)
  {
    assert (js + [j])[..|js|] == js;
  }

  /** From a consistent state, the jobs of sent were signalled, nothing else
      happened, and it happened by steps of the daemon. */
  ghost predicate ByItsSteps(m: Tables, t: Tables, sent: seq<JobId>, sig: Signal, reachable: JobId -> bool, now: int) {
    Consistent(m) && now > 0 ==>
      && Effects(m, t, sent, sig, reachable, now)
      && exists steps :: CanTake(m, steps, now) && After(m, steps, now) == t
  }

  lemma {:induction false} OneStepMore(m: Tables, was: Tables, sent: seq<JobId>, x: JobId, sig: Signal, reachable: JobId -> bool, now: int)
    requires ByItsSteps(m, was, sent, sig, reachable, now) && x in m.jobs && x !in sent
    requires x in was.jobs && was.jobs[x].queue in was.queues
    ensures ByItsSteps(m, SignalOne(was, x, sig, reachable(x), now), sent + [x], sig, reachable, now)
  {
    hide SignalOne, Next, Enabled, StepFor, Effects;
    if Consistent(m) && now > 0 {
      var steps :| CanTake(m, steps, now) && After(m, steps, now) == was;
      EffectsMore(m, was, sent, x, sig, reachable, now);
      EffectsConsistent(m, was, sent, sig, reachable, now);
      SignalIsStep(was, x, sig, reachable(x), now);
      var step := StepFor(was.jobs[x], x, sig, reachable(x));
      if step.Some? { OneMore(m, steps, step.value, now); }
    }
  }

  lemma {:induction false} EffectsConsistent(m: Tables, t: Tables, sent: seq<JobId>, sig: Signal, reachable: JobId -> bool, now: int)
    requires Effects(m, t, sent, sig, reachable, now)
    ensures Consistent(t)
  {
  }

  lemma {:induction false} NoStepYet(m: Tables, sig: Signal, reachable: JobId -> bool, now: int)
    ensures ByItsSteps(m, m, [], sig, reachable, now)
  {
    if Consistent(m) {
      NoEffects(m, sig, reachable, now);
      assert CanTake(m, [], now) && After(m, [], now) == m;
    }
  }

  /** One turn of the loop. */
  method SignalElement(m: Tables, was: Tables, sent: seq<JobId>, id: JobId, uid: nat, manager: bool, sig: Signal,
                       reachable: JobId -> bool, now: int)
    returns (t: Tables, more: seq<JobId>)
    requires Queued(m) && Ahead(m, was, id) && was == SignalEach(m, sent, sig, reachable, now)
    requires ByItsSteps(m, was, sent, sig, reachable, now) && id !in sent
    ensures Ahead(m, t, id + 1) && t == SignalEach(m, more, sig, reachable, now)
    ensures more == if Reaches(m, id, uid, manager) then sent + [id] else sent
    ensures ByItsSteps(m, t, more, sig, reachable, now)
  {
    t, more := was, sent;
    if id in t.jobs && !Ended(t.jobs[id]) && (t.jobs[id].uid == uid || manager) {
      SignalAhead(m, t, id, sig, reachable(id), now);
      SignalMore(m, sent, id, sig, reachable, now);
      OneStepMore(m, t, sent, id, sig, reachable, now);
      t := SignalOne(t, id, sig, reachable(id), now);
      more := sent + [id];
    }
  }

  /** The loop variables of the walk: index `at` belongs to id. */
  predicate Walked(tag: ArrayTag, id: int, at: int) {
    && id >= tag.id && at == tag.start + (id - tag.id) * tag.stride
    && (id == tag.id || at - tag.stride <= tag.end)
  }

  lemma {:induction false} WalkOn(tag: ArrayTag, id: int, at: int)
    requires tag.stride > 0 && tag.end >= tag.start && IndexFits(tag.start, tag.end, tag.stride)
    requires Walked(tag, id, at) && at <= tag.end
    ensures Wrap(at + tag.stride) == at + tag.stride && Walked(tag, id + 1, at + tag.stride)
  {
    assert (id + 1 - tag.id) * tag.stride == (id - tag.id) * tag.stride + tag.stride;
    NextIndex(tag.start, tag.end, tag.stride, id - tag.id);
  }

  predicate Increasing(s: seq<JobId>) {
    forall i, k :: 0 <= i < k < |s| ==> s[i] < s[k]
  }

  /** s is who is due among a..id. */
  ghost predicate Due(m: Tables, a: JobId, id: int, uid: nat, manager: bool, s: seq<JobId>) {
    Increasing(s) && forall j :: j in s <==> a <= j < id && Reaches(m, j, uid, manager)
  }

  lemma {:induction false} DueNext(m: Tables, a: JobId, id: JobId, uid: nat, manager: bool, s: seq<JobId>)
    requires Due(m, a, id, uid, manager, s) && id >= a
    ensures Due(m, a, id + 1, uid, manager, if Reaches(m, id, uid, manager) then s + [id] else s)
  {
    assert forall i :: 0 <= i < |s| ==> s[i] in s;
  }

  lemma {:induction false} StartsAhead(m: Tables, id: int, sig: Signal, reachable: JobId -> bool, now: int)
    ensures Ahead(m, m, id) && SignalEach(m, [], sig, reachable, now) == m
  {
  }

  method SignalWalk(m: Tables, tag: ArrayTag, uid: nat, manager: bool, sig: Signal, reachable: JobId -> bool, now: int)
    returns (t: Tables, sent: seq<JobId>, ghost id: JobId, ghost at: int)
    requires Queued(m) && tag.stride > 0 && tag.end >= tag.start && IndexFits(tag.start, tag.end, tag.stride)
    ensures Walked(tag, id, at) && at > tag.end && Due(m, tag.id, id, uid, manager, sent)
    ensures t == SignalEach(m, sent, sig, reachable, now) && ByItsSteps(m, t, sent, sig, reachable, now)
  {
    t, sent := m, [];
    var job: JobId, index := tag.id, tag.start;
    NoStepYet(m, sig, reachable, now);
    hide ByItsSteps, SignalEach, Ahead;
    assert Ahead(m, t, job) && t == SignalEach(m, sent, sig, reachable, now) by { StartsAhead(m, job, sig, reachable, now); }
    while index <= tag.end
      invariant Walked(tag, job, index) && Due(m, tag.id, job, uid, manager, sent)
      invariant Ahead(m, t, job) && t == SignalEach(m, sent, sig, reachable, now)
      invariant ByItsSteps(m, t, sent, sig, reachable, now)
      decreases tag.end - index
    {
      DueNext(m, tag.id, job, uid, manager, sent);
      WalkOn(tag, job, index);
      t, sent := SignalElement(m, t, sent, job, uid, manager, sig, reachable, now);
      job, index := job + 1, Wrap(index + tag.stride);
    }
    id, at := job, index;
  }

  /** signal_array.  sent is who was signalled, in order: every unfinished
      element the caller may signal, once, whatever the signals before it did. */
  method SignalArray(m: Tables, a: JobId, uid: nat, manager: bool, sig: Signal, reachable: JobId -> bool, now: int)
    returns (t: Tables, sent: seq<JobId>)
    requires ArrayInv(m) && Queued(m) && 0 !in m.jobs && a in m.jobs && m.jobs[a].tag.id == a
    ensures Increasing(sent)
    ensures forall j :: j in sent <==> Reaches(m, j, uid, manager) && m.jobs[j].tag.id == a
    ensures t == SignalEach(m, sent, sig, reachable, now) && ByItsSteps(m, t, sent, sig, reachable, now)
  {
    BlockMember(m, a, a);
    hide ByItsSteps;
    ghost var id, at;
    t, sent, id, at := SignalWalk(m, m.jobs[a].tag, uid, manager, sig, reachable, now);
    AllSent(m, a, id, at, uid, manager, sent);
  }

  /** The walk ends at the end of the block. */
  lemma {:induction false} WalkEnds(tag: ArrayTag, id: int, at: int)
    requires tag.stride > 0 && tag.end >= tag.start && Walked(tag, id, at) && at > tag.end
    ensures id == tag.id + Count(tag.start, tag.end, tag.stride)
  {
    CountExact(tag.start, tag.end, tag.stride, id - tag.id);
    if id > tag.id {
      assert (id - 1 - tag.id) * tag.stride == (id - tag.id) * tag.stride - tag.stride;
      CountExact(tag.start, tag.end, tag.stride, id - 1 - tag.id);
    }
  }

  /** The block's ids are the array's elements. */
  lemma {:induction false} BlockMember(m: Tables, a: JobId, j: JobId)
    requires ArrayInv(m) && a in m.jobs && m.jobs[a].tag.id == a && a != 0 && j in m.jobs
    ensures var tag := m.jobs[a].tag;
            && tag.stride > 0 && tag.end >= tag.start && IndexFits(tag.start, tag.end, tag.stride)
            && (InBlock(tag, j) <==> m.jobs[j].tag.id == a)
  {
    assert TagOk(a, m.jobs[a].tag, m.savedId) && TagOk(j, m.jobs[j].tag, m.savedId);
    if m.jobs[j].tag.id == a {
      assert InBlock(m.jobs[j].tag, a);
      assert m.jobs[a].tag == TagAt(m.jobs[j].tag, a);
    }
  }

  lemma {:induction false} AllSent(m: Tables, a: JobId, id: int, at: int, uid: nat, manager: bool, sent: seq<JobId>)
    requires ArrayInv(m) && a in m.jobs && m.jobs[a].tag.id == a && a != 0
    requires Walked(m.jobs[a].tag, id, at) && at > m.jobs[a].tag.end && Due(m, a, id, uid, manager, sent)
    ensures forall j :: j in sent <==> Reaches(m, j, uid, manager) && m.jobs[j].tag.id == a
  {
    BlockMember(m, a, a);
    WalkEnds(m.jobs[a].tag, id, at);
    forall j | j in m.jobs
      ensures a <= j < id <==> m.jobs[j].tag.id == a
    {
      BlockMember(m, a, j);
    }
  }
}
