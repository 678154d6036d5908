/**
 Job arrays within one daemon lifetime: consecutive ids, a head that counts
 the unfinished elements and stays until there are none, lookup by index and
 signalling of a whole array.
 */
module Arrays {
  import opened Int32
  import opened Mbd
  import opened JobLists
  import opened Manifest
  import opened Accounting
  import opened AccountingSteps
  import opened AccountingRestart
  import opened MbdSafety
  import opened Refcount

  // -------------------------------------------------------------------
  // Where the elements are
  // -------------------------------------------------------------------

  function Count(start: int, end: int, stride: int): (n: nat)
    requires stride > 0 && end >= start
    ensures n >= 1
  {
    (end - start) / stride + 1
  }

  /** The k-th index is in range exactly for k below the count. */
  lemma {:induction false} CountExact(start: int, end: int, stride: int, k: int)
    requires stride > 0 && end >= start && k >= 0
    ensures start + k * stride <= end <==> k < Count(start, end, stride)
  {
    var q, r := (end - start) / stride, (end - start) % stride;
    assert end - start == q * stride + r;
    if k <= q {
      assert k * stride <= q * stride;
    } else {
      assert k * stride >= (q + 1) * stride == q * stride + stride;
    }
  }

  /** The walk over an array in 32 bits stops after its last element exactly if
      the index behind it still fits; otherwise it goes round and on. */
  lemma {:induction false} WalkExact(start: int, end: int, stride: int)
    requires INT_MIN <= start <= end <= INT_MAX && 0 < stride <= INT_MAX
    ensures forall k :: 0 <= k < Count(start, end, stride) ==> Wrap(start + k * stride) == start + k * stride <= end
    ensures var next := start + Count(start, end, stride) * stride; Wrap(next) > end <==> next <= INT_MAX
  {
    var n := Count(start, end, stride);
    forall k | 0 <= k < n
      ensures Wrap(start + k * stride) == start + k * stride <= end
    {
      WithinInt(start, end, stride, k);
    }
    hide Wrap;
    CountExact(start, end, stride, n);
    CountExact(start, end, stride, n - 1);
    assert n * stride == (n - 1) * stride + stride;
    PastTheEnd(start + n * stride, end, stride);
  }

  lemma {:induction false} PastTheEnd(next: int, end: int, stride: int)
    requires INT_MIN <= end <= INT_MAX && 0 < stride <= INT_MAX && end < next <= end + stride
    ensures Wrap(next) > end <==> next <= INT_MAX
  {
  }

  lemma {:induction false} WithinInt(start: int, end: int, stride: int, k: int)
    requires INT_MIN <= start <= end <= INT_MAX && 0 < stride && 0 <= k < Count(start, end, stride)
    ensures Wrap(start + k * stride) == start + k * stride <= end
  {
    CountExact(start, end, stride, k);
    assert k * stride >= 0;
  }

  /** The index behind the last one is an int32, too. */
  predicate IndexFits(start: int, end: int, stride: int)
    requires stride > 0 && end >= start
  {
    INT_MIN <= start && start + Count(start, end, stride) * stride <= INT_MAX
  }

  lemma {:induction false} NextIndex(start: int, end: int, stride: int, k: int)
    requires stride > 0 && end >= start && IndexFits(start, end, stride) && 0 <= k && start + k * stride <= end
    ensures Wrap(start + k * stride + stride) == start + (k + 1) * stride
  {
    var n := Count(start, end, stride);
    CountExact(start, end, stride, k);
    assert (k + 1) * stride == k * stride + stride;
    assert 0 <= k * stride <= (n - 1) * stride == n * stride - stride;
  }

  predicate InBlock(tag: ArrayTag, j: int)
    requires tag.stride > 0 && tag.end >= tag.start
  {
    tag.id <= j < tag.id + Count(tag.start, tag.end, tag.stride)
  }

  function TagAt(tag: ArrayTag, j: int): ArrayTag {
    tag.(index := tag.start + (j - tag.id) * tag.stride)
  }

  /** j's place in its array; the block of ids was drawn up to n. */
  predicate TagOk(j: JobId, tag: ArrayTag, n: nat) {
    tag.id != 0 ==>
      && tag.stride > 0 && tag.end >= tag.start && InBlock(tag, j) && tag == TagAt(tag, j)
      && tag.id + Count(tag.start, tag.end, tag.stride) <= n + 1
      && IndexFits(tag.start, tag.end, tag.stride)
  }

  ghost predicate TagsOk(jobs: map<JobId, Job>, n: nat) {
    forall j :: j in jobs ==> TagOk(j, jobs[j].tag, n)
  }

  /** Every job in the block of an array is the element its id says. */
  ghost predicate BlocksOk(jobs: map<JobId, Job>, n: nat)
    requires TagsOk(jobs, n)
  {
    forall i, j :: i in jobs && j in jobs && jobs[i].tag.id != 0 && InBlock(jobs[i].tag, j) ==>
      jobs[j].tag == TagAt(jobs[i].tag, j)
  }

  ghost predicate HeadsPresent(jobs: map<JobId, Job>) {
    forall j :: j in jobs && jobs[j].tag.id != 0 && jobs[j].list != OnFinish ==> jobs[j].tag.id in jobs
  }

  ghost predicate CountOk(jobs: map<JobId, Job>, n: nat, h: JobId)
    requires h in jobs
  {
    jobs[h].tag.id == h && h != 0 ==> jobs[h].elementCnt == Total(ElementsOf(h), jobs, n)
  }

  ghost predicate CountsOk(jobs: map<JobId, Job>, n: nat) {
    forall h :: h in jobs ==> CountOk(jobs, n, h)
  }

  ghost predicate PlacesOk(jobs: map<JobId, Job>, n: nat) {
    TagsOk(jobs, n) && BlocksOk(jobs, n)
  }

  ghost predicate ArrayInv(m: Tables) {
    PlacesOk(m.jobs, m.savedId) && HeadsPresent(m.jobs) && CountsOk(m.jobs, m.lastId)
  }

  // -------------------------------------------------------------------
  // Steps that touch one job
  // -------------------------------------------------------------------

  function Unfinished(job: Job, h: JobId): int {
    if job.list != OnFinish && job.tag.id == h then 1 else 0
  }

  lemma {:induction false} MovedElements(m: Tables, t: Tables, j: JobId)
    requires CountsOk(m.jobs, m.lastId) && Moved(m, t, j) && t.jobs[j].tag == m.jobs[j].tag
    requires forall h :: h in m.jobs ==>
               t.jobs[h].elementCnt - m.jobs[h].elementCnt == Unfinished(t.jobs[j], h) - Unfinished(m.jobs[j], h)
    ensures CountsOk(t.jobs, t.lastId)
  {
    forall h | h in t.jobs
      ensures CountOk(t.jobs, t.lastId, h)
    {
      TotalReplaced(ElementsOf(h), m.jobs, t.jobs, j, m.lastId);
      assert CountOk(m.jobs, m.lastId, h);
      assert t.jobs[h].tag == m.jobs[h].tag;
    }
  }

  ghost predicate SameTags(a: map<JobId, Job>, b: map<JobId, Job>) {
    a.Keys == b.Keys && forall j :: j in a ==> a[j].tag == b[j].tag
  }

  lemma {:induction false} SamePlaces(a: map<JobId, Job>, b: map<JobId, Job>, n: nat)
    requires PlacesOk(a, n) && SameTags(a, b)
    ensures PlacesOk(b, n)
  {
  }

  lemma {:induction false} SameHeads(a: map<JobId, Job>, b: map<JobId, Job>)
    requires HeadsPresent(a) && SameTags(a, b) && forall j :: j in a && b[j].list != OnFinish ==> a[j].list != OnFinish
    ensures HeadsPresent(b)
  {
  }

  /** Tags never change, a finished job stays finished, and only finish and
      kill finish one. */
  lemma {:induction false} StepJob(m: Tables, step: Step, now: int, k: JobId)
    requires Enabled(m, step, now) && !OfTable(step) && k in m.jobs
    ensures var t := Next(m, step, now);
            && k in t.jobs && t.jobs[k].tag == m.jobs[k].tag
            && (t.jobs[k].list != OnFinish ==> m.jobs[k].list != OnFinish)
            && (!step.DoFinish? && !step.DoKill? ==>
                  && t.jobs[k].elementCnt == m.jobs[k].elementCnt
                  && (t.jobs[k].list == OnFinish <==> m.jobs[k].list == OnFinish))
  {
    hide ChargeAll, ReleaseAll, MoveTokens, Without, Refs, LoggedWords;
  }

  lemma {:induction false} StepTags(m: Tables, step: Step, now: int)
    requires Enabled(m, step, now) && !OfTable(step)
    ensures var t := Next(m, step, now);
            && SameTags(m.jobs, t.jobs) && t.lastId == m.lastId && t.savedId == m.savedId
            && forall j :: j in m.jobs && t.jobs[j].list != OnFinish ==> m.jobs[j].list != OnFinish
  {
    SameIds(m, step, now);
    forall k | k in m.jobs
      ensures Next(m, step, now).jobs[k].tag == m.jobs[k].tag
              && (Next(m, step, now).jobs[k].list != OnFinish ==> m.jobs[k].list != OnFinish)
    {
      StepJob(m, step, now, k);
    }
  }

  lemma {:induction false} FinishElements(m: Tables, j: JobId, success: bool, exit: int, now: int)
    requires CountsOk(m.jobs, m.lastId) && IdsOk(m) && OnList(m, j, OnRun)
    ensures CountsOk(Finish(m, j, success, exit, now).jobs, m.lastId)
  {
    MovedElements(m, Finish(m, j, success, exit, now), j);
  }

  lemma {:induction false} KillElement(m: Tables, j: JobId, sig: Sig, now: int, h: JobId)
    requires OnList(m, j, OnPend) && h in m.jobs && j != 0 && 0 !in m.jobs
    ensures var t := Kill(m, j, sig, now);
            && h in t.jobs && j in t.jobs && t.jobs[j].tag == m.jobs[j].tag && t.jobs[j].list == OnFinish
            && t.jobs[h].elementCnt == m.jobs[h].elementCnt - Unfinished(m.jobs[j], h)
  {
  }

  lemma {:induction false} KillElements(m: Tables, j: JobId, sig: Sig, now: int)
    requires CountsOk(m.jobs, m.lastId) && IdsOk(m) && OnList(m, j, OnPend)
    ensures CountsOk(Kill(m, j, sig, now).jobs, m.lastId)
  {
    KillMoved(m, j, sig, now);
    forall h | h in m.jobs
      ensures Kill(m, j, sig, now).jobs[j].tag == m.jobs[j].tag
              && Kill(m, j, sig, now).jobs[h].elementCnt == m.jobs[h].elementCnt - Unfinished(m.jobs[j], h)
    {
      KillElement(m, j, sig, now, h);
    }
    MovedElements(m, Kill(m, j, sig, now), j);
  }

  lemma {:induction false} QuietStep(m: Tables, step: Step, now: int)
    requires CountsOk(m.jobs, m.lastId) && Enabled(m, step, now) && !OfTable(step) && !step.DoFinish? && !step.DoKill?
    ensures CountsOk(Next(m, step, now).jobs, m.lastId)
  {
    var t := Next(m, step, now);
    SameIds(m, step, now);
    forall k | k in m.jobs
      ensures && t.jobs[k].tag == m.jobs[k].tag && t.jobs[k].elementCnt == m.jobs[k].elementCnt
              && (t.jobs[k].list == OnFinish <==> m.jobs[k].list == OnFinish)
    {
      StepJob(m, step, now, k);
    }
    SameElements(m, t);
  }

  lemma {:induction false} SameElements(m: Tables, t: Tables)
    requires CountsOk(m.jobs, m.lastId) && t.jobs.Keys == m.jobs.Keys && t.lastId == m.lastId
    requires forall j :: j in m.jobs ==>
               && t.jobs[j].tag == m.jobs[j].tag && t.jobs[j].elementCnt == m.jobs[j].elementCnt
               && (t.jobs[j].list == OnFinish <==> m.jobs[j].list == OnFinish)
    ensures CountsOk(t.jobs, t.lastId)
  {
    forall h | h in t.jobs
      ensures CountOk(t.jobs, t.lastId, h)
    {
      assert CountOk(m.jobs, m.lastId, h);
      TotalSameWeight(ElementsOf(h), m.jobs, t.jobs, m.lastId);
    }
  }

  lemma {:induction false} OneJobStepCounts(m: Tables, step: Step, now: int)
    requires CountsOk(m.jobs, m.lastId) && IdsOk(m) && Enabled(m, step, now) && !OfTable(step)
    ensures CountsOk(Next(m, step, now).jobs, m.lastId)
  {
    match step
    case DoFinish(j, success, exit) => FinishElements(m, j, success, exit, now);
    case DoKill(j, sig) => KillElements(m, j, sig, now);
    case _ => QuietStep(m, step, now);
  }

  lemma {:induction false} OneJobStepArrays(m: Tables, step: Step, now: int)
    requires ArrayInv(m) && IdsOk(m) && Enabled(m, step, now) && !OfTable(step)
    ensures ArrayInv(Next(m, step, now))
  {
    StepTags(m, step, now);
    SamePlaces(m.jobs, Next(m, step, now).jobs, m.savedId);
    SameHeads(m.jobs, Next(m, step, now).jobs);
    OneJobStepCounts(m, step, now);
  }

  // -------------------------------------------------------------------
  // Compaction
  // -------------------------------------------------------------------

  /** While an element is unfinished the head counts it, so it is kept. */
  lemma {:induction false} HeadKept(m: Tables, j: JobId)
    requires ArrayInv(m) && IdsOk(m) && j in m.jobs && m.jobs[j].tag.id != 0 && m.jobs[j].list != OnFinish
    ensures m.jobs[j].tag.id in Compact(m).jobs
  {
    var h := m.jobs[j].tag.id;
    assert TagOk(j, m.jobs[j].tag, m.savedId);
    CountExact(m.jobs[j].tag.start, m.jobs[j].tag.end, m.jobs[j].tag.stride, 0);
    assert InBlock(m.jobs[j].tag, h);
    assert m.jobs[h].tag == TagAt(m.jobs[j].tag, h);
    assert CountOk(m.jobs, m.lastId, h);
    AtLeastOne(ElementsOf(h), m.jobs, m.lastId, j);
  }

  lemma {:induction false} CompactArrays(m: Tables)
    requires ArrayInv(m) && IdsOk(m)
    ensures ArrayInv(Compact(m))
  {
    var t := Compact(m);
    forall j | j in t.jobs && t.jobs[j].tag.id != 0 && t.jobs[j].list != OnFinish
      ensures t.jobs[j].tag.id in t.jobs
    {
      HeadKept(m, j);
    }
    CompactCounts(m);
  }

  lemma {:induction false} CompactCounts(m: Tables)
    requires CountsOk(m.jobs, m.lastId)
    ensures CountsOk(Compact(m).jobs, m.lastId)
  {
    var t := Compact(m);
    forall h | h in t.jobs
      ensures CountOk(t.jobs, t.lastId, h)
    {
      assert CountOk(m.jobs, m.lastId, h);
      TotalDropped(ElementsOf(h), m.jobs, t.jobs, m.lastId);
    }
  }

  // -------------------------------------------------------------------
  // Submission
  // -------------------------------------------------------------------

  predicate IsBlock(req: Request, ids: seq<JobId>) {
    && |ids| > 0 && ids[0] > 0 && (forall k :: 0 <= k < |ids| ==> ids[k] == ids[0] + k)
    && (req.isArray ==> && req.stride > 0 && req.end >= req.start && |ids| == Count(req.start, req.end, req.stride)
                        && IndexFits(req.start, req.end, req.stride))
  }

  /** Old jobs have old blocks; the rest is the new block as far as k. */
  ghost predicate Placed(jobs: map<JobId, Job>, req: Request, ids: seq<JobId>, k: nat)
    requires IsBlock(req, ids)
  {
    && PlacesOk(jobs, ids[0] + |ids| - 1) && k <= |ids|
    && (forall j :: j in jobs ==> j < ids[0] + k)
    && (forall j :: j in jobs && j < ids[0] ==> TagOk(j, jobs[j].tag, ids[0] - 1))
    && (forall j :: j in jobs && j >= ids[0] ==> jobs[j].tag == TagOf(req, ids[0], j - ids[0]))
    && HeadsPresent(jobs) && (k > 0 ==> ids[0] in jobs)
  }

  lemma {:induction false} NewTagOk(req: Request, ids: seq<JobId>, k: nat)
    requires IsBlock(req, ids) && k < |ids|
    ensures TagOk(ids[k], TagOf(req, ids[0], k), ids[0] + |ids| - 1)
  {
    hide IndexFits;
    if req.isArray { CountExact(req.start, req.end, req.stride, k); }
  }

  lemma {:induction false} AddedBlocks(jobs: map<JobId, Job>, req: Request, ids: seq<JobId>, k: nat, job: Job)
    requires IsBlock(req, ids) && k < |ids| && Placed(jobs, req, ids, k) && job.tag == TagOf(req, ids[0], k)
    ensures PlacesOk(jobs[ids[k] := job], ids[0] + |ids| - 1)
  {
    NewTagOk(req, ids, k);
    var t := jobs[ids[k] := job];
    forall i, j | i in t && j in t && t[i].tag.id != 0 && InBlock(t[i].tag, j)
      ensures t[j].tag == TagAt(t[i].tag, j)
    {
      if i < ids[0] {
        assert j < ids[0];
        assert i in jobs && j in jobs;
      } else {
        assert t[i].tag == TagOf(req, ids[0], i - ids[0]);
        assert t[j].tag == TagOf(req, ids[0], j - ids[0]);
      }
    }
  }

  lemma {:induction false} AddedPlaced(jobs: map<JobId, Job>, req: Request, ids: seq<JobId>, k: nat, job: Job)
    requires IsBlock(req, ids) && k < |ids| && Placed(jobs, req, ids, k) && job.tag == TagOf(req, ids[0], k)
    ensures Placed(jobs[ids[k] := job], req, ids, k + 1)
  {
    AddedBlocks(jobs, req, ids, k, job);
  }

  /** Heads but the new one are counted; the new one says how many there will be. */
  ghost predicate Counted(jobs: map<JobId, Job>, req: Request, ids: seq<JobId>, k: nat)
    requires IsBlock(req, ids)
  {
    var last := ids[0] + |ids| - 1;
    && (forall h :: h in jobs && h != ids[0] ==> CountOk(jobs, last, h))
    && Total(ElementsOf(ids[0]), jobs, last) == (if req.isArray then k else 0)
    && (ids[0] in jobs && req.isArray ==> jobs[ids[0]].elementCnt == |ids|)
  }

  lemma {:induction false} AddedCounted(jobs: map<JobId, Job>, req: Request, ids: seq<JobId>, k: nat, job: Job)
    requires IsBlock(req, ids) && k < |ids| && Counted(jobs, req, ids, k) && ids[k] !in jobs
    requires job.tag == TagOf(req, ids[0], k) && job.list == OnPend
    requires k == 0 && req.isArray ==> job.elementCnt == |ids|
    ensures Counted(jobs[ids[k] := job], req, ids, k + 1)
  {
    var t := jobs[ids[k] := job];
    var last := ids[0] + |ids| - 1;
    forall h | h in t && h != ids[0]
      ensures CountOk(t, last, h)
    {
      TotalAdded(ElementsOf(h), jobs, ids[k], job, last);
      if h in jobs { assert CountOk(jobs, last, h); }
    }
    TotalAdded(ElementsOf(ids[0]), jobs, ids[k], job, last);
  }

  lemma {:induction false} SamePlaced(a: map<JobId, Job>, b: map<JobId, Job>, req: Request, ids: seq<JobId>, k: nat)
    requires IsBlock(req, ids) && Placed(a, req, ids, k) && SameTags(a, b) && forall j :: j in a ==> a[j].list == b[j].list
    ensures Placed(b, req, ids, k)
  {
  }

  lemma {:induction false} SameCounted(a: map<JobId, Job>, b: map<JobId, Job>, req: Request, ids: seq<JobId>, k: nat)
    requires IsBlock(req, ids) && Counted(a, req, ids, k)
    requires SameTags(a, b) && forall j :: j in a ==> a[j].list == b[j].list && a[j].elementCnt == b[j].elementCnt
    ensures Counted(b, req, ids, k)
  {
    var last := ids[0] + |ids| - 1;
    forall h: JobId
      ensures Total(ElementsOf(h), a, last) == Total(ElementsOf(h), b, last)
    {
      TotalSameWeight(ElementsOf(h), a, b, last);
    }
    forall h | h in b && h != ids[0]
      ensures CountOk(b, last, h)
    {
      assert CountOk(a, last, h);
    }
  }

  ghost predicate ArraysAfter(m: Tables, req: Request, ids: seq<JobId>, k: nat) {
    && IsBlock(req, ids) && Placed(m.jobs, req, ids, k) && Counted(m.jobs, req, ids, k)
    && req.queue in m.queues
  }

  lemma {:induction false} CommitTurnArrays(m: Tables, req: Request, ids: seq<JobId>, k: nat, now: int)
    requires ArraysAfter(m, req, ids, k) && k < |ids|
    ensures ArraysAfter(CommitNth(m, req, ids, k, now), req, ids, k + 1)
  {
    var job := Prepared(req, m.queues[req.queue].priority, ids[0], k, |ids|, now);
    var added := m.jobs[ids[k] := job];
    AddedPlaced(m.jobs, req, ids, k, job);
    AddedCounted(m.jobs, req, ids, k, job);
    AdjustSeen(added, job.deps, 1);
    SamePlaced(added, CommitNth(m, req, ids, k, now).jobs, req, ids, k + 1);
    SameCounted(added, CommitNth(m, req, ids, k, now).jobs, req, ids, k + 1);
  }

  lemma {:induction false} NoElements(h: JobId, jobs: map<JobId, Job>, n: nat)
    requires forall j :: j in jobs ==> jobs[j].tag.id != h
    ensures Total(ElementsOf(h), jobs, n) == 0
  {
    if n > 0 { NoElements(h, jobs, n - 1); }
  }

  lemma {:induction false} SubmitStartsArrays(m: Tables, req: Request, ids: seq<JobId>)
    requires ArrayInv(m) && IdsOk(m) && IsBlock(req, ids) && ids[0] == m.lastId + 1 && req.queue in m.queues
    ensures ArraysAfter(m, req, ids, 0)
  {
    var last := ids[0] + |ids| - 1;
    forall j | j in m.jobs
      ensures TagOk(j, m.jobs[j].tag, m.savedId) && m.jobs[j].tag.id != ids[0]
    {
    }
    NoElements(ids[0], m.jobs, last);
    forall h | h in m.jobs
      ensures CountOk(m.jobs, last, h)
    {
      assert CountOk(m.jobs, m.lastId, h);
      TotalExtended(ElementsOf(h), m.jobs, m.lastId, last);
    }
  }

  lemma {:induction false} SubmitEndsArrays(m: Tables, t: Tables, req: Request, ids: seq<JobId>)
    requires ArraysAfter(m, req, ids, |ids|) && t.jobs == m.jobs && t.lastId == t.savedId == ids[|ids| - 1]
    ensures ArrayInv(t)
  {
    var last := ids[0] + |ids| - 1;
    forall h | h in t.jobs
      ensures CountOk(t.jobs, last, h)
    {
      if h == ids[0] { assert t.jobs[h].tag == TagOf(req, ids[0], 0); }
    }
  }

  lemma {:induction false} SubmitArrays(m: Tables, req: Request, now: int)
    requires ArrayInv(m) && IdsOk(m) && GoodRequest(m, req)
    ensures ArrayInv(Submit(m, req, now))
  {
    var ids := DrawIds(m.jobs, m.lastId, Elements(req));
    IdsConsecutive(m.jobs, m.lastId, Elements(req));
    SubmitStartsArrays(m, req, ids);
    var P := (t: Tables, k: nat) => ArraysAfter(t, req, ids, k);
    forall t: Tables, k: nat | P(t, k) && k < |ids|
      ensures P(CommitNth(t, req, ids, k, now), k + 1)
    {
      CommitTurnArrays(t, req, ids, k, now);
    }
    CommitLoop(P, m, req, ids, |ids|, now);
    SubmitEndsArrays(CommitRest(m, req, ids, |ids|, now), Submit(m, req, now), req, ids);
  }

  // -------------------------------------------------------------------
  // Every run of one lifetime
  // -------------------------------------------------------------------

  lemma {:induction false} StepKeepsArrays(m: Tables, step: Step, now: int)
    requires ArrayInv(m) && IdsOk(m) && Enabled(m, step, now) && !step.DoRestart?
    ensures ArrayInv(Next(m, step, now))
  {
    if !OfTable(step) {
      OneJobStepArrays(m, step, now);
    } else {
      match step
      case DoSubmit(req) => SubmitArrays(m, req, now);
      case DoFailSubmit(drawn) => SkippedArrays(m, drawn);
      case DoMark(_) =>
      case DoCompact => CompactArrays(m);
    }
  }

  lemma {:induction false} SkippedArrays(m: Tables, drawn: nat)
    requires ArrayInv(m) && IdsOk(m)
    ensures ArrayInv(m.(lastId := m.lastId + drawn))
  {
    forall h | h in m.jobs
      ensures CountOk(m.jobs, m.lastId + drawn, h)
    {
      assert CountOk(m.jobs, m.lastId, h);
      TotalExtended(ElementsOf(h), m.jobs, m.lastId, m.lastId + drawn);
    }
  }

  lemma {:induction false} RunKeepsArrays(tr: seq<Tables>, steps: seq<Step>, clock: seq<int>, i: nat)
    requires IsRun(tr, steps, clock) && i < |tr|
    requires forall k :: 0 <= k < |steps| ==> !steps[k].DoRestart?
    ensures ArrayInv(tr[i]) && IdsOk(tr[i])
  {
    if i > 0 {
      RunKeepsArrays(tr, steps, clock, i - 1);
      StepKeepsArrays(tr[i - 1], steps[i - 1], clock[i - 1]);
      StepKeepsIds(tr[i - 1], steps[i - 1], clock[i - 1]);
    }
  }
}
