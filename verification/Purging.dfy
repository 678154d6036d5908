/**
 Which jobs compaction removes, in terms of who still needs them.
 */
module Purging {
  import opened Mbd
  import opened JobLists
  import opened Accounting
  import opened AccountingSteps
  import opened AccountingRestart
  import opened MbdSafety
  import opened Refcount
  import opened Arrays

  predicate Names(job: Job, t: JobId) {
    exists i :: 0 <= i < |job.deps| && job.deps[i].Call? && job.deps[i].job == t
  }

  /** A pending or held job waits for t. */
  ghost predicate Awaited(m: Tables, t: JobId) {
    exists k :: k in m.jobs && m.jobs[k].list == OnPend && Names(m.jobs[k], t)
  }

  /** An element of the array that t heads has not ended. */
  ghost predicate Unfinished(m: Tables, t: JobId) {
    t != 0 && t in m.jobs && m.jobs[t].tag.id == t && exists k :: k in m.jobs && m.jobs[k].tag.id == t && m.jobs[k].list != OnFinish
  }

  /** References are counted one by one: of one instruction, a call of t is
      one, and of two parts as many as in both. */
  lemma {:induction false} RefsAreCalls(a: seq<D.Instr>, b: seq<D.Instr>, i: D.Instr, t: JobId)
    ensures Refs(a + b, t) == Refs(a, t) + Refs(b, t)
    ensures Refs([], t) == 0 && Refs([i], t) == if i.Call? && i.job == t then 1 else 0
  {
    if a == [] {
      assert a + b == b;
    } else {
      assert (a + b)[0] == a[0] && (a + b)[1..] == a[1..] + b;
      RefsAreCalls(a[1..], b, i, t);
    }
    assert [i][1..] == [];
  }

  lemma {:induction false} NamesIsRefs(job: Job, t: JobId)
    ensures Names(job, t) <==> Refs(job.deps, t) > 0
  {
    NamedRefs(job.deps, t);
  }

  lemma {:induction false} NamedRefs(deps: seq<D.Instr>, t: JobId)
    ensures (exists i :: 0 <= i < |deps| && deps[i].Call? && deps[i].job == t) <==> Refs(deps, t) > 0
  {
    if deps != [] {
      NamedRefs(deps[1..], t);
      assert forall i :: 0 < i < |deps| ==> deps[i] == deps[1..][i - 1];
      if Refs(deps[1..], t) > 0 {
        var i :| 0 <= i < |deps[1..]| && deps[1..][i].Call? && deps[1..][i].job == t;
        assert deps[i + 1].Call? && deps[i + 1].job == t;
      }
    }
  }

  lemma {:induction false} SomeoneWeighs(x: Measure, jobs: map<JobId, Job>, n: nat) returns (j: JobId)
    requires Total(x, jobs, n) > 0
    ensures j in jobs && Weight(x, LoadOf(jobs[j])) > 0
  {
    if n in jobs && Weight(x, LoadOf(jobs[n])) > 0 {
      j := n;
    } else {
      j := SomeoneWeighs(x, jobs, n - 1);
    }
  }

  lemma {:induction false} AwaitedIsCounted(m: Tables, t: JobId)
    requires RefsOk(m) && IdsOk(m) && t in m.jobs
    ensures m.jobs[t].depRefcnt > 0 <==> Awaited(m, t)
  {
    var x := RefsTo(t);
    assert m.jobs[t].depRefcnt == Total(x, m.jobs, m.lastId);
    if m.jobs[t].depRefcnt > 0 {
      var k := SomeoneWeighs(x, m.jobs, m.lastId);
      NamesIsRefs(m.jobs[k], t);
    }
    if k :| k in m.jobs && m.jobs[k].list == OnPend && Names(m.jobs[k], t) {
      NamesIsRefs(m.jobs[k], t);
      AtLeastOne(x, m.jobs, m.lastId, k);
    }
  }

  lemma {:induction false} UnfinishedIsCounted(m: Tables, t: JobId)
    requires ArrayInv(m) && IdsOk(m) && t in m.jobs && t != 0 && m.jobs[t].tag.id == t
    ensures m.jobs[t].elementCnt > 0 <==> Unfinished(m, t)
  {
    var x := ElementsOf(t);
    assert CountOk(m.jobs, m.lastId, t);
    if m.jobs[t].elementCnt > 0 {
      var k := SomeoneWeighs(x, m.jobs, m.lastId);
      assert k in m.jobs && m.jobs[k].tag.id == t && m.jobs[k].list != OnFinish;
    }
    if k :| k in m.jobs && m.jobs[k].tag.id == t && m.jobs[k].list != OnFinish {
      AtLeastOne(x, m.jobs, m.lastId, k);
    }
  }

  /** Compaction removes exactly the ended jobs nobody waits for, heads of
      unfinished arrays excepted, and leaves all others as they are. */
  lemma {:induction false} PurgedExactly(m: Tables, j: JobId)
    requires RefsOk(m) && ArrayInv(m) && IdsOk(m) && j in m.jobs
    ensures j !in Compact(m).jobs <==> m.jobs[j].list == OnFinish && !Awaited(m, j) && !Unfinished(m, j)
    ensures j in Compact(m).jobs ==> Compact(m).jobs[j] == m.jobs[j]
  {
    AwaitedIsCounted(m, j);
    if j != 0 && m.jobs[j].tag.id == j { UnfinishedIsCounted(m, j); }
    hide RefsOk, ArrayInv, Awaited, RewriteAll, Keep;
  }

  /** In every run of one lifetime in which no waiting job loses its references. */
  lemma {:induction false} RunPurges(tr: seq<Tables>, steps: seq<Step>, clock: seq<int>, i: nat, j: JobId)
    requires IsRun(tr, steps, clock) && i < |steps| && steps[i].DoCompact? && j in tr[i].jobs
    requires forall k :: 0 <= k < |steps| ==> Careful(tr[k], steps[k]) && !steps[k].DoRestart?
    ensures j !in tr[i + 1].jobs <==> tr[i].jobs[j].list == OnFinish && !Awaited(tr[i], j) && !Unfinished(tr[i], j)
  {
    Ready(tr, steps, clock, i);
    hide IsRun, Careful, ArrayInv, RefsOk, IdsOk, Compact;
    PurgedExactly(tr[i], j);
  }

  lemma {:induction false} Ready(tr: seq<Tables>, steps: seq<Step>, clock: seq<int>, i: nat)
    requires IsRun(tr, steps, clock) && i < |steps| && steps[i].DoCompact?
    requires forall k :: 0 <= k < |steps| ==> Careful(tr[k], steps[k]) && !steps[k].DoRestart?
    ensures RefsOk(tr[i]) && ArrayInv(tr[i]) && IdsOk(tr[i]) && tr[i + 1] == Compact(tr[i])
  {
    hide Careful, ArrayInv, IdsOk, Compact, MbdInv, DepsUpTo, RefsOk;
    RunRefs(tr, steps, clock, i);
    RunKeepsArrays(tr, steps, clock, i);
  }
}
