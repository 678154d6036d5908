/**
 The three job lists partition the job table, in every state of the daemon
 and of its replay.
 */
module JobLists {
  import opened Mbd

  ghost predicate NoDup(s: seq<JobId>) {
    forall i, k :: 0 <= i < k < |s| ==> s[i] != s[k]
  }

  /** s holds each job filed under l, once. */
  ghost predicate ListIs(s: seq<JobId>, jobs: map<JobId, Job>, l: JobList) {
    NoDup(s) && forall j :: j in s <==> j in jobs && jobs[j].list == l
  }

  ghost predicate Filed(jobs: map<JobId, Job>, pend: seq<JobId>, run: seq<JobId>, fin: seq<JobId>) {
    ListIs(pend, jobs, OnPend) && ListIs(run, jobs, OnRun) && ListIs(fin, jobs, OnFinish)
  }

  ghost predicate ListsOk(m: Tables) {
    Filed(m.jobs, m.pend, m.run, m.fin)
  }

  lemma {:induction false} WithoutExact(s: seq<JobId>, j: JobId)
    requires NoDup(s)
    ensures NoDup(Without(s, j))
    ensures forall k :: k in Without(s, j) <==> k in s && k != j
  {
    if s != [] {
      assert s == [s[0]] + s[1..];
      assert NoDup(s[1..]) && s[0] !in s[1..];
      if s[0] != j {
        WithoutExact(s[1..], j);
        NoDupCons(s[0], Without(s[1..], j));
      }
    }
  }

  lemma {:induction false} NoDupCons(j: JobId, s: seq<JobId>)
    requires NoDup(s) && j !in s
    ensures NoDup([j] + s)
  {
    var t := [j] + s;
    forall i, k | 0 <= i < k < |t|
      ensures t[i] != t[k]
    {
      assert t[k] == s[k - 1];
      if i > 0 { assert t[i] == s[i - 1]; }
    }
  }

  lemma {:induction false} SplitLast(s: seq<JobId>)
    requires NoDup(s) && s != []
    ensures var n := |s| - 1;
            && s == s[..n] + [s[n]] && NoDup(s[..n]) && s[n] in s && s[n] !in s[..n]
            && forall j :: j in s[..n] ==> j in s
  {
  }

  /** t files k as jobs does, for every k but j. */
  ghost predicate FiledAlike(jobs: map<JobId, Job>, t: map<JobId, Job>, j: JobId) {
    forall k :: k != j ==> (k in jobs <==> k in t) && (k in jobs ==> jobs[k].list == t[k].list)
  }

  lemma {:induction false} ListDrops(s: seq<JobId>, jobs: map<JobId, Job>, t: map<JobId, Job>, l: JobList, j: JobId)
    requires ListIs(s, jobs, l) && FiledAlike(jobs, t, j) && (j in t ==> t[j].list != l)
    ensures ListIs(Without(s, j), t, l)
  {
    WithoutExact(s, j);
  }

  lemma {:induction false} ListGains(s: seq<JobId>, jobs: map<JobId, Job>, t: map<JobId, Job>, l: JobList, j: JobId)
    requires ListIs(s, jobs, l) && FiledAlike(jobs, t, j) && j in t && t[j].list == l
    requires j in jobs ==> jobs[j].list != l
    ensures ListIs(s + [j], t, l)
  {
    assert forall k :: k in s + [j] <==> k in s || k == j;
  }

  lemma {:induction false} ListStays(s: seq<JobId>, jobs: map<JobId, Job>, t: map<JobId, Job>, l: JobList, j: JobId)
    requires ListIs(s, jobs, l) && FiledAlike(jobs, t, j)
    requires (j in jobs && jobs[j].list == l) <==> (j in t && t[j].list == l)
    ensures ListIs(s, t, l)
  {
  }

  ghost predicate SameLists(jobs: map<JobId, Job>, t: map<JobId, Job>) {
    jobs.Keys == t.Keys && forall j :: j in jobs ==> jobs[j].list == t[j].list
  }

  lemma {:induction false} SameListsFiled(jobs: map<JobId, Job>, t: map<JobId, Job>, pend: seq<JobId>, run: seq<JobId>, fin: seq<JobId>)
    requires Filed(jobs, pend, run, fin) && SameLists(jobs, t)
    ensures Filed(t, pend, run, fin)
  {
  }

  // -------------------------------------------------------------------
  // The handlers
  // -------------------------------------------------------------------

  lemma {:induction false} CommitKeepsLists(m: Tables, j: JobId, job: Job, nhosts: int)
    requires ListsOk(m) && j !in m.jobs && job.queue in m.queues && job.list == OnPend
    ensures ListsOk(Commit(m, j, job, nhosts))
  {
    var t := Commit(m, j, job, nhosts).jobs;
    ListGains(m.pend, m.jobs, t, OnPend, j);
    ListStays(m.run, m.jobs, t, OnRun, j);
    ListStays(m.fin, m.jobs, t, OnFinish, j);
  }

  lemma {:induction false} DispatchKeepsLists(m: Tables, j: JobId, plan: seq<HostId>, now: int)
    requires ListsOk(m) && OnList(m, j, OnPend)
    ensures ListsOk(Dispatch(m, j, plan, now))
  {
    var t := Dispatch(m, j, plan, now).jobs;
    ListDrops(m.pend, m.jobs, t, OnPend, j);
    ListGains(m.run, m.jobs, t, OnRun, j);
    ListStays(m.fin, m.jobs, t, OnFinish, j);
  }

  lemma {:induction false} BackKeepsLists(m: Tables, j: JobId, runHosts: seq<HostId>, now: int)
    requires ListsOk(m) && OnList(m, j, OnRun)
    ensures ListsOk(BackToPend(m, j, runHosts, now))
  {
    var t := BackToPend(m, j, runHosts, now).jobs;
    ListDrops(m.run, m.jobs, t, OnRun, j);
    ListGains(m.pend, m.jobs, t, OnPend, j);
    ListStays(m.fin, m.jobs, t, OnFinish, j);
  }

  lemma {:induction false} FinishKeepsLists(m: Tables, j: JobId, success: bool, exit: int, now: int)
    requires ListsOk(m) && OnList(m, j, OnRun)
    ensures ListsOk(Finish(m, j, success, exit, now))
  {
    var t := Finish(m, j, success, exit, now).jobs;
    ListDrops(m.run, m.jobs, t, OnRun, j);
    ListGains(m.fin, m.jobs, t, OnFinish, j);
    ListStays(m.pend, m.jobs, t, OnPend, j);
  }

  lemma {:induction false} KillKeepsLists(m: Tables, j: JobId, sig: Sig, now: int)
    requires ListsOk(m) && OnList(m, j, OnPend)
    ensures ListsOk(Kill(m, j, sig, now))
  {
    var t := Kill(m, j, sig, now).jobs;
    ListDrops(m.pend, m.jobs, t, OnPend, j);
    ListGains(m.fin, m.jobs, t, OnFinish, j);
    ListStays(m.run, m.jobs, t, OnRun, j);
  }

  lemma {:induction false} KeepExact(ids: seq<JobId>, jobs: map<JobId, Job>)
    requires NoDup(ids)
    ensures NoDup(Keep(ids, jobs))
    ensures forall j :: j in Keep(ids, jobs) <==> j in ids && j in jobs && Retained(j, jobs[j])
  {
    if ids != [] {
      var n := |ids| - 1;
      SplitLast(ids);
      KeepExact(ids[..n], jobs);
    }
  }

  lemma {:induction false} CompactKeepsLists(m: Tables)
    requires ListsOk(m)
    ensures ListsOk(Compact(m))
  {
    KeepExact(m.fin, m.jobs);
  }

  // -------------------------------------------------------------------
  // Replay
  // -------------------------------------------------------------------

  lemma {:induction false} ReplayKeepsLists(r: Replayed, e: Event, queues: map<QueueId, Queue>)
    requires Filed(r.jobs, r.pend, r.run, r.fin) && ReplayOne(r, e, queues).Some?
    ensures var t := ReplayOne(r, e, queues).value; Filed(t.jobs, t.pend, t.run, t.fin)
  {
    var t := ReplayOne(r, e, queues).value;
    var j := e.job;
    assert FiledAlike(r.jobs, t.jobs, j);
    if e.EvNew? {
      ListGains(r.pend, r.jobs, t.jobs, OnPend, j);
      ListStays(r.run, r.jobs, t.jobs, OnRun, j);
      ListStays(r.fin, r.jobs, t.jobs, OnFinish, j);
    } else if j in r.jobs && e.EvStart? {
      ListDrops(r.pend, r.jobs, t.jobs, OnPend, j);
      ListGains(r.run, r.jobs, t.jobs, OnRun, j);
      ListStays(r.fin, r.jobs, t.jobs, OnFinish, j);
    } else if j in r.jobs && e.EvFinish? {
      ReplayFinishKeepsLists(r, e, queues);
    } else if j in r.jobs && e.EvPend? {
      ListDrops(r.run, r.jobs, t.jobs, OnRun, j);
      ListGains(r.pend, r.jobs, t.jobs, OnPend, j);
      ListStays(r.fin, r.jobs, t.jobs, OnFinish, j);
    } else {
      SameListsFiled(r.jobs, t.jobs, t.pend, t.run, t.fin);
    }
  }

  lemma {:induction false} ReplayFinishKeepsLists(r: Replayed, e: Event, queues: map<QueueId, Queue>)
    requires Filed(r.jobs, r.pend, r.run, r.fin) && ReplayOne(r, e, queues).Some?
    requires e.EvFinish? && e.job in r.jobs
    ensures var t := ReplayOne(r, e, queues).value; Filed(t.jobs, t.pend, t.run, t.fin)
  {
    var t := ReplayOne(r, e, queues).value;
    var j := e.job;
    assert FiledAlike(r.jobs, t.jobs, j);
    ListGains(r.fin, r.jobs, t.jobs, OnFinish, j);
    if r.jobs[j].list == OnPend {
      ListDrops(r.pend, r.jobs, t.jobs, OnPend, j);
      ListStays(r.run, r.jobs, t.jobs, OnRun, j);
    } else {
      ListDrops(r.run, r.jobs, t.jobs, OnRun, j);
      ListStays(r.pend, r.jobs, t.jobs, OnPend, j);
    }
  }
}
