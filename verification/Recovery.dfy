/**
 Replay of any log at all, whoever wrote it: if it succeeds, its tables are in
 order.
 */
module Recovery {
  import opened Mbd
  import opened JobLists
  import N = Names

  /** A job in a configured queue, on no more hosts than it asks for. */
  predicate InOrder(job: Job, queues: map<QueueId, Queue>) {
    job.queue in queues && (|job.runHosts| > 0 ==> |job.runHosts| <= job.nhosts)
  }

  ghost predicate AllInOrder(r: Replayed, queues: map<QueueId, Queue>) {
    Filed(r.jobs, r.pend, r.run, r.fin) && forall j :: j in r.jobs ==> InOrder(r.jobs[j], queues)
  }

  lemma {:induction false} OneInOrder(r: Replayed, e: Event, queues: map<QueueId, Queue>)
    requires AllInOrder(r, queues) && ReplayOne(r, e, queues).Some?
    ensures AllInOrder(ReplayOne(r, e, queues).value, queues)
  {
    ReplayKeepsLists(r, e, queues);
    var t := ReplayOne(r, e, queues).value;
    forall j | j in t.jobs
      ensures InOrder(t.jobs[j], queues)
    {
      JobInOrder(r, e, queues, j);
    }
    hide Filed, ReplayOne, InOrder;
  }

  lemma {:induction false} JobInOrder(r: Replayed, e: Event, queues: map<QueueId, Queue>, j: JobId)
    requires (forall k :: k in r.jobs ==> InOrder(r.jobs[k], queues)) && ReplayOne(r, e, queues).Some?
    requires j in ReplayOne(r, e, queues).value.jobs
    ensures InOrder(ReplayOne(r, e, queues).value.jobs[j], queues)
  {
    hide Without, N.Words, N.HostsNamed;
  }

  /** A start is replayed only onto hosts of the job's queue, as many as the
      record says, and only for a job that waits. */
  lemma {:induction false} StartInOrder(r: Replayed, e: Event, queues: map<QueueId, Queue>)
    requires e.EvStart? && e.job in r.jobs && ReplayOne(r, e, queues).Some?
    ensures r.jobs[e.job].list == OnPend && r.jobs[e.job].queue in queues
    ensures var job := ReplayOne(r, e, queues).value.jobs[e.job];
            && job.list == OnRun && job.dispatchTime == e.time && |job.runHosts| == e.nhosts <= job.nhosts
            && forall h :: h in job.runHosts ==> h in queues[job.queue].members
  {
    hide Without, N.Words, N.HostsNamed;
  }

  /** Whatever is in the log: every job is on one list, once, in a configured
      queue, and on no more hosts than it asks for; or replay stops. */
  lemma {:induction false} AnyLogInOrder(log: seq<Event>, queues: map<QueueId, Queue>)
    requires Replay(log, queues).Some?
    ensures AllInOrder(Replay(log, queues).value, queues)
  {
    if log != [] {
      var n := |log| - 1;
      AnyLogInOrder(log[..n], queues);
      OneInOrder(Replay(log[..n], queues).value, log[n], queues);
    }
  }
}
