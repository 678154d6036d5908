# LavaLite in Dafny

A model of LavaLite, a batch scheduler with one master daemon (mbd), one
execution daemon per host (sbd) and a durable event log (the manifest), with
proofs of what its protocol, scheduler, log, dependency compiler and data
structures keep.  `dafny verify dfyconfig.toml` checks all of it.

| part | modules |
|---|---|
| job protocol | `Protocol` (steps), `ProtocolView` (invariant per job), `ProtocolLocal`, `ProtocolMbd`, `ProtocolSteps` (every step keeps it), `ProtocolSafety`, `ProtocolLog`, `ProtocolProgress` (theorems), `SbdDaemon` (the sbd as an object) |
| tables of mbd | `Mbd` (state and steps), `JobLists`, `Accounting*` (recounts), `Manifest*`, `Compaction` (log and replay), `MbdSafety` (runs), `MbdDaemon` (mbd as an object), `History`, `Journal`, `Verdicts` (what the steps of a run say, beside the tables), `Configuration`, `Recovery`, `Refcount`, `Purging`, `Conditions`, `Arrays`, `ArrayOps`, `Signals` |
| both together | `Coupling` (one run of protocol and tables), `Charges` |
| scheduler | `Scheduler`, `SchedulerPlan`, `Available` (what is there, in raw fields), `SchedulerCycle`, `PlacementSafety`, `Priorities` |
| log as text | `LogFormat` (lines), `LogFile` (files), `LogIO` (the loops), `ManifestText` (events as text), `LogLines`, `MachineLists`, `DurableLog` (runs), `LogLosses`, `Names` |
| dependencies | `Dependency`, `DependencyProofs`, `DependencyEval`, `DependencyErrors` |
| structures | `Primes`, `HashTable`, `Heap`, `Framing`, `Int32` |
| failing inputs | `Witnesses`, `LogLosses` |

A run is a sequence of states in which each follows from the one before by an
enabled step; theorems named `Run...` speak of every state of every run.  Time,
the outcome of a spawn, which hosts are up, what qsort does with equal
elements, how much a read or write transfers and what a hash function returns
are parameters, so results hold for all of them.

## Model

| member | source | states |
|---|---|---|
| `ProtocolSafety.AtMostOneHolder` | src/batch/sbd/slog.c:469-517 | In every state of every run, under any loss of messages, any reconnection and any restart of either daemon, at most one sbd holds a job, in memory or in a state file it would reload; while mbd has not finished the job, that sbd is the first host on mbd's record and the job is of the current dispatch |
| `ProtocolSafety.SpawnIsFirst` | src/batch/sbd/sjob.c:539-621 | The next NEW_JOB an sbd reads is for a job no sbd holds, and belongs to the current dispatch of a job on mbd's run list for that host: a job is never spawned twice at once |
| `ProtocolSafety.MbdNeverFaults` | src/batch/mbd/job.c:1092-1289 | Whatever mbd reads next in a run, none of the asserts and mismatch branches of its reply, finish and missing handlers is reached |
| `ProtocolSafety.SbdNeverFatal` | src/batch/sbd/snet.c:265-319 | Whatever an sbd reads next in a run, it does not die of it: no pid mismatch at registration, no finish ack for a job without exit status |
| `ProtocolSafety.AcksAreCurrent` | src/batch/sbd/sjob.c:749-783 | An ack that an sbd acts on belongs to the dispatch it holds, and mbd has recorded that dispatch's pid; the stale ack of a rejected dispatch finds nobody |
| `ProtocolSafety.JoinedNeverLoses` | src/batch/mbd/sbd.c:21-128 | While its host's connection is whole, a running job is held there, on its way there, or its failure is on its way back |
| `ProtocolProgress.RunHandles` | src/batch/mbd/job.c:1092-1289 | In every run, a finish that mbd reads ends the job and is acked, also the second time and after a purge; a reply with a pid is recorded and acked; a refusal is acked and, like a missing job, sends the job back to pending; nothing else changes |
| `ProtocolProgress.RunObeys` | src/batch/sbd/sjob.c:539-908 | In every run, an sbd spawns and answers what it is sent, marks an acked job in memory and file, lets go of a job whose finish is acked and would not reload it, and reports exactly the listed jobs it lacks |
| `ProtocolProgress.RunSends` | src/batch/mbd/sbd.c:384-469 | In every run, a dispatch starts anew, is sent to its host and logged |
| `ProtocolProgress.RunRegisters` | src/batch/mbd/sbd.c:59-128 | In every run, a second registration is refused; otherwise the connection is whole and the host is told of its running jobs, each once, with its pid |
| `ProtocolProgress.DispatchCanSettle` | src/batch/sbd/smain.c:456-535 | From every state of every run, whatever was lost, every dispatch can be settled by its host and mbd alone, by the end of the job if the host has it: nothing is ever stuck |
| `ProtocolProgress.HolderCanLetGo` | src/batch/sbd/sjob.c:850-908 | From every state of every run, every host that holds a job can be rid of it, also of one mbd has purged |
| `ProtocolProgress.PendingCanFinish` | src/batch/sbd/sjob.c:539-908 | From every state of every run, every pending job can run and end on every host |
| `ProtocolLog.SettledOnce` | src/batch/mbd/job.c:402-467 | However often replies and finishes are sent again, a dispatch is settled at most once, and exactly once unless it is the one the job is running in |
| `ProtocolLog.FinishAfterFork` | src/batch/mbd/job.c:1202-1273 | A dispatch is settled by a finish exactly if its fork was logged before, and no job is forked twice in its life |
| `ProtocolMbd.RunListForExact` | src/batch/mbd/sbd.c:21-57 | The list sent at registration names every running job of the host once, with its recorded pid, and no other job |
| `ProtocolMbd.BuildSbdRunList` | src/batch/mbd/sbd.c:21-57 | The array that is counted out and then filled is exactly that list |
| `Coupling.RunCouples` | src/batch/mbd/job.c:1092-1289 | In every run of protocol and tables together, both sides agree on every job: phase with state and list, host with the first run host, fork with fork time, pid with pid |
| `Coupling.ReceiveCoupled` | src/batch/mbd/job.c:1092-1289 | Every message mbd can read is, for its tables, an enabled fork, reject, missing or finish that keeps both sides agreed, or it changes nothing |
| `Charges.ReturnedOnce` | src/batch/mbd/job.c:402-443 | Hosts, tokens and queues are charged at most once for a dispatch, and given back exactly once unless the job is still running in it |
| `Charges.EveryReportTaken` | src/batch/mbd/job.c:1092-1289 | In every such run each report mbd can read is a step its tables can take at that moment, or changes nothing |
| `SbdDaemon.Sbd.JobNew` | src/batch/sbd/sjob.c:539-621 | Memory, files and the one answer sent are those of the step function; the list holds the jobs of the hash, each once |
| `SbdDaemon.Sbd.NewReplyAck` | src/batch/sbd/sjob.c:749-783 | The job is marked acked and saved, exactly as in the protocol step |
| `SbdDaemon.Sbd.FinishAck` | src/batch/sbd/sjob.c:850-908 | Fatal exactly for a held job without exit status; otherwise the job leaves hash, list and memory and its file is marked |
| `SbdDaemon.Sbd.RegisterAck` | src/batch/sbd/snet.c:265-319 | Fatal exactly on a pid that differs; otherwise jobs mbd lists and the sbd lacks are reported missing and unrecorded pids are announced again, in list order |
| `SbdDaemon.Sbd.Route` | src/batch/sbd/snet.c:232-257 | Each operation of the switch does what the protocol step says, fatal in exactly its cases |
| `SbdDaemon.Sbd.Serve` | src/batch/sbd/snet.c:179-263 | In any run of the protocol the object reads its next message without a fatal error and becomes the host of the next state |
| `SbdDaemon.Sbd.LinkDown` | src/batch/sbd/snet.c:109-129 | Every job's file is written; memory and list stay |
| `SbdDaemon.Sbd.LoadState` | src/batch/sbd/slog.c:469-517 | Whatever the order of the directory, memory becomes exactly the files whose finish is not acked |
| `SbdDaemon.Sbd.NewDrive` | src/batch/sbd/smain.c:456-494 | A reply is sent for every job not acked, in list order, and nothing else |
| `SbdDaemon.Sbd.FinishDrive` | src/batch/sbd/smain.c:496-535 | A finish is sent for every job that exited and is acked, in list order, and nothing else |
| `SbdDaemon.DriveIsAllowed` | src/batch/sbd/smain.c:456-535 | Every message of a drive is one the protocol lets the sbd send at that moment, and the other way round |
| `MbdSafety.RunKeepsBooks` | src/batch/mbd/job.c:1365-1488 | In every state of every run of one daemon lifetime, every counter of every host, queue and pool equals its recount over the job lists, free amounts are within bounds, exclusive jobs are alone |
| `MbdSafety.HostConservation` | src/batch/mbd/job.c:470-500 | For cpu, memory and storage, what is free and what run-list jobs hold add up to the host, and free is between none and all |
| `MbdSafety.PoolConservation` | src/batch/mbd/sched.c:475-507 | For every pool, what is free and what run-list jobs hold add up to its total |
| `MbdSafety.RunKeepsPools` | src/batch/mbd/sched.c:364-384 | If no request names a pool twice, no pool is ever negative, across restarts and compactions |
| `MbdSafety.DistinctPoolsExactly` | src/batch/mbd/sched.c:364-384 | Checking the entries of a request one by one protects every pool exactly if the request names no pool twice |
| `MbdSafety.ExclusiveAlone` | src/batch/mbd/sched.c:165-199 | No other run-list job is on a host of an exclusive one |
| `MbdSafety.ExclusiveFlag` | src/batch/mbd/job.c:487-488 | The host flag is set exactly if an exclusive job runs there |
| `MbdSafety.NeverReissued` | src/batch/mbd/job.c:33-40 | Across restarts, purges and failed submissions, ids drawn are above that of every job the daemon ever had |
| `MbdSafety.RunInv` | src/batch/mbd/events.c:914-1005 | After every step of every run the log replays to the live table, the counters equal their recount and ids stay below the saved sequence |
| `MbdSafety.ReplayGivesLiveTable` | src/batch/mbd/events.c:397-708 | Replaying the log of any reachable state gives the same ids, the same lists and every logged field of every job |
| `MbdSafety.SubmitMirrorsExactly` | src/batch/mbd/events.c:209-253 | A submission keeps log and live table alike exactly if the logged host count is the one the daemon keeps and the GPU model fits its field |
| `MbdSafety.DispatchMirrorsExactly` | src/batch/mbd/events.c:259-290 | A dispatch does exactly if the names of its hosts fit the 4K field of JOB_START |
| `MbdSafety.StepKeepsInv` | src/batch/mbd/events.c:1155-1257 | Every step, compaction and restart included, keeps all of it |
| `History.RunTells` | src/batch/mbd/job.c:402-1289 | In every state of every run, every field of every job is what the steps so far have said: what its request asked for, where it was last sent and when, its pid, how and when it ended, queue, priority and hold; and no job is gone before it has ended |
| `Journal.RunWrites` | src/batch/mbd/events.c:209-395 | In every run, every step but a compaction adds to the log exactly the records of what it says, every field of them computed from the steps |
| `Configuration.RunSite` | src/batch/mbd/events.c:54-82 | In every run, queues stay open or closed, of the priority and with the hosts configured, and hosts and pools as large |
| `Recovery.AnyLogInOrder` | src/batch/mbd/events.c:397-708 | Whatever is in a log, a replay that succeeds has every job on one list, once, in a configured queue, on no more hosts than it asks for |
| `Recovery.StartInOrder` | src/batch/mbd/events.c:498-581 | A start is replayed only for a job that waits, onto as many hosts as recorded, all of its queue |
| `Compaction.ShowsRewritten` | src/batch/mbd/events.c:1007-1118 | What compaction writes for a job replays to that job |
| `Compaction.RestartMirrors` | src/batch/mbd/events.c:914-1005 | A restarted daemon has every logged field of every job and every list back |
| `AccountingRestart.CountersBack` | src/batch/mbd/events.c:54-163 | Every host and queue counter that the rebuild computes is what the dead daemon had |
| `AccountingSteps.IdsConsecutive` | src/batch/mbd/job.c:769-810 | Ids of one submission are consecutive: the contiguity assert cannot fail |
| `Names.HostsLoggedExactly` | src/batch/mbd/events.c:259-290 | A host list survives JOB_START exactly if its text is shorter than 4K |
| `Names.PlannedNotLogged` | src/batch/mbd/sched.c:299-332 | 65 to 103 hosts with the longest names pass the planner's 8K test and do not survive JOB_START |
| `MbdDaemon.Master.Take` | src/batch/mbd/job.c:1365-1488 | The daemon object takes any enabled step by its own loops, ends in the state the step function gives, and keeps log, books and ids |
| `MbdDaemon.Master.AssertCounters` | src/batch/mbd/job.c:1365-1488 | On such an object every comparison of the recount, hosts and queues, succeeds |
| `MbdDaemon.HostAgrees` | src/batch/mbd/job.c:1372-1431 | The recount of one host over the run list finds its counters |
| `MbdDaemon.QueueAgrees` | src/batch/mbd/job.c:1433-1487 | The recount of one queue over the pending and running lists finds its counters |
| `MbdDaemon.Master.Dispatch` | src/batch/mbd/sched.c:442-458 | Lists, charges, tokens, references and the JOB_START record, by the source's loops |
| `MbdDaemon.Master.Finish` | src/batch/mbd/job.c:1202-1289 | Charges returned by the loops, the job on the finish list, the array head counted down, JOB_FINISH logged |
| `MbdDaemon.Master.BackToPend` | src/batch/mbd/job.c:402-443 | Reject and missing: charges returned, the job at the end of the pending list, JOB_PEND logged |
| `MbdDaemon.Master.KillPending` | src/batch/mbd/job.c:1566-1589 | The job finished from the pending list, its references given back, the signal and the finish logged |
| `MbdDaemon.Master.Register` | src/batch/mbd/job.c:717-825 | All elements prepared, then all committed, in order |
| `MbdDaemon.Master.DrawAll` | src/batch/mbd/job.c:769-810 | One id for each index of the range walked in 32 bits |
| `MbdDaemon.Master.Move` | src/batch/mbd/job.c:1490-1560 | Counters of both queues moved with the job, JOB_MOVE logged |
| `MbdDaemon.Master.Rebuild` | src/batch/mbd/events.c:1155-1257 | Three loops write the compacted log, and the last frees exactly the jobs not retained |
| `MbdDaemon.Master.Recover` | src/batch/mbd/events.c:914-1005 | The replay loop and the recount loops give the restarted tables |
| `MbdDaemon.HostUpdateResources` | src/batch/mbd/sched.c:334-362 | Each planned host is charged once, unknown ones skipped |
| `MbdDaemon.ResetHostResources` | src/batch/mbd/job.c:470-500 | Each run host gets back what it was charged |
| `MbdDaemon.TakeTokens` | src/batch/mbd/sched.c:475-507 | Each named pool is moved by its count |
| `MbdDaemon.DepsRefcnt` | src/batch/mbd/job.c:1029-1052 | Each job named by a condition is adjusted once for each call that names it |
| `Refcount.RunRefs` | src/batch/mbd/job.c:1029-1068 | Over runs in which no job whose condition names somebody goes back to pending, every job's count equals the references to it from pending and held jobs |
| `Refcount.BackRefsExactly` | src/batch/mbd/job.c:402-443 | Reject and missing keep the counts right exactly if the job's condition names no job still in the table |
| `Refcount.RestartRefs` | src/batch/mbd/events.c:166-178 | A restart makes the counts right whatever they were |
| `Refcount.NamedIsKept` | src/batch/mbd/events.c:1207-1240 | A job that a pending condition names is not purged |
| `Purging.PurgedExactly` | src/batch/mbd/events.c:1207-1240 | Compaction removes exactly the ended jobs that no pending or held condition names and that head no unfinished array |
| `Purging.RunPurges` | src/batch/mbd/events.c:1155-1257 | The same of every compaction of every run of one lifetime in which no waiting job loses its references |
| `Purging.RefsAreCalls` | src/batch/mbd/job.c:1029-1052 | References are counted call by call |
| `Verdicts.CallAnswers` | src/batch/mbd/job.c:903-1003 | In every state of every run, done() is true exactly if the job, or every element of the array, ended in success, exit() if in failure or by a kill, ended() if in either; never while one has not ended, nor of a job that is gone |
| `Verdicts.JobAnswers` | src/batch/mbd/job.c:903-924 | The same of one job |
| `Verdicts.ConditionMeans` | src/batch/mbd/job.c:1008-1018 | A compiled condition is satisfied exactly if it is true of how the jobs it names have ended |
| `Conditions.VerdictKept` | src/batch/mbd/job.c:1008-1018 | A condition on single jobs has the same answer before and after compaction |
| `Conditions.ArrayVerdictKept` | src/batch/mbd/job.c:951-984 | A question about a whole array keeps its answer exactly if some retained element fails it, or no purged element does |
| `Conditions.ArrayCheckMeans` | src/batch/mbd/job.c:951-984 | The list scans answer: every element is on the finish list and answers the kind |
| `Conditions.DepSatisfied` | src/batch/mbd/job.c:1008-1018 | On compiled code that its 16 slots hold, the evaluation decides the condition |
| `Conditions.DepArrayCheck` | src/batch/mbd/job.c:951-984 | The loops over the lists compute that answer |
| `Arrays.RunKeepsArrays` | src/batch/mbd/job.c:769-864 | Within one daemon lifetime, elements lie in blocks of consecutive ids with their indices, the head of an unfinished array is in the table, and its counter equals its unfinished elements |
| `Arrays.HeadKept` | src/batch/mbd/events.c:1221-1229 | While an element is unfinished, compaction keeps the head |
| `Arrays.WalkExact` | src/batch/mbd/job.c:882-901 | The 32-bit walk over an array's indices stops behind its last element exactly if the next index still fits an int |
| `Arrays.CountExact` | src/batch/mbd/job.c:769-810 | The k-th index is in the range exactly for k below the element count |
| `ArrayOps.JobFindArray` | src/batch/mbd/job.c:882-901 | The element with that index, and none if there is none |
| `ArrayOps.SignalArray` | src/batch/mbd/job.c:1751-1775 | Every unfinished element the caller may signal is signalled once, in id order, and nobody else; whoever waited and is to terminate has ended, whoever is stopped is held, whoever goes on waits again, running ones are logged if they can be reached, all other jobs and their records are as before; and all of it by steps of the daemon |
| `Signals.EffectsMore` | src/batch/mbd/job.c:1693-1737 | One signal more has that effect on its job and none on the others |
| `Signals.Terminated` | src/batch/mbd/job.c:1566-1589 | A waiting job that is terminated is off the pending list, on the list of finished jobs, and Exited |
| `Signals.RunConsistent` | src/batch/mbd/job.c:831-854 | State, list and queue of every job go together in every state of every run |
| `Scheduler.CmpExact` | src/batch/mbd/sched.c:19-43 | The comparator agrees with the intended order exactly while the priority difference it takes fits an int |
| `Scheduler.SortedUnique` | src/base/lib/ll.list.c:175-197 | Where it does, there is one sorted list, whatever qsort does |
| `Scheduler.NotNegativeIsTame` | src/batch/mbd/sched.c:19-43 | Priorities that are not negative never wrap |
| `Priorities.RunIsTame` | src/batch/mbd/job.c:1905-1959 | If configured queue priorities are not negative ints, no two jobs of any reachable state compare the wrong way |
| `SchedulerPlan.MarkCandidates` | src/batch/mbd/sched.c:53-75 | Open, connected hosts with a free cpu become candidates, and the slots returned are the sum of their free cpus |
| `SchedulerPlan.BuildHostPlan` | src/batch/mbd/sched.c:269-332 | A plan is exactly num_hosts distinct eligible hosts, the machines asked for or else those with least free cpu; no plan means none exists; too long means some good plan exceeds the text buffer |
| `SchedulerPlan.MachinePlan` | src/batch/mbd/sched.c:220-267 | All machines asked for, if all are eligible |
| `SchedulerPlan.DispatchSlots` | src/batch/mbd/sched.c:459-462 | The slots taken from the running count are those taken from the candidates |
| `SchedulerCycle.Schedule` | src/batch/mbd/sched.c:386-473 | The cycle is a run of dispatches, each of a pending job whose time has come, on hosts with room and least left; at its end no job is left, refused ones aside, whose time has come, whose queue is open, whose tokens are there, whose condition holds and for which enough hosts of its queue are up with enough left by the run list; no job ahead that asked for no more was passed over; refused is only whose plan is too long, and nobody if all names fit |
| `Available.RunnableExactly` | src/batch/mbd/sched.c:165-199 | What the scheduler tests (free amounts, candidate flags, counters) is what a job needs: totals less what run-list jobs hold, hosts that are open and connected, nobody exclusive there |
| `Available.GoodPlanHasRoom` | src/batch/mbd/sched.c:269-332 | A plan the scheduler may choose has room on every host, and no other host with room has less left |
| `SchedulerCycle.Pass` | src/batch/mbd/sched.c:401-471 | The while loop keeps slots equal to the candidates' free cpus, so the early stop loses nobody |
| `SchedulerCycle.NoSlotsNoRun` | src/batch/mbd/sched.c:459-470 | With no slots left no job can be placed |
| `SchedulerCycle.TryJob` | src/batch/mbd/sched.c:406-441 | A turn gives a good plan for a job that can run, or says that it cannot, or that its plan is too long |
| `SchedulerCycle.CheckTokens` | src/batch/mbd/sched.c:364-384 | True exactly if every entry is covered by its pool |
| `PlacementSafety.PlacementSafe` | src/batch/mbd/sched.c:165-199 | Every dispatch of every run gets exactly num_hosts distinct open, connected hosts of its queue with room for it |
| `PlacementSafety.RunKeepsUp` | src/batch/mbd/sched.c:53-75 | In every state of every run, a candidate is open and connected |
| `PlacementSafety.RunUp` | src/batch/mbd/sched.c:53-75 | In every state of every run a host is open and connected as it was last found, and nobody is after a restart |
| `PlacementSafety.RunExclusive` | src/batch/mbd/job.c:487-488 | In every state of every run, an exclusive job is alone on its hosts and exactly they carry the flag |
| `Witnesses.CpusExactly` | src/batch/mbd/job.c:63-145 | Free cpus stay between none and all in every state reached by requests for c cpus exactly if c is not negative |
| `Witnesses.NegativeCpusOverfill` | src/batch/mbd/job.c:63-145 | For every negative c, a reachable state with more free cpus than there are |
| `Witnesses.ManyHostsRefused` | src/batch/mbd/sched.c:310-321 | For 104 to 126 hosts with the longest names, a reachable state where a job could run and every plan for it is refused |
| `Witnesses.SamePoolTwiceOverdraws` | src/batch/mbd/sched.c:364-384 | A reachable state where an enabled dispatch makes a pool negative |
| `Witnesses.RejectedReferencePurged` | src/batch/mbd/job.c:402-443 | A reachable state after which a reject leaves a wrong count, compaction purges the job waited for, and a condition that held never holds again |
| `Witnesses.QueuesInACircle` | src/batch/mbd/sched.c:19-43 | Three plain submissions whose jobs compare in a circle |
| `Witnesses.ArrayVerdictFlips` | src/batch/mbd/job.c:951-984 | A reachable state where compaction makes done() of an array with a failed element true |
| `Scheduler.CmpCircle` | src/batch/mbd/sched.c:19-43 | The three ranks: queue priorities INT_MAX, 0 and -INT_MAX |
| `DependencyProofs.ParseExact` | src/batch/lib/dependency.c:53-187 | The parser accepts exactly the texts of the grammar whose jobs are all known, with the one condition the text denotes, and its depth is the nesting of groups |
| `DependencyProofs.Unambiguous` | src/batch/lib/dependency.c:53-111 | No text denotes two conditions: `!` over `&&` over `\|\|`, operators to the left |
| `DependencyProofs.PrintParse` | src/batch/lib/dependency.c:53-187 | Every condition over 64-bit ids, printed with no more parentheses than needed, is read back as itself |
| `DependencyProofs.ResolvingOnlyFilters` | src/batch/mbd/job.c:552-560 | Replay, which resolves no ids, gets the same condition |
| `DependencyErrors.RefusedFor` | src/batch/lib/dependency.c:114-187 | A text of the grammar is refused as naming an unknown job exactly if it does, and never for its syntax; where every job is known, errors are of syntax only |
| `DependencyEval.DepParse` | src/batch/lib/dependency.c:164-187 | The cursor-and-list parser emits the postfix of the parsed condition, and on any error leaves an empty list and the parser's status |
| `DependencyEval.Parser.ReadExpr` | src/batch/lib/dependency.c:53-64 | One precedence level: cursor, emitted code and error as the grammar function says |
| `DependencyEval.Parser.ReadFactor` | src/batch/lib/dependency.c:81-111 | Negation, group or call, likewise |
| `DependencyEval.Parser.ReadCall` | src/batch/lib/dependency.c:114-162 | Keyword, parenthesis and job id, likewise |
| `DependencyEval.ExecPostfix` | src/batch/lib/dependency.c:194-229 | Emitted code never underflows and leaves exactly the meaning of its condition |
| `DependencyEval.DepListEval` | src/batch/lib/dependency.c:194-229 | The loop over the array of 16 computes the Boolean meaning of every condition that needs no more slots |
| `DependencyEval.PeakPostfix` | src/batch/lib/dependency.c:194-229 | The highest the stack gets is what the condition needs |
| `DependencyEval.StackBound` | src/batch/lib/dependency.c:194-229 | 3 + 2p slots are enough for nesting p, whatever the length |
| `DependencyEval.StackBoundReached` | src/batch/lib/dependency.c:194-229 | Some accepted text of every nesting needs them all |
| `DependencyEval.SixteenSlotsExactly` | src/batch/lib/dependency.c:11-11 | Sixteen slots are enough for all texts of nesting p exactly if p is at most six |
| `LogFormat.LineRoundTrip` | src/batch/lib/log.c:119-515 | For all eleven record types a written line that fits is read back as the same record |
| `LogFormat.QstrReadExactly` | src/batch/lib/log.c:45-79 | A string field comes back exactly if it has no quote and fits its field |
| `LogFile.CarriesExactly` | src/batch/mbd/events.c:914-1005 | A file comes back record for record, and stays readable behind them, exactly if every record fits: no quote or newline, line shorter than the buffer |
| `LogFile.LongIsLost` | src/batch/lib/log.c:90-113 | A line past the buffer is not read as itself, and may end the log |
| `LogFile.FullEndsLog` | src/batch/lib/log.c:90-113 | A line that just fills the buffer ends the log |
| `LogFile.LineStops` | src/batch/lib/log.c:90-113 | A read stops behind the first newline that fits the buffer |
| `LogLines.WrittenAs` | src/batch/lib/log.c:119-515 | The line of every event, written out field by field, for all values |
| `MachineLists.WordsExact` | src/batch/mbd/job.c:164-178 | The words of a machine list are its stretches between blanks, tabs and commas |
| `MachineLists.MachinesExact` | src/batch/mbd/job.c:147-178 | A list names a host exactly if a word of it is the host or a group that lists it, and no host twice |
| `LogIO.Stream.Write` | src/batch/lib/log.c:37-79 | The writers append exactly the record's line |
| `LogIO.ParsePayload` | src/batch/lib/log.c:168-515 | The parsers read exactly what the format function reads |
| `LogIO.ParseEventType` | src/batch/lib/log.c:81-88 | The name lookup loop finds the type of the name |
| `LogIO.Fgets` | src/batch/lib/log.c:90-113 | One call takes up to the newline or the buffer |
| `LogIO.ReadRecords` | src/batch/mbd/events.c:914-1005 | The loop reads exactly the records of the file: bad payloads passed over, a bad header ends it |
| `ManifestText.TextIsReplayed` | src/batch/mbd/events.c:397-708 | What a log carries is replayed from its text as from its events |
| `ManifestText.EventComesBack` | src/batch/mbd/events.c:209-395 | Every event written as a record and parsed is that event, job names, hosts and conditions included |
| `DurableLog.FileGivesLiveTable` | src/batch/mbd/events.c:914-1005 | In every run whose records fit, reading the file and replaying it gives the live table: ids, lists and every logged field |
| `DurableLog.StepLogExactly` | src/batch/mbd/events.c:209-395 | A step leaves a file that shows the live table exactly if every record it writes fits and the log says of a new job what the daemon keeps |
| `DurableLog.RunLogOk` | src/batch/mbd/events.c:1155-1257 | Every state of such a run, compactions and restarts included, has a log that reads back whole |
| `LogLosses.QuotedNameForgotten` | src/batch/mbd/events.c:209-253 | A job with a quote in its name is accepted, and gone after a restart |
| `LogLosses.OthersAreRead` | src/batch/mbd/events.c:914-1005 | A line with a broken payload is lost alone: what was written before and after it is read |
| `LogLosses.FarNameChanged` | src/batch/mbd/events.c:209-253 | A machine list past 1023 characters is logged short: replay settles on the daemon's host count exactly if the list is shorter or the count happens to agree |
| `LogLosses.LongConditionLost` | src/batch/lib/log.c:119-166 | A condition of 4071 characters or more never fits its line |
| `Primes.IsPrime` | src/base/lib/ll.hash.c:19-36 | Trial division by 6k +- 1 decides primality |
| `Primes.NextPrime` | src/base/lib/ll.hash.c:39-48 | The least prime not below n, and the search ends |
| `Primes.PrimeAbove` | src/base/lib/ll.hash.c:39-48 | There is always a larger prime |
| `HashTable.Table.constructor` | src/base/lib/ll.hash.c:129-145 | An empty map; the bucket count is prime |
| `HashTable.Table.Insert` | src/base/lib/ll.hash.c:163-201 | The map gains or updates the key, or stays, by status; buckets stay prime in number and loaded within 4n <= 3b + 4 |
| `HashTable.Table.Search` | src/base/lib/ll.hash.c:204-217 | The map's value for the key |
| `HashTable.Table.Remove` | src/base/lib/ll.hash.c:219-248 | The map without the key, and its value |
| `HashTable.Table.Resize` | src/base/lib/ll.hash.c:74-105 | The same map in the least prime number of buckets not below the wanted |
| `HashTable.Table.MaybeGrow` | src/base/lib/ll.hash.c:112-127 | Room for one more within the load bound |
| `HashTable.Iter.constructor` | src/base/lib/ll.hash.c:341-346 | What is to come is every entry of the map, once |
| `HashTable.Iter.Next` | src/base/lib/ll.hash.c:348-361 | The next of them, in bucket order |
| `HashTable.FlatExact` | src/base/lib/ll.hash.c:250-264 | The chains hold the entries of the map, each once |
| `Heap.BinaryHeap.Push` | src/base/lib/ll.heap.c:79-92 | The entries gain e; order and back-indices hold |
| `Heap.BinaryHeap.Pop` | src/base/lib/ll.heap.c:102-122 | A minimum leaves, with index -1, and only it |
| `Heap.BinaryHeap.Remove` | src/base/lib/ll.heap.c:124-145 | Exactly that entry leaves, from anywhere, and at most one of the two sifts moves anything |
| `Heap.BinaryHeap.SiftUp` | src/base/lib/ll.heap.c:21-33 | From order up to one entry to order; it moves exactly if the entry is out of order |
| `Heap.BinaryHeap.SiftDown` | src/base/lib/ll.heap.c:35-56 | Likewise downward |
| `Heap.RootIsLeast` | src/base/lib/ll.heap.c:94-100 | In an ordered heap the root is a minimum |
| `Framing.FramesArePrefix` | src/base/lib/ll.channel.c:33-159 | For every split into partial writes and reads, frames dequeued are a prefix of frames enqueued, and every byte is in exactly one place |
| `Framing.AllDelivered` | src/base/lib/ll.channel.c:33-159 | When nothing is under way and nothing is readable, everything has arrived |
| `Framing.ReadableExactly` | src/base/lib/ll.channel.c:33-128 | In every state of every run a buffer is readable exactly if it holds a whole frame |
| `Framing.RunCanDrain` | src/base/lib/ll.channel.c:33-159 | From every state of every run, writes, reads and dequeues lead to one in which every frame has come out |
| `Framing.FrameOnTheWire` | src/base/lib/ll.protocol.c:65-86 | Where each field of the header is in a frame, most significant byte first (section 4 of RFC 4506), and the payload behind them |
| `Framing.ReadableIsFrame` | src/base/lib/ll.channel.c:33-128 | A readable buffer is the next frame, whole and nothing more |
| `Framing.FrameRoundTrip` | src/base/lib/ll.protocol.c:65-86 | The patched length is the payload's size, and the rest of the header comes back |
| `Framing.EncodeMsg` | src/base/lib/ll.protocol.c:13-31 | Payload first, header over the gap: the buffer holds the frame, or it did not fit |
| `Framing.Sender.DoWrite` | src/base/lib/ll.channel.c:130-159 | What was unsent is what went out and what is still unsent |
| `Framing.Channel.DoRead` | src/base/lib/ll.channel.c:33-128 | Buffer, length and event as the receive function says |

## Findings

Properties that the code does not keep on everything it accepts.  Each has the
exact condition under which it does and an input on which it does not; the
code is modelled as it is.

| property | source | holds exactly if | input |
|---|---|---|---|
| a job survives a restart | src/batch/lib/log.c:45-79 | every string it logs has no quote or newline and its line is shorter than 4K (`DurableLog.StepLogExactly`, `LogFile.CarriesExactly`) | `LogLosses.QuotedNameForgotten`, `LogLosses.LongConditionLost` |
| replay settles on the live host count | src/batch/mbd/events.c:209-253 | the raw count and the first 1023 characters of the machine list give it, and the GPU model has at most 63 (`MbdSafety.SubmitMirrorsExactly`) | `LogLosses.FarNameChanged` |
| a dispatch survives a restart | src/batch/mbd/events.c:259-290 | its host names, joined, are shorter than 4K (`MbdSafety.DispatchMirrorsExactly`); the planner allows 8K | `Names.PlannedNotLogged` |
| the pending list has one sorted order | src/batch/mbd/sched.c:19-43 | no two priorities differ by more than an int holds (`Scheduler.CmpExact`), as when none is negative (`Priorities.RunIsTame`) | `Witnesses.QueuesInACircle` |
| a token pool is never negative | src/batch/mbd/sched.c:364-384 | no request names a pool twice (`MbdSafety.DistinctPoolsExactly`) | `Witnesses.SamePoolTwiceOverdraws` |
| reference counts are right | src/batch/mbd/job.c:402-443 | a job that is rejected or missing names no job still in the table (`Refcount.BackRefsExactly`) | `Witnesses.RejectedReferencePurged` |
| compaction keeps a condition's answer | src/batch/mbd/job.c:951-984 | for a whole array: some retained element fails it, or no purged one does (`Conditions.ArrayVerdictKept`) | `Witnesses.ArrayVerdictFlips` |
| 16 slots are enough | src/batch/lib/dependency.c:11-11 | groups nest at most six deep (`DependencyEval.SixteenSlotsExactly`) | `DependencyEval.StackBoundReached` |
| the walk over an array ends | src/batch/mbd/job.c:882-901 | the index behind the last element fits an int (`Arrays.WalkExact`) | start 2147483646, end 2147483647, stride 2 |
| a cycle leaves no job that could run | src/batch/mbd/sched.c:299-332 | no such job was refused because the text of its plan is 8K or longer (`SchedulerCycle.Schedule`) | `Witnesses.ManyHostsRefused` |
| free cpus are at most all of a host's | src/batch/mbd/job.c:63-145 | no request asks for less than none (`Witnesses.CpusExactly`) | `Witnesses.NegativeCpusOverfill` |

## Left out

- MbdSafety.RunKeepsBooks: suspend and resume of running jobs and num_susp are not modelled, because the signal reply (src/batch/mbd/job.c:1339-1351) has no state guard and updates one host only; requests for a negative number of cpus are in the model and outside this theorem (see Findings); restarts are covered by MbdSafety.RunInv instead.
- MbdSafety.RunInv: over events, for steps whose record fields hold what is written; the text of the file is DurableLog.RunLogOk.
- Arrays.RunKeepsArrays: one daemon lifetime, because replay counts elements down before the rebuild counts them up (src/batch/mbd/events.c:644, src/batch/mbd/events.c:180-206).
- Refcount.RunRefs: runs with a reject or missing of a job whose condition names somebody are excluded, because the references are not taken again (see Findings).
- SchedulerCycle.Schedule: what it says of hosts in terms of the run list is for states whose counters equal their recount, as in every run (MbdSafety.RunKeepsBooks); one clock value per cycle, pending jobs ask for at least one cpu and one host, their conditions fit 16 slots, and a dispatch message is always enqueued.
- Conditions.DepSatisfied: code that needs a 17th slot writes behind the array in the source and has no meaning here.
- ArrayOps.SignalArray: which sbd is reachable for a running job is a parameter; what a running job does with the signal is not modelled.
- ProtocolProgress.DispatchCanSettle: that the steps which settle a dispatch can be taken, not that they are: timers and the fairness of the event loop are not modelled.
- MbdDaemon.Master.DrawAll: arrays whose walk does not end (see Findings) are not accepted by the model.
- GPU devices: release frees other slots than dispatch marks, and on more hosts (src/batch/mbd/job.c:1975-1989, src/batch/mbd/sbd.c:357-433); jobs here ask for none.
- ORPHAN and BROKEN jobs: they arise only if the configuration changes across a restart; hosts, queues and pools are fixed here.
- Tokens, machine lists and array counters across a restart: replay does not rebuild the first two (src/batch/mbd/events.c:397-454); `Manifest.See` leaves all three out of the comparison.
- Crashes inside a handler, and between the two files of a compaction: each handler is one step.
- Failure to enqueue, to allocate, to write a file, to find a script or a directory: such calls succeed, or their outcome is a parameter (spawn).
- The load factor of the hash table is exact here; in the source it is a rounded double, and sizes do not wrap here.
- FNV-1a, which is a parameter of the table; qsort, which is any function that sorts.
- Intrusive list pointers of ll.list.c: lists are sequences; only the sort's outcome is stated.
- Members of a host group: the expansion of a machine list by groups is a parameter of the text layer, and host names have no blanks or commas.
- Record fields hold values of their C types; that a time or count overflows its field is not modelled.
- Sockets, epoll, timers, HMAC, cgroups, fork and exec, hostname and password lookup, configuration parsing, command-line tools, history and the client library.
