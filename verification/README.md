# JERS in Dafny

JERS is a batch job scheduler: a daemon (`jersd`) keeps tables of jobs, queues and resources, decides which
jobs may start, and talks to one agent per host, which runs them. This project models the parts of it whose
correctness rests on redundant state and long interleavings, and proves what they keep.

- **The conversation with an agent** (the `Protocol...` files and `AgentSide`): a step relation over two FIFO
  channels with disconnects that drop messages, an invariant over all its runs, which steps lose a report, and
  that what is reported of a process is how it ended (`ProtocolTruth`).
- **Journal, save and recovery** (the `Crash...` and `Journal...` files, `StateSaver` and `ReplayFilter`): what is
  on disk at any crash and over any number of restarts, what is replayed, and the reserved space.
- **The scheduler** (`SchedState`, `SchedSteps`, `SchedRun` and the `Sched...` files beside them): the daemon's
  steps as functions on one record of tables, and properties of all runs of those steps. `Daemon` is the same
  daemon as an object changed in place, each method proved equal to its step and every handler to keep the
  invariants of the tables. What each step does to a job, and what must hold of a job for it to be sent, is said
  once more without the step functions (`SchedView`, `SchedStarts`, `SchedParked`), and `SchedLink` ties the tables
  to the conversation with the agent. `DeferredList` is the linked list, `JobIds` the id search, `TagIndex`,
  `TagCommands` and `TagView` the tag index, `QueueAcl` the access rules.
- **Text** (`Decimal`, `Formats`, the `Json...` and `State...` files): writers and parsers on buffers, their round
  trips, some of the texts spelled out, and texts that other clients write.

Where a promised property does not hold of the code, the code is modelled as it is, a lemma gives a failing
input or run, and another states the condition under which the property holds. The scheduler's runs assume of
agent messages (`SchedRun.MessageFits`) only that no start report and no recon item that reports a job alive
names a job that is deleted or deferred; any job may be reported as ended. The conversation with one agent
guarantees it (`SchedRecon.ProtocolMessagesFit`), and the tables stay consistent if and only if it holds
(`SchedRun.RunningKeepsTablesIff`). Times, the matching
of wildcard patterns, the outcome of spawning a process, the success of a disk extension and the arrival of
messages are parameters or events.

## Model

| member | source | states |
|---|---|---|
| `Protocol.OneProcessPerJob` | src/jers_agentd.c:1363-1423 | In every run of the daemon and an agent over FIFO channels with arbitrary disconnects, a job has at most one live process, and a job the scheduler may start has no start, process or report outstanding |
| `Protocol.ReportsMatchRecords` | src/command_agent.c:255-354 | Whatever report the daemon reads next fits its record: a start report names a sent, pending job, a completion a sent, running or UNKNOWN one, a recon as not ended only such jobs, and none of them is deleted |
| `Protocol.RunKept` | src/sched.c:242-296 | The session phases and the per-job invariant hold in every reachable state of the conversation |
| `Protocol.SessionKept` | src/command_agent.c:34-76 | Every step keeps the five phases of a session: each handshake message is in flight in exactly one of them |
| `Protocol.JobKept` | src/jobs.c:212-220 | Every step keeps, for every job, what start messages, processes and reports may coexist with its record |
| `Protocol.DropDoneJob` | src/jers_agentd.c:1606-1623 | Dropping ended jobs on the acknowledgement keeps exactly the processes |
| `ProtocolLoss.NoCompletionLost` | src/jers_agentd.c:1117-1157 | While both sides are connected every job the daemon holds started or running has something that will still report it, in every run in which no process that a recon names alive is reaped before the acknowledgement |
| `ProtocolLoss.ReapInReconIsLostIff` | src/jers_agentd.c:1126-1128 | After any such run, when a process is reaped between a recon and its acknowledgement and both are read, its end is lost for good if and only if the recon named it alive |
| `ProtocolTruth.EndsAreTold` | src/jers_agentd.c:1117-1157 | Beside a record, made from the events alone, of how each process ended or failed to start: in every run, every ended list entry, recon item and completion of a job carries that outcome, and a job is COMPLETED only if its last process succeeded, EXITED only if it failed, could not be started or a user declared it over |
| `ProtocolTruth.EndsAreRecorded` | src/command_agent.c:208-354 | After any run, when the daemon reads of the end of a job, in a completion or in a recon, its record becomes COMPLETED if the process succeeded and EXITED if it failed or could not be started |
| `ProtocolTruth.ReconciliationIsExact` | src/jers_agentd.c:1489-1623 | An agent that comes back settles every job it lists in one exchange: RUNNING if its process lives, COMPLETED or EXITED as it ended, any other job as it was; exactly the ended entries are forgotten and starts may be sent |
| `ProtocolStarts.StartsAreAnswered` | src/jers_agentd.c:1363-1409 | In every run, while both sides are connected, a job sent and unanswered has its start, its start report or its completion on the way; once nothing is on the way and the agent is reconciled, no job is unanswered and every process is that of a RUNNING job |
| `ProtocolCover.CoveredInAllRunsIff` | src/agent.c:136-160 | Over all runs, a job the daemon takes for sent, running or UNKNOWN is borne out by a start, a list entry or a completion at every moment if and only if no step drops its last trace: a start or completion unread or written when a connection closes, or an unreported end forgotten on an acknowledgement |
| `ProtocolCover.StepCoversIff` | src/jers_agentd.c:1117-1157 | The same for each single step |
| `ProtocolCover.LostForGood` | src/jobs.c:212-220 | A job of which nothing is left stays sent, running or UNKNOWN with nothing left of it in every run, until a user settles it |
| `ProtocolWitness.CompletionCanBeLost` | src/jers_agentd.c:1611-1615 | A reachable state in which the daemon holds a job RUNNING and nothing about it exists anywhere |
| `ProtocolWitness.ReportCanGoDownWithConnection` | src/agent.c:136-160 | A reachable state with a reconciled agent in which a job is UNKNOWN and nothing about it exists anywhere |
| `ProtocolWitness.ReconCanNameAnyAsEnded` | src/jers_agentd.c:1606-1623 | For every policy a recon can be delivered that names as ended a job in any waiting state, a deleted one, or one no longer in the table |
| `ProtocolWitness.ResolvingFreelyDoublesProcess` | src/command_job.c:837-839 | When users restart UNKNOWN jobs freely, a state with two live processes of one job is reachable |
| `AgentSide.JobList.StartCommand` | src/jers_agentd.c:1363-1423 | The agent lists and reports a spawned process, or reports a failure, as the protocol step does |
| `AgentSide.JobList.SendEnd` | src/jers_agentd.c:1117-1157 | An end is reported and unlisted, or kept in the list while disconnected or in recon |
| `AgentSide.JobList.ReconCommand` | src/jers_agentd.c:1489-1600 | The recon names every listed job as it stands |
| `AgentSide.JobList.ReconComplete` | src/jers_agentd.c:1606-1623 | The walk over the list drops exactly the ended jobs |
| `CrashConsistency.CrashConsistent` | src/state.c:925-1157 | In every interleaving of updates, saves, crashes and restarts, a clean object's file is as new as the last update that left it dirty, and every update journaled at or before the marker that left its object dirty is on disk |
| `CrashConsistency.RunKept` | src/state.c:484-549 | The invariant of objects, child, marker and records holds over all runs, also while a restart replays |
| `CrashSave.ForkIsSaved` | src/state.c:1126-1147 | When the child of a save is done, whatever happened meanwhile, every object that was dirty at the fork is on disk as it was then, and the mark, if made, stands at the last record of that moment |
| `CrashSave.ReferredAreWrittenFirst` | src/state.c:884-919 | At every crash, also in the middle of a save: if the file of an object is written, so are those of all objects dirty at the fork that are read before it, resources first and jobs last |
| `CrashSave.SavesAreNeededIff` | src/state.c:1045-1048 | In every run a save can be started if and only if none is at work, recovery is over and some object is dirty |
| `CrashRestart.RestartReplaysAll` | src/state.c:484-549 | Whatever follows a restart, exactly as many replays come first as records stand behind the marker, and only after the last of them can anything be created, updated or saved |
| `CrashRestart.ReplayIsInOrder` | src/state.c:508-529 | The k-th replay works on the k-th record behind the marker and changes no other object |
| `CrashRestart.ReplayedIsSafe` | src/state.c:508-529 | What a replay makes dirty is, as long as the object exists, dirty, in the hands of a save or on disk at that revision or a later one |
| `CrashLoss.UpdateSurvivesIff` | src/state.c:1843-1855 | For every store and run, a journaled update whose object is not dirtied again is on disk once a save has moved the marker past its record if and only if it left the object dirty |
| `CrashLoss.CleanUpdateIsLost` | src/jobs.c:201-210 | An update that leaves its object clean is in no file and in no child's hands until a later update sets the dirty bit, over all runs, crashes and restarts |
| `CrashLoss.NonDirtyingRecordCanBeLost` | src/command_job.c:880-894 | A run in which the marker does pass such a record |
| `CrashConsistency.SaveListMembers` | src/state.c:1062-1114 | A save takes exactly the dirty objects of the kinds flagged dirty |
| `StateSaver.Saver.UpdateObject` | src/state.c:1843-1855 | Raises the revision and, if dirtying, the object's and its kind's flag, as the store step does |
| `StateSaver.Saver.Collect` | src/state.c:1062-1114 | The loop over one table collects its dirty objects in order and turns dirty into flushing |
| `StateSaver.Saver.StartSave` | src/state.c:1045-1126 | Starting a save is the store's save step |
| `StateSaver.Saver.Reap` | src/state.c:938-1030 | The end of a save clears the flushing marks, and a failed one makes its objects dirty again |
| `JournalRecovery.CheckForLastCommit` | src/state.c:343-371 | The offset behind the last marked line of a journal, or -1 exactly when no line is marked |
| `JournalRecovery.ReplayJournal` | src/state.c:444-474 | Replays from an offset every record of a journal in order, skipping closing lines and padding |
| `JournalRecovery.StateReplayJournal` | src/state.c:484-529 | Recovery replays exactly the records behind the last mark of all journals, in order and once each, or all of them when none is marked |
| `JournalRecovery.AfterLastMarkSplits` | src/state.c:508-520 | What is replayed is a suffix without marks whose predecessor is marked, or everything |
| `JournalRecovery.ReplayedAreUnmarked` | src/state.c:417-438 | No replayed record starts with the mark |
| `JournalRoundTrip.RecoveryOfWritten` | src/state.c:271-341 | For journals as the daemon writes them, with reserve and closing lines, recovery yields exactly the texts of the records written after the last committed one |
| `ReplayFilter.Replay` | src/command_job.c:782-787 | The loop passes what the filter specification passes and ends with the revision it says |
| `ReplayFilter.PassesIff` | src/commands.c:52-80 | For every journal, a modification passes if and only if its revision exceeds the saved one by more than one and the number of replayed commands that took effect before it |
| `ReplayFilter.OnlyFirstModIsDroppedIff` | src/state.c:1477-1480 | For every journal made after the file was saved, recovery drops nothing or exactly the first modification, the latter if and only if its revision is the one that loading and the commands replayed before it reach |
| `ReplayFilter.NothingAboveIsDroppedIff` | src/state.c:1477-1480 | For every journal, also one that reaches back behind the file, recovery drops no modification above the saved revision if and only if the first of them is ahead of what loading and the unfiltered commands before it reach; what it drops otherwise is a prefix of them |
| `ReplayFilter.TagThenModIsLost` | src/command_job.c:1132-1158 | For every saved revision, a modification right after a tag command is dropped |
| `ReplayFilter.FilterDropsPrefix` | src/commands.c:369-403 | For modifications only, with increasing revisions, the filter drops exactly the prefix at or below the loaded revision and passes the rest once, in order |
| `ReplayFilter.NothingOwedIsDroppedIff` | src/state.c:1824-1841 | For modifications only, also of a journal that reaches back behind the file, none above the saved revision is dropped if and only if none carries the revision right after it |
| `ReplayFilter.FirstModAfterSaveIsLost` | src/state.c:1843-1844 | For every saved revision, the next modification is dropped |
| `ReplayFilter.RefusedRequestNeverPasses` | src/commands.c:191-196 | A record of a refused request, revision 0, never passes |
| `JournalReserve.Journal.Extend` | src/state.c:129-183 | An extension adds one block, two the first time, and puts the limit one block before the end; failure leaves both. Read-only mode for want of space is entered and left so, never that for a failed save |
| `JournalReserve.Journal.SaveEnded` | src/state.c:946-966 | The end of a save enters and leaves read-only mode for a failed save, never that for want of space |
| `JournalReserve.Journal.OpenExisting` | src/state.c:218-242 | A reopened journal starts behind its last record with the limit one block before the end of the file |
| `JournalReserve.Journal.FirstRecord` | src/state.c:281-331 | The first record of a new or reopened journal ends with more than one block reserved behind it |
| `JournalReserve.Journal.AppendAll` | src/state.c:295-331 | So does every later record, for any sequence of records shorter than a block |
| `JournalReserve.Journal.AppendWithoutSpace` | src/state.c:295-331 | With the disk full, a block's worth of records still lands in allocated space |
| `SchedCounters.CounterAfter` | src/state.c:1730-1822 | A change of state takes one off the server's counter of the old state, adds one to that of the new, and changes no other |
| `SchedCounters.QueueCounterAfter` | src/state.c:1824-1841 | The same for the counters of each queue, also when the job changes queues |
| `Daemon.StepSound` | src/state.c:1824-1841 | Every step, of any kind, keeps the table, the deferred list, the pool and the counters of all but the two final states consistent with each other |
| `Daemon.Tables.ChangeState` | src/state.c:1824-1841 | The whole effect of changeJobState on the tables |
| `Daemon.Tables.CheckRes` | src/resource.c:56-63 | True exactly when every need by itself is still free |
| `Daemon.Tables.AllocateRes` | src/resource.c:66-69 | Adds the needs of a job to what is in use and changes nothing else |
| `Daemon.Tables.DeallocateRes` | src/resource.c:72-79 | Returns the needs of a job, clamped at zero, and changes nothing else |
| `Daemon.Tables.ReleaseDeferredJobs` | src/sched.c:122-139 | The walk over the deferred list is the release step and keeps the tables consistent |
| `Daemon.Tables.GenerateCandidatePool` | src/sched.c:143-185 | The rebuilt pool is the sorted pending jobs; every write into the array is within the size allocated |
| `Daemon.Tables.Gather` | src/sched.c:169-177 | The array holds exactly the pending undeleted jobs in table order |
| `Daemon.Qsort` | src/sched.c:179-179 | All that is used of the library sort: an ordered permutation |
| `Daemon.Tables.Schedule` | src/sched.c:192-304 | One call of checkJobs is the schedule step and keeps the tables consistent |
| `Daemon.Tables.TestSlot` | src/sched.c:236-282 | The tests in source order accept exactly the startable slots |
| `Daemon.Tables.SendStart` | src/sched.c:284-296 | Starting a job allocates, flags and counts it |
| `Daemon.Tables.SubmitJob` | src/jobs.c:166-199 | Adding a job, or refusing it, is the add step and keeps the tables consistent |
| `Daemon.Tables.ModifyJob` | src/command_job.c:751-951 | The checks, edits and state logic of a modification are the modify step and keep the tables consistent |
| `Daemon.Tables.RemoveJob` | src/jobs.c:201-210 | Deleting a job is the delete step and keeps the tables consistent |
| `Daemon.Tables.SignalJob` | src/command_job.c:1001-1014 | Signalling an UNKNOWN job ends it, returns its resources and keeps the tables consistent |
| `Daemon.Tables.JobStart` | src/command_agent.c:255-295 | A start report is the started step and keeps the tables consistent |
| `Daemon.Tables.JobEnd` | src/command_agent.c:336-354 | A completion report is the completed step and keeps the tables consistent |
| `Daemon.Tables.ReconMessage` | src/command_agent.c:172-253 | Stops exactly when an item names a missing job, and otherwise is the recon step and keeps the tables consistent |
| `Daemon.Tables.MarkJobsUnknown` | src/jobs.c:212-220 | The loop makes every running or sent job of the agent UNKNOWN |
| `Daemon.Tables.AgentLost` | src/agent.c:136-160 | Losing an agent is the disconnect step and keeps the tables consistent |
| `Daemon.Tables.CleanupOne` | src/jobs.c:110-137 | Refuses a dirty or flushing job, else removes it from table and pool, and keeps the tables consistent |
| `SchedRun.DeferredListInAllRuns` | src/jobs.c:192-206 | In every run the list holds exactly the undeleted jobs with a deferral, once each, in the order of their times; every DEFERRED job is listed, and a listed one is DEFERRED or has been reported as ended |
| `SchedRun.ReleaseIsExact` | src/sched.c:122-139 | Releasing makes PENDING exactly the listed jobs whose time has come, and changes no other |
| `SchedRun.RunBase` | src/state.c:1824-1841 | Every run keeps the table, the per-job flags and the list consistent |
| `SchedView.SubmitEffect` | src/command_job.c:540-560 | A submitted job gets its fields and is DEFERRED, HOLDING or PENDING by its deferral and hold; a refused one changes nothing; no other job changes |
| `SchedView.ModifyEffect` | src/command_job.c:751-951 | An accepted modification changes exactly the fields it names, and the state to DEFERRED, HOLDING, PENDING or none by deferral, hold and restart; a job left alone on hold stays on hold; a refused one changes nothing |
| `SchedView.DeleteEffect` | src/jobs.c:201-210 | Deletion marks the job, leaves it in no state and off the deferred list, and is counted |
| `SchedView.SignalEffect` | src/command_job.c:1001-1014 | A signal to an UNKNOWN job makes it EXITED and changes no other job |
| `SchedView.CleanupEffect` | src/jobs.c:110-137 | Exactly a deleted job that is neither dirty nor being flushed is removed |
| `SchedView.StartedEffect` | src/command_agent.c:255-295 | A start report makes the job RUNNING and answers its start |
| `SchedView.CompletedEffect` | src/command_agent.c:297-370 | A completion makes the job COMPLETED or EXITED and answers its start |
| `SchedView.ReconEffect` | src/command_agent.c:172-253 | After a recon each job is what the last item that speaks of it says, and as before if none does, and the agent is reconciled |
| `SchedView.AgentGoneEffect` | src/agent.c:136-160 | When an agent is lost exactly the jobs sent to it or running on it become UNKNOWN, its queues are stopped and it is logged out |
| `SchedView.LoginEffect` | src/command_agent.c:34-76 | A log-in links the queues of the host and leaves the agent to be reconciled |
| `SchedParked.ParkedUntilFreed` | src/command_job.c:788-793 | Over all runs, a job on hold is not sent and stays on hold until a modification lifts the hold or defers it, a deferred job until its time, unless it is deleted or an agent reports it |
| `SchedRun.RunningKeepsTablesIff` | src/command_agent.c:233-236 | A start report or an alive recon item keeps the tables consistent if and only if it names no job that is deleted or carries a deferral |
| `SchedDefer.InsertSplits` | deps/utlist.h:672-683 | An inserted job stands behind the strictly earlier and before all others |
| `SchedRecon.ProtocolMessagesFit` | src/command_agent.c:172-253 | Whatever message the conversation delivers next, after any of its runs, meets what the scheduler's runs assume, for tables with the same records |
| `SchedRecon.HandlersAgree` | src/command_agent.c:172-354 | The handlers change the job records exactly as the conversation's daemon does |
| `SchedLink.StartIsEnabled` | src/sched.c:264-301 | For tables and conversation that agree, every start the scheduler sends is one the conversation allows |
| `SchedLink.ScheduleIsConversation` | src/sched.c:192-304 | A whole call of the scheduler is a run of the conversation that sends starts, after which both agree again |
| `SchedLink.MessageAgrees` | src/command_agent.c:34-354 | Handling a message keeps records and agent flags in agreement with the conversation |
| `SchedLink.DisconnectAgrees` | src/agent.c:136-160 | Losing the agent does to its jobs what the conversation says, and nothing to the others |
| `SchedEnded.FineInAllRunsIff` | src/command_agent.c:227-231 | Over all runs, listed jobs are all DEFERRED throughout, and deleted jobs in no state, if and only if no completion or recon reports one of them as ended |
| `SchedEnded.StepKeepsFineIff` | src/command_agent.c:227-231 | The same for each single step |
| `SchedEnded.CountersExact` | src/state.c:1730-1841 | In every run in which no deleted job is reported as ended, every counter is the number of table jobs in that state |
| `SchedEnded.ListedAreDeferredInAllRuns` | src/jobs.c:192-206 | In every run in which no listed job is reported as ended, every listed job is DEFERRED |
| `SchedCounters.CountersInAllRuns` | src/state.c:1730-1841 | In every run each counter, of the server and of each queue, is the number of table jobs in that state plus the number of jobs removed in it, which is zero for all but COMPLETED and EXITED |
| `SchedCounters.QueueCountersAddUp` | src/state.c:1730-1822 | In every run the queues' counters add up to the server's |
| `SchedCounters.StepKeepsCounterIff` | src/jobs.c:110-137 | Every step keeps a counter exact if and only if it removes no job in that state |
| `SchedCounters.EndedItemKeepsCounterIff` | src/command_agent.c:227-231 | A recon item that reports a job as ended leaves a counter exact, once the job is saved and removed, if and only if the job was not deleted or ended in another state |
| `SchedCounters.ReportKeepsCounterIff` | src/command_agent.c:255-354 | A start report or a completion leaves a counter exact, once the job is saved and removed, if and only if the job was not deleted or the report puts it in another state |
| `SchedPool.PoolInAllRuns` | src/sched.c:143-185 | In every run the pool fits its allocation, names distinct jobs of the table, and holds every pending job unless due to be rebuilt |
| `SchedPool.RebuildFits` | src/sched.c:153-159 | The array allocated for the pool is large enough for every pending job before it is filled, stays as it is while all waiting jobs fit, and otherwise gets room for half as many again |
| `SchedPool.SortedOrdered` | src/sched.c:179-180 | The pool order is an ordered permutation |
| `SchedPool.OrderedPermutationIsUnique` | src/sched.c:39-55 | Whatever algorithm sorts, the result is the same |
| `SchedPool.CompareIsOrderIff` | src/sched.c:39-55 | The comparison agrees with queue priority, job priority, job id if and only if the deciding difference fits 32 bits |
| `SchedOrder.StepKeepsOrderIff` | src/state.c:1769-1822 | Every step keeps the waiting jobs of the pool in the order of their current priorities, or the pool due to be rebuilt, if and only if it makes no two of them change places by a priority changed in place |
| `SchedOrder.OrderInAllRunsIff` | src/sched.c:179-181 | The same throughout every run |
| `SchedOrder.HighestFirstInAllRuns` | src/sched.c:234-301 | In every such run, whenever a pass starts a job, no job of the whole table that could be started at that moment ranks higher |
| `SchedStarts.ScheduleSends` | src/sched.c:192-304 | Whatever job a call sends was PENDING and unsent, its queue open and below its limit, the system not full, its agent logged in and reconciled, and each need free; nothing is sent at capacity or read-only, and nothing else about any job changes |
| `SchedStarts.ChangedQueueRules` | src/command_queue.c:340-353 | After a change of a queue a call sends a job of it only if the queue is open by that change and within the new limit; nothing else of any queue, job or counter changes |
| `SchedStarts.ChangedResourceRules` | src/command_resource.c:187-213 | After a change of a resource a call sends a job that needs it only within the new count; what is in use stays as it was |
| `SchedStarts.NothingLeftBehind` | src/sched.c:213-301 | A call that sends fewer jobs than the maximum leaves room for leaves no job of the table of which all that holds |
| `SchedStarts.HigherRankFirst` | src/sched.c:39-55 | No call sends a job and leaves one behind that could still be sent and has a higher queue priority, or the same and a higher priority of its own, or the same of both and a lower id |
| `SchedPass.NoOvertaking` | src/sched.c:234-301 | No job is started while an earlier slot could be started |
| `SchedPass.PassIsWorkConserving` | src/sched.c:234-301 | A pass that does not use up its quota leaves no startable slot |
| `SchedPass.CheckJobsIsWorkConserving` | src/sched.c:192-304 | The same for the whole call |
| `SchedPass.NegativeNeedBreaksWorkConservation` | src/resource.c:66-69 | With a negative need a pass ends with a startable slot and starts left |
| `SchedLimits.LimitsInAllRuns` | src/sched.c:247-256 | In every run without recon, without lowered limits and with start reports only for jobs that were sent, each queue keeps running plus unanswered starts within its limit, the system within one above its own, and every unanswered start is counted |
| `SchedLimits.ReconKeepsLimitIff` | src/command_agent.c:233-236 | A recon of a live job keeps its queue within the limit if and only if the job was running or sent or there was room |
| `SchedLimits.StartReportKeepsLimitIff` | src/command_agent.c:281-283 | So does a start report |
| `SchedLimits.StartKeepsSystemLimitIff` | src/sched.c:247-250 | A start keeps running plus unanswered starts within the system limit if and only if they were below it |
| `SchedLimits.ScheduleKeepsSystemLimit` | src/sched.c:192-211 | A whole call of checkJobs that finds no start unanswered keeps the system within its limit |
| `SchedLimits.UnknownKeepsSentIff` | src/jobs.c:216-217 | Losing an agent keeps the count of unanswered starts exact if and only if the job's start was answered |
| `SchedLimits.CompletionKeepsSentIff` | src/state.c:1800-1816 | So does a completion if and only if the start was answered or the job failed |
| `SchedWitness.ReconExceedsLimit` | src/command_agent.c:233-236 | A run that ends with a queue over its limit |
| `SchedWitness.RunningExceedsSystemLimit` | src/sched.c:247-250 | A run with two running jobs under a system limit of one |
| `SchedWitness.LowerRankCanStartFirst` | src/command_job.c:847-851 | A run in which a priority is raised after the pool was built and the next pass starts the other job first |
| `SchedWitness.DeferredJobCanBeEnded` | src/command_agent.c:227-231 | A run in which a job restarted with a deferral is reported as ended a second time and is COMPLETED and still listed |
| `SchedWitness.RemovedJobStaysCounted` | src/command_agent.c:227-231 | A run that ends with no job and one counted as COMPLETED |
| `SchedResources.DeallocateUndoesAllocate` | src/resource.c:66-79 | Returning what was just taken restores every resource |
| `SchedResources.StepConserves` | src/sched.c:258-288 | Every step that meets the stated conditions for a resource keeps what is in use of it equal to the needs of the jobs sent, running or UNKNOWN |
| `SchedCapacity.ResourcesInAllRuns` | src/resource.c:56-79 | In every such run what is in use is exactly that sum, between zero and what there is |
| `SchedCapacity.ClampNeverFires` | src/resource.c:72-79 | In every such run returning a holder's needs never meets the clamp |
| `SchedCapacity.StartTestIsSafeIff` | src/resource.c:56-63 | The start test never overcommits if and only if no resource is asked for in two positive amounts |
| `SchedCapacity.ReconFinishKeepsIff` | src/command_agent.c:227-231 | Ending a holder through recon conserves a resource if and only if it needed none of it or its start is unanswered |
| `SchedCapacity.DeletionKeepsIff` | src/jobs.c:201-210 | So does deleting a holder |
| `SchedCapacity.RemovalKeepsIff` | src/jobs.c:110-137 | Removing a deleted job conserves a resource if and only if it holds none of it |
| `SchedCapacity.NeedsChangeKeepsIff` | src/command_job.c:896-911 | Changing the needs of an UNKNOWN job without restart conserves a resource if and only if it needs as much of it as before |
| `SchedCapacity.CompletionKeepsIff` | src/command_agent.c:336-337 | A completion of a job that holds nothing conserves a resource if and only if the job needed none of it or none was in use |
| `SchedCapacity.RevivalKeepsIff` | src/command_agent.c:233-236 | A start report or an alive recon item for a job that holds nothing conserves a resource if and only if the job needs none of it |
| `DeferredList.List.Prepend` | deps/utlist.h:624-634 | Pointer surgery puts a node in front and keeps the links |
| `DeferredList.List.AppendElem` | deps/utlist.h:803-819 | Links a node in behind another and keeps the links |
| `DeferredList.List.LowerBound` | deps/utlist.h:672-683 | The last node before the first that is at least as late |
| `DeferredList.List.Insert` | deps/utlist.h:656-667 | As a sequence of jobs the linked list grows as the list specification says |
| `DeferredList.List.Remove` | deps/utlist.h:706-723 | Unlinks exactly one node |
| `DeferredList.List.ReleaseDue` | src/sched.c:122-139 | The walk unlinks exactly the nodes that are due |
| `JobIds.TriedIsEveryId` | src/jobs.c:45-47 | The search tries first the ids above the start in ascending order, then those from 1 up to it, each once |
| `JobIds.SearchEndsIff` | src/jobs.c:57-63 | The search ends if and only if an id is free, no deleted job is refused, or a removable one with an id in range precedes the fifth refused |
| `JobIds.Allocator.CleanupJobs` | src/jobs.c:142-164 | Removes the deleted jobs among the first visited that are not refused, counting all visits |
| `JobIds.Allocator.GetNextJobID` | src/jobs.c:40-66 | Returns the least free id above the old start if there is one, else the least free id of all, moves the start there and removes none but deleted jobs; 0 only if all are taken and no deleted job is left |
| `SchedDeleted.StepKeepsCountIff` | src/jobs.c:201-220 | A step keeps the count of deleted jobs equal to the number of jobs marked deleted if and only if it is not the loss of an agent that a deleted job was sent to |
| `SchedDeleted.CountInAllRunsIff` | src/jobs.c:110-140 | The same throughout every run |
| `TagIndex.LookupIsScan` | src/command_job.c:636-713 | After every sequence of adds, tag changes, removals and purges, and for all filters, the indexed lookup returns each job of the full scan once and no other |
| `TagView.LookupMeansAnswers` | src/command_job.c:611-713 | For every run, indexed tag and set of filters, a lookup returns a job if and only if the commands have left it unmarked in the table and the map of its keys to their last values answers each filter |
| `TagIndex.AddIsExactIff` | src/jobs.c:182-190 | A new job is indexed as a scan finds it if and only if none of its other values of the indexed tag has an entry |
| `TagIndex.ReplacingTagsIsExactIff` | src/command_job.c:888-894 | Replacing all tags keeps the index right if and only if the indexed value stays, or there was none and the new one has no entry |
| `TagCommands.TagStore.AddIndexTag` | src/tags.c:33-50 | Links a job into the entry of its value, creating it if needed |
| `TagIndex.DelIndexUnlinks` | src/tags.c:53-59 | Taking an indexed job out of its entry leaves it in no entry at all and its tags as they were |
| `TagCommands.TagStore.CommandSetTag` | src/command_job.c:1129-1155 | Sets the first tag with the key or appends one, and re-indexes |
| `TagCommands.TagStore.CommandDelTag` | src/command_job.c:1184-1206 | Removes the first tag with the key and its index link; reports whether there was one |
| `TagCommands.TagStore.CleanupIndexTag` | src/event.c:235-246 | Drops exactly the empty entries |
| `TagCommands.TagStore.GetJobs` | src/command_job.c:636-713 | The loops return what the lookup specification returns |
| `QueueAcl.AddQueuePermissions` | src/queue.c:55-83 | The loops fold the rules into the queue's permission table |
| `QueueAcl.OrderHasNoImpact` | src/default.conf:96-97 | For every order of the configured rules and every sort of them, a group has a permission if and only if a rule that matches the queue and names the group before any zero allows it, and none denies it so |
| `QueueAcl.OnlyAllowingRulesList` | src/queue.c:55-83 | A group stands in the table of a queue if and only if an allowing rule that matches names it |
| `QueueAcl.UnsortedRulesDiffer` | src/config.c:373-375 | Without the sort the order would matter |
| `QueueAcl.CheckQueueAcl` | src/queue.c:88-112 | Root and queue admins pass; others exactly when their groups together cover the request and one is listed |
| `Decimal.Write` | src/common.c:254-291 | Writes the decimal notation in place |
| `Decimal.ReadInt` | src/json.c:504-527 | Reads a sign and a run of digits |
| `Decimal.ReadUndoesNotation` | src/json.c:504-527 | What was written is read back, whatever non-digit follows |
| `JsonStrings.EscapeInto` | src/json.c:39-80 | Writes the escaped string and a terminator, within twice the length |
| `JsonStrings.UnquoteUndoesEscape` | src/json.c:438-502 | Reading undoes escaping for every string and whatever follows |
| `JsonStrings.ReadString` | src/json.c:438-502 | Unescapes in place up to the closing quote, writing behind the reader, leaving the rest of the buffer alone |
| `JsonObjects.GetObjectOf` | src/json.c:369-418 | For a body of complete tokens the object read is the body, and what follows is left |
| `JsonObjects.ReadObject` | src/json.c:369-418 | Finds the closing brace in place and overwrites nothing else |
| `JsonObjects.StringIsNeutral` | src/json.c:386-394 | Braces and quotes inside a string that does not end in a backslash do not disturb the search |
| `JsonWriter.Buffer.AddStringArray` | src/json.c:153-193 | Appends a field of strings |
| `JsonWriter.Buffer.AddMap` | src/json.c:220-265 | Appends a field of pairs |
| `JsonWriter.Buffer.EndObject` | src/json.c:294-307 | The last comma makes way for the brace |
| `JsonWriter.Buffer.WriteRequest` | src/fields.c:571-589 | The buffer ends with the printed request |
| `JsonRoundTrip.LoadOfPrinted` | src/fields.c:341-434 | A printed request loads as its command, version and fields up to the first missing string |
| `JsonRoundTrip.RoundTripIff` | src/json.c:448-456 | It loads as all its fields if and only if no string but the last is missing |
| `JsonRoundTrip.LoadFieldsOf` | src/fields.c:448-534 | Printed fields are read back in order by name and type |
| `JsonResponses.LoadOfResponse` | src/fields.c:537-565 | A printed named response, such as a recon, loads as its name, version and items, each up to its first missing string |
| `JsonResponses.ResponseRoundTripIff` | src/fields.c:591-625 | It loads as all its items if and only if no string of an item but its last is missing |
| `JsonBackslash.OneStringLoadsIff` | src/json.c:386-391 | A request with one string field loads if and only if the string does not end in a backslash |
| `JsonSlashes.SimpleLoadsIff` | src/json.c:386-394 | A request of numbers, booleans, strings and string arrays without braces loads whole if an even number of its strings end in a backslash, and is refused otherwise |
| `JsonKeys.PairSurvivesIff` | src/json.c:246-256 | A pair of a map comes back if and only if its key, which is printed as it is, holds no quote and no backslash |
| `JsonBlanks.BlanksBeforeValue` | src/json.c:438-456 | Spaces and tabs in front of any value are passed over |
| `JsonBlanks.NameInAnyCase` | src/fields.c:448-470 | A field is found by its name with letters in lower case, and whatever blanks stand before its value |
| `StateFile.UnescapeUndoesEscape` | src/common.c:62-107 | Reading undoes escaping for every string |
| `StateFile.UnescapeInPlace` | src/common.c:110-132 | The in-place loop leaves the unescaped text |
| `StateFile.EscapeIsOneLine` | src/common.c:62-107 | An escaped string holds no newline and no tab |
| `StateLines.ReadJobFile` | src/state.c:1289-1372 | The loop over the lines loads what the file specification says |
| `StateRoundTrip.SaveThenLoadIff` | src/state.c:601-643 | Name, shell, commands, outputs and arguments survive save then load; each environment string if and only if it holds no backslash, each tag if and only if its key holds no tab and no backslash |
| `StateRoundTrip.TagSurvivesIff` | src/state.c:639-643 | A tag's line reads back as the tag if and only if its key holds no newline, tab or backslash |
| `StateRoundTrip.EnvSurvivesIff` | src/state.c:632-637 | An environment string's line reads back as it if and only if it holds no newline and no backslash |
| `Formats.RequestText` | src/fields.c:571-589 | A request goes out as the text spelled out, around whatever fields |
| `Formats.ValueTexts` | src/json.c:39-151 | A negative number, a switch, a missing string and one with all four escapes are printed as spelled out |
| `Formats.LineTexts` | src/state.c:601-643 | Lines of a job file with an escaped name, an argument, a count and its entries, and a tag are as spelled out |
| `Formats.JournalText` | src/state.c:271-341 | A journal with a covered record, one to be replayed, the closing line and the reserve is as spelled out |

## Left out

- Sockets, polling, process adoption, logging, email, accounting, authentication and the command line tools.
- Hash table internals, memory management and buffer growth: tables are maps with an order, buffers grow.
- Queue and resource files, numeric fields of job files, usage figures, pend and fail reasons, email states.
- Recovery of running jobs in the scheduler model: a replayed start report also allocates resources.
- Deletion of queues and resources, and the load of the tables at startup.
- Responses named RESP and error messages: `load_message` tells them apart from other messages, no more is modelled. Alerts.
- Wrap-around of job ids beyond 32 bits and of times beyond 64 bits.
- The terminator missing from a full list of rule groups.
- Protocol.OneProcessPerJob: jobs are restarted or signalled only while their agent is reconciled and no exit status is outstanding, active jobs are not deleted and the daemon does not crash; without the second condition it fails, as `ProtocolWitness.ResolvingFreelyDoublesProcess` shows.
- SchedRecon.ProtocolMessagesFit: one agent. When a job whose end one agent has not seen acknowledged is restarted in a queue of another, the first agent's recon reports it as ended while the second runs it; the user may then delete or defer it, and the second agent's next recon names it alive, which the runs of the scheduler do not cover.
- ProtocolLoss.ReapInReconIsLostIff: both messages are read, so no connection closes in between, and the recon names no job missing from the table, which would stop the daemon.
- CrashConsistency.CrashConsistent: a file write is one step, writes reach the disk in the order they are made, and no child outlives its daemon. A record that a replay skips carries no promise from then on; which are skipped is the subject of `ReplayFilter`.
- CrashSave.SavesAreNeededIff: a save that is not started because the journal cannot be extended on a full disk, and the switch that turns saving off, are not part of the model.
- ReplayFilter.OnlyFirstModIsDroppedIff: the file is older than every record; journals that reach back behind the file are the subject of `ReplayFilter.NothingAboveIsDroppedIff`.
- SchedCapacity.ResourcesInAllRuns: over runs whose steps keep the resource, with needs that are not negative and name a resource once, and resources that are not reduced; what each of the steps left out does is stated by the six lemmas ending in `KeepsIff` beside it.
- SchedStarts.ChangedQueueRules: moving a queue to another host is left out, and so are its description, nice value and being the default.
- Daemon.Tables.GenerateCandidatePool: each rebuild fills a fresh array of the recorded size; that the source reuses one array and grows it with realloc is not modelled.
- Daemon.Tables.ModifyJob: name, nice value, environment and tags of a modification are left out, and the flag that clears the resources; removing all needs is modelled as setting none.
- JournalReserve.Journal.AppendAll: a record is written in one step, without interrupted or partial writes.
- JobIds.Allocator.GetNextJobID: the count of deleted jobs is taken to be right; when it is, is `SchedDeleted.CountInAllRunsIff`.
- TagCommands.TagStore.CommandSetTag: the test that the key is printable is left to the caller.
- Decimal.ReadInt: the digits have to fit 64 bits, beyond which the source's arithmetic is undefined.
- JsonRoundTrip.LoadOfPrinted: strings that end in a backslash and map keys with a quote or a backslash are excluded here; what becomes of them is `JsonSlashes.SimpleLoadsIff` and `JsonKeys.PairSurvivesIff`. Parsing of whole messages is modelled on values; the in-place parts are `JsonStrings.ReadString` and `JsonObjects.ReadObject`.
- JsonRoundTrip.RoundTripIff: excludes the same strings and map keys.
- JsonRoundTrip.LoadFieldsOf: excludes the same strings and map keys.
- JsonResponses.LoadOfResponse: excludes the same strings and map keys.
- JsonResponses.ResponseRoundTripIff: excludes the same strings and map keys.
- JsonKeys.PairSurvivesIff: stated of the text inside the braces of a map with one pair; such a key can also upset the search for the closing brace.
- JsonBackslash.OneStringLoadsIff: one string field, with any characters; several strings are the subject of `JsonSlashes.SimpleLoadsIff`.
- JsonSlashes.SimpleLoadsIff: maps, missing strings and strings with braces are excluded; braces that the search takes to be outside quotes would count.
- StateLines.ReadJobFile: strings, arguments, environment and tags of a job file; its numeric fields, its queue name and its resources are left out.
- StateRoundTrip.SaveThenLoadIff: environment strings and tag keys hold no newline, behind which the file would go on with lines of their making, and no environment string ends in a lone backslash; what a newline does to the entry itself is `StateRoundTrip.EnvSurvivesIff` and `StateRoundTrip.TagSurvivesIff`. A missing tag value is written as an empty one and loads as such.
- StateFile.UnescapeInPlace: a lone backslash at the end is excluded, where the source reads past the text.
