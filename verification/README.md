# Manager for Lustre: a verified model of its stateful cores

This project models the parts of the Integrated Manager for Lustre whose
correctness is decided over whole runs: the job scheduler's locks, the versioned
log of configuration parameters, the agent messaging protocol, the copytool event
handler, the alert history, the corosync planning, the dependency trees, the
cancellable action invocation and two small text and data routines.  Everything is
written in Dafny 4.11 and proved; nothing is executed.

Concurrent code is modelled as a step system: a state, the actions that can happen
next, and runs as sequences of states.  Each action is what one thread does between
two points where another can interfere: holding the TX lock, one database query, one
`save()` of a whole row, one agent call.  Code that updates objects in place is a
class whose methods are proved against functions on values, and the theorems are
about those functions.

## What is proved

**Jobs and locks** (`JobLocks`, `JobSchedule`, `JobCancellation`, `JobThreads`).  A job
waits only for the newest writer of each object it reads, and for that writer and the
readers since if it writes.  From an empty schedule, two running jobs never hold clashing
locks.  That is false once a pending job is cancelled while it waits: three writers in a
row, with the middle one cancelled, let the third run beside the first.  A schedule is
safe for ever exactly if every two clashing unfinished jobs are queued one behind the
other, and a cancellation is harmless exactly if that order does not pass through the
cancelled job alone.  Cancelling a running job frees its locks while its thread goes on:
threads never clash exactly if no lingering thread is of a job with locks.  Nor is there
needless waiting: in any run a job just admitted is ready at once exactly if its explicit
dependencies are complete and it clashes with no unfinished job.

**Configuration parameters** (`ConfParamApply`, `ConfParamPlans`, `ConfParamOpen`,
`ConfParamReplay`, `ConfParamOverlap`, `ConfParamRuns`, `ConfParamStore`).  A batch raises the version of the
MGS, reads it back and saves its records one by one, outside any transaction.  An apply
job replays what is newer than the applied version.  The central law is that a completed
job leaves every parameter of a live object at its newest record and every other key as
it was, over every run of batches, object creations and deletions, resets of the applied
version, and batches and jobs cut off anywhere.  It is false in two ways, and for each
the exact condition is proved.  A job planned while a batch is half saved can stamp the
batch's version, and the rest is never applied: planning is safe exactly if, whenever
there is a live record to apply, no batch can still read that version, and every unsaved
record up to it is what the newest saved record, or else the MGS, already says.  (Two
batches that read back one version must also not differ on a parameter.)  And jobs of one
MGS can overlap, since the API queues one per change: planning beside any number of jobs
in flight is safe exactly if each has no parameter left to write and, unless it is
complete, no live parameter has had two values up to the version it will stamp.  What a
job plans is also told by the records alone: when every newer record is of a deleted
object it stores 0, and everything is applied again.

**Agent messages** (`AgentMessages`, `AgentTraffic`, `AgentPolling`, `AgentBarrier`).  Over
any POSTs and resets, which session a plugin has, which messages are forwarded and what is
queued for the agent is told by the events alone.  What successive
holders of the TX lock took, followed by the queue, is what was ever sent; an answer is
the barrier-free content of its own piece; a GET never passes a barrier of another agent
run.  A POST sends its barrier and its create response separately, and the response lies
behind that barrier exactly if no other POST's barrier came between.  A barrier keeps
everything behind it from older agent runs exactly if none of their GETs is queueing for
the TX lock when it is sent: one that already holds the lock is stopped by the barrier,
which then is gone when the next one comes.  The end of a session is reported to the
services exactly if it was not a reset of its plugin that took it away.

**Copytool events** (`Copytool`, `CopytoolRows`).  The handler keeps the operation objects it has
loaded while registrations cancel rows behind its back.  Each event is shown to keep
the invariant (distinct FIDs stand for distinct unfinished operations, each operation
ended at most once, a finishing time exactly on ended ones) exactly if it is *good*, a
condition on the tables before it: no registration under another identifier comes upon
tracked operations of this copytool, and an operation named explicitly is unfinished and
tracked nowhere else.  A batch keeps it throughout exactly if each event is good at its
turn.  Good or not, a batch adds one row per start, which agrees with that event ever
after.

**Alerts** (`AlertHistory`, `AlertRaces`, `CommandAlert`).  The history encodes the
signal: it can be read back from the rows.  Under interleaving, at most one row is ever
active, but closed rows can change: two lowers that overlap both write, and the first
end is lost.  However the requests in flight go on, closed rows are safe exactly if the
lowers in flight agree.  A command has one alert record over all its saves, active
exactly while the command is incomplete if and only if completion is never undone.
Casting the record does not touch its severity, so failed and cancelled commands keep
the severity of a running one, contrary to the documentation of `notify`
(`chroma_core/models/alert.py:167-170`).

**Corosync** (`Corosync`, `PortChange`).  Peers are exactly the known hosts on the same
port; no port gets two clusters exactly if the first peer listed is always usable; a
host is added through one that has joined, whichever peer is listed first, exactly if
every earlier configuration on the port succeeded (the port is remembered before the
agent is asked).  The port-change plan is shown to do what it says on a model of the
firewalls.

**Dependencies** (`Dependencies`, `Filesystem`), **action invocation**
(`ActionInvocation`), **NIDs** (`Nid`) and **scan aggregation** (`Stratagem`) are
described row by row below.  In `ActionInvocation` a cancel request can overtake the
start request it refers to; the state from which that is no longer possible is exact.

## Model

| member | source | states |
|---|---|---|
| `JobLocks.LockCache.Add` | chroma_core/services/job_scheduler/lock_cache.py:56-71 | the two lists and four tables go on holding exactly the held locks, with the new one added |
| `JobLocks.LockCache.RemoveJob` | chroma_core/services/job_scheduler/lock_cache.py:41-54 | exactly the locks of the job are gone from all lists and tables, and their number is returned |
| `JobLocks.LockCache.GetLatestWrite` | chroma_core/services/job_scheduler/lock_cache.py:79-89 | the write lock of the newest other job on the object, or none exactly if there is none |
| `JobLocks.LockCache.GetReadLocks` | chroma_core/services/job_scheduler/lock_cache.py:91-92 | exactly the read locks of other jobs from the given one on |
| `JobLocks.LockCache.CreateDependencies` | chroma_core/services/job_scheduler/command_plan.py:199-248 | a job waits exactly for its explicit dependencies and for the holders of a lock on a wanted object, that lock or the wanted one being a write, that no newer write lock on the object follows; readers never wait for readers |
| `JobLocks.WaitsForNewestClashes` | chroma_core/services/job_scheduler/command_plan.py:199-248 | the same of the set of awaited jobs, told by the fields of the locks alone |
| `JobLocks.AwaitedDirectlyOrThroughWriter` | chroma_core/services/job_scheduler/command_plan.py:199-248 | for every clashing lock the new job waits for its holder or for a newer writer of the object |
| `JobSchedule.AdmittedIsBehind` | chroma_core/services/job_scheduler/command_plan.py:199-248 | although it waits only for the newest ones, an admitted job is queued behind every unfinished job it clashes with |
| `JobSchedule.AdmittedWaitsFor` | chroma_core/services/job_scheduler/command_plan.py:199-248 | an admitted job waits exactly for its explicit dependencies and for unfinished jobs with a clashing lock on an object no newer unfinished job writes |
| `JobSchedule.StartsAtOnceExactlyWhen` | chroma_core/services/job_scheduler/job_scheduler.py:447-461 | in any run, cancellations included, a job just admitted is ready at once if and only if its explicit dependencies are complete and it clashes with no unfinished job |
| `JobSchedule.RunKeepsOrdered` | chroma_core/services/job_scheduler/job_scheduler.py:447-461 | in every run, of two clashing unfinished jobs the newer is queued behind the older |
| `JobSchedule.RunningJobsNeverClash` | chroma_core/services/job_scheduler/job_scheduler.py:509-529 | whatever is admitted and in whatever order jobs start, finish or are dropped at their turn, running jobs never hold clashing locks |
| `JobCancellation.UnorderedJobsCanClash` | chroma_core/services/job_scheduler/job_scheduler.py:447-461 | two clashing unfinished jobs that are not queued one behind the other can be brought to run together |
| `JobCancellation.SafeExactlyWhenOrdered` | chroma_core/services/job_scheduler/job_scheduler.py:447-461 | no run lets clashing jobs run together if and only if clashing unfinished jobs are queued one behind the other |
| `JobCancellation.CancelHarmlessExactlyWhen` | chroma_core/services/job_scheduler/job_scheduler.py:872-908 | in every run, cancelling a pending job is safe for ever if and only if no two clashing jobs rely on it alone for their order |
| `JobCancellation.CancellingABlockedJobBreaksExclusion` | chroma_core/services/job_scheduler/job_scheduler.py:872-908 | a concrete run, calm but for cancelling a waiting job, in which two writers of one object run together; the exact condition fails there |
| `JobCancellation.SomethingCanRun` | chroma_core/services/job_scheduler/job_scheduler.py:447-461 | while a job is unfinished, one no newer is running or ready: the queue never deadlocks |
| `JobThreads.ThreadsNeverClashExactlyWhen` | chroma_core/services/job_scheduler/job_scheduler.py:887-899 | at any point of any run, however the scheduler goes on, running threads never clash if and only if no thread that outlived its cancellation is of a job with locks |
| `JobThreads.CancelledWriterClashes` | chroma_core/services/job_scheduler/job_scheduler.py:270-281 | a concrete run: a running writer is cancelled, and another writer of its object starts beside its thread |
| `ConfParamApply.GetSteps` | chroma_core/models/conf_param.py:53-80 | nothing without a newer record; else every record of a live object is written, each at the place its predecessors leave it, and then a stamp, which is the highest version among them and 0 exactly if none is of a live object |
| `ConfParamApply.StampOkExactlyWhenSafe` | chroma_core/models/conf_param.py:53-80 | what a job planned now will stamp comes true, also of records still to be saved, if and only if the guard on the tables holds |
| `ConfParamApply.SafeRunKeeps` | chroma_core/models/target.py:383-397 | in every safe run, with batches saved record by record, the newest record up to the applied version is what the MGS holds, for live objects, saved or not |
| `ConfParamApply.CompletedJobConverges` | chroma_core/models/conf_param.py:17-80 | in every safe run a completed job has brought every parameter of a live object to its newest planned record, and left every other key alone |
| `ConfParamPlans.JobsPlanDue` | chroma_core/models/conf_param.py:53-80 | in any run, however jobs overlap, a job writes exactly the newer records of the objects that were live, oldest first, and stamps their highest version, 0 if all were deleted, nothing if none was newer |
| `ConfParamPlans.StampStores` | chroma_core/models/conf_param.py:62-72 | in any run the last step of a job stores the highest version it wrote, and 0 when every newer record was of a deleted object |
| `ConfParamPlans.AppliedAfterwards` | chroma_core/models/conf_param.py:62-72 | with one job at a time, once a job with newer records is through the applied version is the highest it wrote or 0, and 0 if every newer record was of a deleted object |
| `ConfParamPlans.DeletedIsNotWritten` | chroma_core/models/conf_param.py:65-70 | in any run a job planned after an object was deleted writes nothing of it |
| `ConfParamOpen.SafeExactlyWhen` | chroma_core/models/target.py:383-397 | after any step of safe operation, every job that completes from then on in calm operation converges if and only if the step's guard held: on planning while a batch is open, and on reading back a version |
| `ConfParamOpen.HalfSavedBatchIsLost` | chroma_core/services/job_scheduler/job_scheduler.py:678-687 | a concrete run: a job planned when one of two records is saved stamps their version, and the batch's own job completes without applying the other |
| `ConfParamReplay.ReplayGivesLatest` | chroma_core/models/conf_param.py:53-80 | replaying a log suffix leaves every parameter at its newest record |
| `ConfParamReplay.ReplayAgainChangesNothing` | chroma_core/models/conf_param.py:53-80 | replaying an already applied suffix gives the same map |
| `ConfParamReplay.IncrementalReplayRefinesFullReplay` | chroma_core/models/conf_param.py:53-80 | after any number of jobs a completed one leaves the MGS as one replay from version 0 would on live keys, and any suffix again changes nothing |
| `ConfParamOverlap.OutstandingWriteGoesStale` | chroma_api/utils.py:279-287 | while a job in flight has a parameter to write, another one can complete and leave a live parameter at an older value |
| `ConfParamOverlap.StampGoesStale` | chroma_core/models/conf_param.py:17-36 | if a live parameter had two values up to a stamp to come, a job cut off in between lets that stamp promise a value the MGS has lost |
| `ConfParamOverlap.OverlapHarmlessExactlyWhen` | chroma_core/services/job_scheduler/job_scheduler.py:678-687 | jobs planned beside any number in flight all converge if and only if each of those has no write left and, unless complete, no live parameter had two values up to its stamp |
| `ConfParamOverlap.TwoJobsLoseAValue` | chroma_api/utils.py:279-287 | a concrete run of two jobs in which the second completes and the newest value is gone |
| `ConfParamStore.GetLatestParams` | chroma_core/models/conf_param.py:114-130 | one row per key, the first of the highest version |
| `ConfParamStore.NewestIsFirst` | chroma_core/models/conf_param.py:114-130 | of several rows of the highest version the first counts |
| `ConfParamStore.Store.GetConfParams` | chroma_core/lib/conf_param.py:395-438 | the effective map: every possible key with its newest value, None without one |
| `ConfParamStore.AnswerByRows` | chroma_core/lib/conf_param.py:412-438 | for an MDT, an OST and a filesystem by row class: the keys are those possible or with rows, and a possible key with rows has the value of one of the highest version, any other None |
| `ConfParamStore.Store.NewRecords` | chroma_core/lib/conf_param.py:478-521 | one record for each parameter whose value differs, in its own table, all of the next version |
| `ConfParamStore.Store.SetConfParams` | chroma_core/lib/conf_param.py:478-521 | reading afterwards gives the old map overridden by the new one; the answer is positive exactly if a value differed |
| `ConfParamStore.DomainIsPossibleExactlyWhen` | chroma_core/lib/conf_param.py:395-438 | the answer has exactly the possible keys if and only if no row of the object is under a key no longer possible |
| `ConfParamStore.SetThenGet` | chroma_core/lib/conf_param.py:395-521 | get after set is the old map overridden by the new one |
| `ConfParamStore.SettingAgainWritesNothing` | chroma_core/lib/conf_param.py:478-521 | setting the same map again writes no record |
| `ConfParamStore.SetLeavesOthersAlone` | chroma_core/lib/conf_param.py:478-521 | the parameters of other objects stay |
| `AgentMessages.FilterValidMessages` | chroma_agent_comms/views.py:240-260 | the memoised filter keeps exactly the messages of the plugins' current sessions, in order |
| `AgentMessages.WhatSurvivesTheFilter` | chroma_agent_comms/views.py:240-260 | a termination notice survives exactly if its plugin has no session, a create response exactly while its session is current |
| `AgentMessages.FilterSplits` | chroma_agent_comms/views.py:240-260 | the filter works on each piece of the list by itself, so it keeps the order and each message as often as it came |
| `AgentMessages.WithoutBarriersSplits` | chroma_agent_comms/views.py:301-337 | so does leaving the barriers out |
| `AgentMessages.HostLink.Post` | chroma_agent_comms/views.py:163-238 | a message in another host's name refuses the whole POST; otherwise all are handled in order, which the rows on received messages say event by event |
| `AgentMessages.PostGoesOn` | chroma_agent_comms/views.py:188-236 | a POST is its messages received one after the other, so what holds of every history holds of POSTs |
| `AgentTraffic.LinkFollowsEvents` | chroma_agent_comms/views.py:188-236 | over any POSTs and resets, by the events alone: a data message in session is forwarded and nothing else; one out of session adds one termination notice for its plugin and nothing else; a create request adds the barrier of its run and then the response with the new session, ends the old one upstream and starts the new |
| `AgentTraffic.ForwardedOnceInOrder` | chroma_agent_comms/views.py:189-212 | exactly the data messages that came while their plugin had a session they name or leave open are forwarded, each once and in order |
| `AgentTraffic.OpenExactlyWhen` | chroma_core/services/http_agent/sessions.py:32-121 | a plugin has a session if and only if it requested one that no later request and no reset ended |
| `AgentMessages.HostLink.Get` | chroma_agent_comms/views.py:263-342 | undisturbed, a foreign barrier ends the GET empty-handed and leaves the rest queued; otherwise it answers exactly the queued messages of current sessions, in order, and if a reset is due and plugin None has no session the notice to end all sessions comes first |
| `AgentMessages.HostLink.Reset` | chroma_core/services/http_agent/sessions.py:63-84 | the plugin's session is gone and only the agent is told |
| `AgentMessages.HostLink.ResetAll` | chroma_core/services/http_agent/sessions.py:96-121 | all sessions of the host are gone, each reported to the services and then to the agent |
| `AgentMessages.EndIsReportedExactlyWhen` | chroma_core/services/http_agent/sessions.py:32-121 | over any POSTs and resets, a session ever started was reported upstream as ended if and only if it is not current and no reset of its plugin took it away |
| `AgentMessages.ResetSessionIsNotReported` | chroma_core/services/http_agent/sessions.py:63-84 | a concrete history in which a session ends and is never reported |
| `AgentPolling.NothingIsLostOrReordered` | chroma_agent_comms/views.py:301-337 | at every point of every run, what successive lock holders took, one after the other, followed by the queue, is what was ever sent |
| `AgentPolling.TakenOnce` | chroma_agent_comms/views.py:301-337 | each message sent was taken by exactly one GET or is still queued |
| `AgentPolling.AnswerIsItsOwnPiece` | chroma_agent_comms/views.py:275-342 | an answer holds exactly the messages of then current sessions in the GET's own contiguous piece, in order, behind the notice to end all sessions if a reset was due; the piece holds no foreign barrier |
| `AgentPolling.NoticeOnlyIfSent` | chroma_agent_comms/views.py:285-299 | without a reset an answer tells the agent to end all sessions only if that message was sent and taken by this GET |
| `AgentPolling.AnsweredByTheTable` | chroma_agent_comms/views.py:339-342 | what is answered is of the sessions at the moment of answering |
| `AgentPolling.ForeignMessagesOnlyPastARemovedBarrier` | chroma_agent_comms/views.py:301-337 | what a GET took from behind a barrier of another agent run it took after another GET had removed that barrier |
| `AgentPolling.ForeignBarrierCancels` | chroma_agent_comms/views.py:301-337 | on a foreign barrier the GET answers nothing, gives up the lock and leaves everything behind queued in order |
| `AgentPolling.ResponsesAreSentByPosts` | chroma_agent_comms/views.py:209-236 | every create response ever queued was sent by a POST |
| `AgentPolling.OwnBarrierGovernsExactlyWhen` | chroma_agent_comms/views.py:209-236 | however sends interleave, a create response has its POST's barrier before it, and it is the last barrier before it if and only if no other POST sent one between the two sends |
| `AgentPolling.PostsCanSwapBarriers` | chroma_agent_comms/views.py:225-236 | a concrete run of two POSTs in which a create response lies behind the other one's barrier |
| `AgentBarrier.WaitingZombieSpoilsProtection` | chroma_agent_comms/views.py:301-337 | if an older run's GET is queueing for the lock, some run answers it with what follows the barrier: the create response, or a message to the session that has replaced it |
| `AgentBarrier.BarrierProtectsExactlyWhen` | chroma_agent_comms/views.py:213-236 | a barrier just sent protects everything behind it from older runs if and only if none of their GETs is queueing for the lock |
| `AgentBarrier.SecondZombieGetsTheResponse` | chroma_agent_comms/views.py:213-236 | a concrete run of two hanging GETs in which the second is answered with the new run's create response |
| `Copytool.EventKeepsInvariantExactlyWhenGood` | chroma_agent_comms/views.py:85-149 | any event keeps the batch invariant if and only if it is good on the tables before it: a registration that cancels comes upon no tracked operation of this copytool, and an explicit operation is unfinished and tracked under no other FID |
| `Copytool.BatchKeepsInvariantExactlyWhenGood` | chroma_agent_comms/views.py:85-149 | the invariant holds after every event of a batch if and only if each was good at its turn |
| `Copytool.NamedOperationIsWritten` | chroma_agent_comms/views.py:115-149 | an event that names an operation writes that row and no other: what it says, and the rest stays, field by field; its FID stands for the operation exactly until it ends; an unknown operation changes nothing |
| `Copytool.StartAddsARow` | chroma_core/models/copytool.py:203-207 | a start that names none adds one row with the event's type, path, FID and time, of this copytool, started, with no progress, end or info, and changes no other |
| `Copytool.TrackedOperationIsWritten` | chroma_agent_comms/views.py:124-149 | any other event writes the operation under its source FID, which moves to its data FID; with none there, nothing changes |
| `Copytool.RegistrationWrites` | chroma_core/models/copytool.py:184-218 | a registration under another identifier ends exactly the unfinished operations of this copytool, as failed and now, and leaves all else of every row |
| `CopytoolRows.BatchAddsStarts` | chroma_agent_comms/views.py:86-145 | any batch adds exactly one row per start, numbered in order, and no row goes or becomes another operation |
| `CopytoolRows.StartedRowAgrees` | chroma_agent_comms/views.py:119-123 | after any batch the row of a start has its type, path, FID and time, whatever came after |
| `CopytoolRows.AddedRowHasAStart` | chroma_agent_comms/views.py:119-123 | every row a batch added is that of one of its starts |
| `CopytoolRows.RegistrationFollowsEvents` | chroma_agent_comms/views.py:89-113 | after any batch the identifier is that of the last registration, or none if unregistered since; an operation event registers an unknown one if the copytool was not started |
| `Copytool.ReregistrationEndsAnOperationTwice` | chroma_core/models/copytool.py:184-218 | a concrete batch in which a new registration and an end event both end one operation |
| `Copytool.EventHandler.CancelCurrentOperations` | chroma_core/models/copytool.py:212-218 | exactly this copytool's unfinished operations are ended as errored, once each |
| `Copytool.EventHandler.RegisterCopytool` | chroma_core/models/copytool.py:184-196 | a different non-empty identifier cancels the current operations first |
| `Copytool.EventHandler.Post` | chroma_agent_comms/views.py:85-149 | the loop ends in the world of the batch, whose rows the rows above describe, and answers its FIDs with their operations |
| `AlertHistory.HistoryEncodesSignal` | chroma_core/models/alert.py:179-269 | at the time of every notification the rows show the alert raised if and only if the notification said so; active if and only if the last one did |
| `AlertHistory.EdgesAreCounted` | chroma_core/models/alert.py:179-269 | rows closed are the true-to-false edges and rows added the false-to-true edges, from any table |
| `AlertHistory.AlertTable.Raise` | chroma_core/models/alert.py:204-239 | adds one open row if the item is live and none is active, and returns the active row |
| `AlertHistory.AlertTable.Lower` | chroma_core/models/alert.py:241-269 | closes the active row and no other, and leaves none active |
| `AlertHistory.AlertTable.Notified` | chroma_core/models/alert.py:179-187 | a notification is the raise or the lower of the history, and returns the row it raised, found or closed |
| `AlertHistory.AlertTable.RegisterEvent` | chroma_core/models/alert.py:271-275 | adds one row that ends when it begins, fails exactly on a deleted item, and ends an open row at its beginning |
| `AlertRaces.AtMostOneActiveAlways` | chroma_core/models/alert.py:21-54 | in every interleaving of checks, inserts, reads and saves at most one row is active |
| `AlertRaces.UninterruptedIsSequential` | chroma_core/models/alert.py:204-269 | a raise or lower that nothing interrupts is the sequential operation |
| `AlertRaces.StepKeepsClosedRowsExactlyWhen` | chroma_core/models/alert.py:249-253 | a step changes a closed row if and only if it saves a lower whose row was closed at another time since it was read |
| `AlertRaces.HistoryIsSafeExactlyWhen` | chroma_core/models/alert.py:249-253 | however the requests in flight go on, closed rows never change if and only if the lowers in flight agree |
| `AlertRaces.OverlappingLowersRewriteHistory` | chroma_core/models/alert.py:249-253 | a concrete run in which the end written by one lower is overwritten by another |
| `CommandAlert.OneAlertPerCommand` | chroma_core/models/command.py:107-155 | over any saves there is one command alert: running while incomplete, then errored, else cancelled, else successful by the last flags; opened by the first save and closed by the first save of the completed command only |
| `CommandAlert.ActiveExactlyWhileIncomplete` | chroma_core/models/command.py:107-155 | after every save the alert is active exactly if the command is incomplete, if and only if completion is never undone |
| `CommandAlert.SeverityIsDefaultExactlyWhen` | chroma_core/models/alert.py:277-293 | the alert has its own type's severity if and only if the command is not complete with an error or cancellation |
| `CommandAlert.Command.Store` | chroma_core/models/command.py:107-155 | finding or raising the alert, casting it and lowering it is one update of one record |
| `CommandAlert.Command.Completed` | chroma_core/models/command.py:200-210 | the flags are set and saved |
| `Corosync.PeerPorts.CorosyncPeers` | chroma_core/models/corosync2.py:72-108 | the peers are exactly the other hosts remembered on the port, and each has its port in the database or was remembered and not deleted for good |
| `Corosync.KnownExactlyWhen` | chroma_core/models/corosync2.py:82-98 | another host is remembered afterwards if and only if a row has its port, the newest winning, or it was remembered before and was not deleted without being added again |
| `Corosync.PeerPorts.ChooseActioningHost` | chroma_core/models/corosync2.py:163-192 | the host itself only if there is no peer or one whose state is neither managed nor packages_installed, else a peer in one of these states; fails on an unknown one |
| `Corosync.PeersAreTheHostsOnThePort` | chroma_core/models/corosync2.py:163-219 | in every run of first-time configurations the peers are the known hosts on the port, and the cluster is created exactly if there is none or the first is unusable |
| `Corosync.OneClusterPerPortExactlyWhen` | chroma_core/models/corosync2.py:163-219 | no port is given two clusters if and only if every configuration that finds peers finds the first one usable |
| `Corosync.UnusablePeerMakesTwoClusters` | chroma_core/models/corosync2.py:180-192 | a concrete run of two hosts that both create a cluster on one port |
| `Corosync.AddedThroughAMemberExactlyWhen` | chroma_core/models/corosync2.py:72-108 | whichever peer is listed first has joined, if and only if every earlier configuration on the port succeeded |
| `Corosync.FailedPeerIsAskedToAdd` | chroma_core/models/corosync2.py:97-98 | a concrete run in which a host is added through one whose configuration failed |
| `PortChange.GetSteps` | chroma_core/models/corosync2.py:373-399 | the host is given the commands for the cluster, first and last, and the two loops put the firewall changes and restarts of the peers in between |
| `PortChange.PlanMovesTheCluster` | chroma_core/models/corosync2.py:373-399 | the plan opens the new port and closes the old unless equal on each peer and nothing else, restarts each once in maintenance mode after all of that, and ends maintenance |
| `Dependencies.NewDependOn` | chroma_core/lib/job.py:48-81 | acceptable are exactly the preferred state, those given, or all but those excluded; both lists fail |
| `Dependencies.PreferredStatesSatisfy` | chroma_core/lib/job.py:47-138 | objects in the preferred states of their leaves satisfy any tree |
| `Dependencies.PreferredStatesExistExactlyWhen` | chroma_core/lib/job.py:22-29 | there are such states if and only if leaves on the same object agree |
| `Dependencies.SatisfiedExactlyWhenChosen` | chroma_core/lib/job.py:114-138 | a tree is satisfied if and only if all leaves of one of its choices are acceptable, a choice taking all objects of a DependAll, one of a DependAny, and nothing of an empty one |
| `Dependencies.ConjunctionIsItsLeaves` | chroma_core/lib/job.py:114-123 | a tree of DependAll only is satisfied if and only if every leaf is |
| `Filesystem.SplitUndoesJoin` | chroma_core/lib/util.py:54-62 | a label is split into name, type and hexadecimal index at its last dash, whatever the name holds |
| `Filesystem.OtherLabels` | chroma_core/lib/util.py:54-62 | a label without a dash has only a type; one whose index is missing or not in base 16 is an error |
| `Filesystem.HexIsReadBack` | chroma_core/lib/util.py:62 | reading an index undoes writing it in base 16, in either case |
| `Filesystem.LeadingZeros` | chroma_core/lib/util.py:62 | leading zeros do not change an index |
| `Filesystem.MountDeps` | chroma_core/models/filesystem.py:223-230 | one dependency per target that is not a spare MDT, in order; a malformed label fails |
| `Filesystem.StartDeps` | chroma_core/models/filesystem.py:217-230 | with a ticket, its grant alone; without, the dependencies of the targets |
| `Filesystem.StopDeps` | chroma_core/models/filesystem.py:256-266 | without a ticket, one dependency per MDT and OST |
| `Filesystem.StartMeans` | chroma_core/models/filesystem.py:179-191 | start is satisfied if and only if every target but MDTs of non-zero index is mounted |
| `Filesystem.StopMeans` | chroma_core/models/filesystem.py:256-266 | stop is satisfied if and only if no MDT or OST is mounted |
| `Filesystem.StartAndStopTogetherExactlyWhen` | chroma_core/models/filesystem.py:179-266 | both can hold at once if and only if there is neither a first MDT nor an OST |
| `ActionInvocation.ExitIsFaithful` | chroma_core/lib/util.py:312-351 | a normal exit is exactly what the worker was answered, content or failure; a cancellation was asked for and sent once, with the id of the single start; exits are final |
| `ActionInvocation.NeverStartedAfterCancelExactlyWhen` | chroma_core/lib/util.py:325-346 | no run sends the start after its own cancellation if and only if the worker has tried to send it, or the cancellation failed unsent |
| `ActionInvocation.ExitIsReachable` | chroma_core/lib/util.py:270-309 | from every state the caller can still exit |
| `Nid.NormalizeIsIdempotentExactlyWhen` | chroma_core/lib/util.py:215-226 | normalising twice is normalising once if and only if there is at most one underscore |
| `Nid.NormalizeIs` | chroma_core/lib/util.py:215-226 | normalising takes the first underscore away and adds a zero unless a digit ends the text or stands before its final newline |
| `Nid.TypeLengthIs` | chroma_core/models/nid.py:59-61 | the lazily matched type ends where the digits begin, or is one character |
| `Nid.SplitIgnoresRest` | chroma_core/models/nid.py:57-58 | what follows a second '@' is ignored, and without one splitting fails |
| `Nid.SplitUndoesPrintExactlyWhen` | chroma_core/models/nid.py:35-65 | splitting undoes printing for exactly the canonical identifiers |
| `Nid.FormsAgreeExactlyWhen` | chroma_core/models/nid.py:35-65 | printing the split identifier equals normalising it if and only if it has no underscore, no final newline and no lone digit for a network |
| `Stratagem.AggregatePoints` | chroma_core/lib/stratagem.py:133-147 | one output per distinct counter, in some order, each its sorted and reduced group |
| `Stratagem.GroupSplits` | chroma_core/lib/stratagem.py:133-147 | a group keeps the order of its points, and each as often as it came |
| `Stratagem.AggregationConservesTotals` | chroma_core/lib/stratagem.py:133-147 | counts and sizes of the outputs add up to those of the inputs |
| `Stratagem.OutputDescribesItsGroup` | chroma_core/lib/stratagem.py:139-147 | an output has its counter's totals and the other fields of the first among its latest points |

## Left out

- The scheduler's check of object states before a job starts: in the model a ready job may start or be dropped, whatever the check says. So the run in which a cancellation breaks exclusion is one whose jobs pass that check.
- The assertion that a write lock begins in the state the previous one ends in, the thread pool, step retries and notifications.
- Explicit dependencies between jobs of one command are taken as given sets of older jobs.
- `mgs.set_conf_params` with `new=False`, and parameter validation: keys are assumed to be possible for the object, as callers check.
- The stale write of the applied version by a step that saves an MGT object loaded earlier: stamps and resets are atomic in the model.
- `ConfParamStore.Store` handles one request at a time: that other requests read and save between a request's own queries is modelled in `ConfParamApply` only.
- Apply jobs in flight that are neither complete nor harmless, and several of them at once: the exact condition forbids them, and nothing is said of what they can still get right.
- Unit arithmetic of byte-sized parameters.
- Malformed JSON in POSTs, and crashes between the messages of one POST.
- `remove_host` of the session table, and sessions of other hosts, which a reset of a plugin takes away as well.
- In `AgentPolling` the session table may change to any other at any time; session numbers and upstream reports are modelled in `AgentMessages`.
- `AgentMessages.FilterValidMessages`: takes the session table as fixed during the call; in `AgentPolling` it may change before and after.
- Timeouts of a GET's first wait are not told apart from an empty queue.
- The order of copytool events of equal time, parsing of event types, and the uniqueness constraint on operations.
- Extra field filters and severities of single alerts, dismissal by users, end events, and `register_event` interleaved with itself.
- A user or another service that adds a second command alert to a command: the model has at most one at the start.
- Two auto-configurations on different ports that interleave inside `_corosync_peers`: a configuration is one step.
- The search for cliques that yields the peers of a cluster: peers are an input.
- Deleted objects among dependencies, and the fix-state cascade of the scheduler.
- Hexadecimal indexes with a sign, prefix, spaces or underscores, which Python's `int` would accept, count as malformed labels.
- Letters and digits outside ASCII in NIDs.
- Points of a scan without a counter, time, count or size.
- Registration, certificates, tokens, SSH deployment, the REST resources and the user interface.
