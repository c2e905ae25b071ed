# A verified model of the script dispatcher

A master process hands script tasks to worker processes, which run them on devices. Tasks, execution
records, device leases and retry counters live in several processes and must agree. This project models
that protocol in Dafny and proves what it keeps under every interleaving.

| file | models |
|---|---|
| `WorkerSelection.dfy`, `MasterModel.dfy` | the master as a state machine, one event per event-loop turn |
| `MasterInvariant.dfy`, `MasterTheorems.dfy`, `MasterReload.dfy`, `MasterWaiting.dfy` | single flight, admission order, draining, the ledger, device balance, reload, how long an item waits for a worker |
| `SendScriptMaster.dfy` | the master's methods, each proved to be the matching event |
| `TaskStore.dfy`, `ScriptTaskService.dfy` | handlers of reported outcomes, cancellations and deletions on tasks, records and device locks |
| `Lifecycle.dfy`, `SendScriptWorker.dfy` | the worker's run, the failure handler, the cancellation and the deletion, each cut at its awaits |
| `HandlerSteps.dfy` | the waiting handlers as steps of the life cycle |
| `LeaseOfRun.dfy` | the lease of a device from the lock over the record to the report |
| `FailingRuns.dfy` | tasks whose every run fails |
| `SchedulerSystem.dfy` | master and workers together |
| `RepeatedRuns.dfy` | runs of the whole system that collect records without end |
| `SpecialRuns.dfy` | runs of the whole system with a lost report, a revived task, or a load that misses a due task |
| `TimeoutSweep.dfy` | the paging timeout sweep |
| `Leases.dfy`, `RedisService.dfy` | leases with expiry over whole traces, and the lock client |
| `PulsarProcessor.dfy` | the retry processor of single Pulsar messages |
| `PercentCodec.dfy`, `Cookies.dfy` | the cookie header codec (section 4.2.1 of RFC 6265, section 2.1 of RFC 3986) |

The imperative parts are classes whose methods are proved against functions on values; the theorems are
lemmas about runs of those functions. A method that waits takes what others do meanwhile as a parameter
(`meanwhile`, `others`) and is proved for every value of it. In a master state `out` lists the tasks
assigned to a worker for which no Done has come, `lost` the items that never leave the sets (given up after
eleven waits without a ready worker, or done under a blank id), `admitted` and `handled` the past of the
two queues.

What the proofs show about the code, beyond what its own documentation says:

* A worker crash removes nothing from the master: the handler is called with an event object where it
  expects a worker id, so the dead worker stays listed and a fresh one is appended. The master's theorems
  hold with that behaviour.
* One timeout sweep does not fail every timed-out record: the skip advances while failed records leave the
  filter, so every second hundred survives. One sweep clears everything exactly up to a hundred records.
* A load leaves a due task out of the dedupe set exactly when a Done of it comes after its last arrival.
  That can happen while the task still waits and is due: its worker failed to lock the device.
* Canceling before the first execution is final exactly when no run has already loaded the task and no
  pending deletion read it before it was canceled. A deletion saves the whole task as it read it, so it can
  bring a canceled task back to waiting.
* A task gets at most four execution records, and more only in three ways: one for every run that breaks off
  between saving its record and saving its task, one for every step by which a failure handler moves the
  retry count when it writes back a count that changed after it was read, and as many as a deletion sets the
  task back when it saves an old copy. The first two can repeat without bound.
* An always failing task with retries runs four times if its first two failures were both reported by
  message, three times otherwise, because a failed send counts a retry and so does the next run. That holds
  unless a report is lost: a failure that is handled while the run is still sending is overwritten by the
  run's last save. Then the task stays sent for good, with its record failed and without a retry; neither the
  sweep nor the reload nor a cancellation reaches it.
* The order of outcomes matters only between successes and failures of a task: its last outcome decides,
  unless it was deleted or had failed for good.
* The cookie round trip is the identity exactly for maps without a cookie named `__proto__`.
* Leases exclude each other at every moment exactly when no release presents the key and token of another
  lease in force. The token formula (time plus process id plus a random number) does not guarantee that.
  Freeing a device by a batch rests on tokens that grow.

## Model

| member | source | states |
|---|---|---|
| WorkerSelection.SelectionIsFirstBest | src/modules/send-script-main/send-script-master.service.ts:240-264 | the two-phase choice (workers without the device, else a stable sort) always returns the first ready worker in list order minimising the pair (tasks of the device, all tasks), and only that one |
| WorkerSelection.SortHeadIsFirstBest | src/modules/send-script-main/send-script-master.service.ts:249-263 | the head of the sorted list is the first minimum of the comparator |
| MasterInvariant.ReachableInv | src/modules/send-script-main/send-script-master.service.ts:98-371 | every reachable state has each admitted id in exactly one place, handles in admission order, has a running loop for a nonempty queue and an accurate ledger |
| MasterInvariant.RunKeepsInv | src/modules/send-script-main/send-script-master.service.ts:98-371 | so has every state reached from one like that |
| MasterInvariant.StepKeepsInv | src/modules/send-script-main/send-script-master.service.ts:98-371 | each event-loop turn keeps that invariant, worker crashes included |
| MasterInvariant.DispatchKeepsInv | src/modules/send-script-main/send-script-master.service.ts:204-238 | an item in hand ends up assigned to a ready worker, asleep or undeliverable, never twice and never nowhere |
| MasterInvariant.DoneKeepsInv | src/modules/send-script-main/send-script-master.service.ts:272-299 | a Done undoes exactly one assignment in both sets and both counters |
| MasterWaiting.ElevenLooks | src/modules/send-script-main/send-script-master.service.ts:204-215 | whatever events come in between, the first of the eleven looks at an item (its taking and ten wake-ups) that finds a ready worker assigns it to one; while none does it waits on, and after eleven in vain the next turn gives it up |
| MasterWaiting.LostOnlyAfterEleven | src/modules/send-script-main/send-script-master.service.ts:204-215 | over all runs the loop gives an item up only if eleven looks at it in a row found no ready worker |
| MasterTheorems.SingleFlight | src/modules/send-script-main/send-script-master.service.ts:177-202 | over all runs the dedupe set is the disjoint union of fresh, queued, dispatching, assigned and lost ids, each once; the processing set is the last three |
| MasterTheorems.UnreachableBranches | src/modules/send-script-main/send-script-master.service.ts:179-182 | the branches for an id already processing and for an unexpected Done are never taken |
| MasterTheorems.FirstInFirstOut | src/modules/send-script-main/send-script-master.service.ts:152-175 | the admission history is handled ++ current ++ waitQueue ++ waitFreshQueue, and a nonempty waitQueue implies Processing |
| MasterTheorems.LoopDrains | src/modules/send-script-main/send-script-master.service.ts:152-215 | until more items are moved over, the loop ends with an empty queue and every item handled in order after so many of its turns, whatever arrives, gets done, comes online or dies between them |
| MasterTheorems.TurnDecreases | src/modules/send-script-main/send-script-master.service.ts:204-215 | every turn of the loop decreases (queue length, waits left) |
| MasterTheorems.LedgerAddsUp | src/modules/send-script-main/send-script-master.service.ts:226-231 | a worker's taskCount is its assigned-without-Done tasks and equals the sum of deviceTasks plus its tasks without device; nothing is negative |
| MasterTheorems.DeviceBalance | src/modules/send-script-main/send-script-master.service.ts:217-264 | with k workers ready from the start no worker ever holds more than the peak of outstanding tasks of a device divided by k, rounded up |
| MasterTheorems.EvenWithoutCompletions | src/modules/send-script-main/send-script-master.service.ts:217-264 | without completions and newly ready workers the counts of a device differ by at most one |
| MasterTheorems.AssignedToLeast | src/modules/send-script-main/send-script-master.service.ts:217-264 | whatever a step assigns goes to the first ready worker with the fewest assigned tasks of the device and then the fewest tasks, or the fewest tasks alone if the device is blank |
| MasterTheorems.CheckMoves | src/modules/send-script-main/send-script-master.service.ts:98-111 | a check puts every fresh item behind the queue, in order, and leaves a running loop |
| MasterReload.LoadIsComplete | src/modules/send-script-main/send-script-master.service.ts:113-137 | whatever turns come while the cursor moves and afterwards, every due task has arrived: it is in the dedupe set and in exactly one place, unless a Done of it came after its last arrival |
| MasterReload.InSetExactly | src/modules/send-script-main/send-script-master.service.ts:126-133 | an id that arrived is in the dedupe set exactly when no Done of it came after its last arrival |
| MasterReload.LoadAdmitsExactly | src/modules/send-script-main/send-script-master.service.ts:113-137 | with no other turns in between, an id is in the dedupe set after a load exactly when it was before or it is nonblank and stored with a task that waits, or waits for a retry, and fell due within the last 86400 seconds; only such tasks are admitted, with their devices |
| SpecialRuns.LoadCanMiss | src/modules/send-script-main/send-script-master.service.ts:123-137 | the exception is real: a waiting task that a load came by is due and not in the set when the load ends |
| MasterReload.LoadsLeaveNoGap | src/modules/send-script-main/send-script-master.service.ts:117-120 | with loads at most a day apart no due time falls between their windows |
| SendScriptMaster.SendScriptMasterService.constructor | src/modules/send-script-main/send-script-master.service.ts:57-69 | starts with the given number of workers, none ready, everything else empty |
| SendScriptMaster.SendScriptMasterService.CheckTask | src/modules/send-script-main/send-script-master.service.ts:98-111 | moving the fresh items in chunks of a hundred and starting the loop after each equals moving all and starting it once |
| SendScriptMaster.NextChunk | src/modules/send-script-main/send-script-master.service.ts:105-109 | a later chunk never changes what the loop did with the head of an earlier one |
| SendScriptMaster.SendScriptMasterService.DispatchToWorker | src/modules/send-script-main/send-script-master.service.ts:204-238 | the imperative dispatch on worker objects is the dispatch of the state machine |
| SendScriptMaster.SendScriptMasterService.SendWorker | src/modules/send-script-main/send-script-master.service.ts:177-188 | registers the id and dispatches, or drops an id already processing |
| SendScriptMaster.SendScriptMasterService.HandleLoop | src/modules/send-script-main/send-script-master.service.ts:152-175 | starts the loop only when it is not running |
| SendScriptMaster.SendScriptMasterService.ResumeLoop | src/modules/send-script-main/send-script-master.service.ts:159-165 | one continuation of the loop is one turn of the state machine |
| SendScriptMaster.SendScriptMasterService.TaskDone | src/modules/send-script-main/send-script-master.service.ts:272-299 | any Done, parsed or not, named or blank, expected or not, lowers exactly its counters and leaves exactly its id out of both sets; one that settles an assignment is the Done of the state machine |
| SendScriptMaster.SendScriptMasterService.UnregisterDone | src/modules/send-script-main/send-script-master.service.ts:272-299 | the worker has one task less; if the data parses, the device too, its entry gone when it has none left, and a nonblank id leaves both sets; nothing else changes |
| SendScriptMaster.SendScriptMasterService.WorkerOnline | src/modules/send-script-main/send-script-master.service.ts:267-270 | only the worker's readiness changes |
| SendScriptMaster.SendScriptMasterService.WorkerDead | src/modules/send-script-main/send-script-master.service.ts:305-329 | a crash only appends a fresh worker that is not ready |
| SendScriptMaster.SendScriptMasterService.ListenNotice | src/modules/send-script-main/send-script-master.service.ts:340-349 | a received id, blank or not, is admitted unless the dedupe set has it |
| SendScriptMaster.SendScriptMasterService.Turn | src/modules/send-script-main/send-script-master.service.ts:98-349 | every handler is the step of the state machine for its event |
| SendScriptMaster.SendScriptMasterService.LoadDelayScriptTaskData | src/modules/send-script-main/send-script-master.service.ts:113-137 | a load admits exactly the due tasks, in order, each in the turn in which its cursor meets it, with any turns of others in between; without such turns the dedupe set gains exactly the stored waiting tasks that fell due within the last day |
| TaskStore.FailuresCommute | src/modules/script-task/script-task.service.ts:385-440 | how failures are cut into batches, their order and repetitions make no difference to statuses and retry counts; the failure path never moves a retry count |
| TaskStore.SuccessesCommute | src/modules/script-task/script-task.service.ts:305-334 | the same for successes |
| TaskStore.HistoriesAgree | src/modules/script-task/script-task.service.ts:305-440 | two whole histories of messages of one kind that report the same records, in any order, batches and repetitions, end in the same statuses and retry counts |
| TaskStore.ReportsAreOne | src/modules/script-task/script-task.service.ts:305-440 | any number of messages of one kind amounts to one message with all their records |
| TaskStore.MixedHistory | src/modules/script-task/script-task.service.ts:305-440 | the status of any task after any mixed history: its last outcome decides, a deletion or an earlier failure for good apart |
| TaskStore.MixedOrderMattersExactly | src/modules/script-task/script-task.service.ts:305-440 | two histories with successes and failures of a task agree on it exactly when the same kind comes last or the task is deleted |
| TaskStore.HandlerAlone | src/modules/script-task/script-task.service.ts:385-440 | a failure handler that nobody interrupts is one batch |
| TaskStore.WriteBackKeepsCountIff | src/modules/script-task/script-task.service.ts:406-421 | a write-back keeps the stored retry fields exactly when the copy still agrees with them or is that of a failed task |
| TaskStore.FailTwice | src/modules/script-task/script-task.service.ts:385-440 | delivering a failure batch again changes no status, retry count or lock |
| TaskStore.SucceedTwice | src/modules/script-task/script-task.service.ts:305-334 | delivering a success batch again changes no status, retry count or lock |
| TaskStore.ForeignLeaseStays | src/modules/script-task/script-task.service.ts:340-368 | a device lock whose token no record of the batch carries is unchanged |
| TaskStore.ForeignLeaseOutlivesReports | src/modules/script-task/script-task.service.ts:340-368 | no history of successes and failures mixed frees a lease whose token none of its records carries |
| TaskStore.GrowingTokensFree | src/modules/script-task/script-task.service.ts:343-363 | if tokens grow per device, a batch holding the record of the lease in force frees the device |
| TaskStore.BatchFreesExactly | src/modules/script-task/script-task.service.ts:343-363 | a batch that holds a record of the lease in force frees the device if and only if none of its records carries a larger token for it |
| TaskStore.LargerStaleTokenKeepsLease | src/modules/script-task/script-task.service.ts:348-350 | so without growth a stale record with a larger token keeps a live ten-minute lease locked |
| ScriptTasks.ValidateAndCleanRecordIds | src/modules/script-task/script-task.service.ts:300-303 | the nonblank ids, each once, or none |
| ScriptTasks.LatestTokensFree | src/modules/script-task/script-task.service.ts:343-363 | releasing each device with its largest carried token frees exactly the devices whose live token is that one |
| ScriptTasks.ScriptTaskService.Create | src/modules/script-task/script-task.service.ts:61-110 | the initial state of a task, the two refusals, and which tasks are queued at once |
| ScriptTasks.ScriptTaskService.Cancel | src/modules/script-task/script-task.service.ts:245-293 | refused for missing and finished tasks; else, whatever others do during its awaits, the last record is marked canceled if it was found running, and the task if at the save it waits, runs or waits for a retry |
| ScriptTasks.ScriptTaskService.UpdateTaskSucByRecordIds | src/modules/script-task/script-task.service.ts:305-334 | every stored record with a nonblank id of the message becomes a success, every task that one of them belongs to too, nothing else changes but locks, and a record alone in its message frees the device whose lease in force it stands for; only the set of nonblank ids counts |
| ScriptTasks.ScriptTaskService.UpdateTaskFailByRecordIds | src/modules/script-task/script-task.service.ts:385-440 | whatever others do during its awaits, the outcome depends only on the set of ids, is computed from the records and tasks as read and written to them as they are then; uninterrupted, every record fails and every undeleted unfailed task of one gets a retry in five minutes while it was retried fewer than three times, else fails; a blank id among others fails without effect |
| ScriptTasks.ScriptTaskService.BuildFailSaves | src/modules/script-task/script-task.service.ts:396-424 | the saves built in the loop are all the ids and the copies of their unfailed tasks, whatever the order and repetitions |
| ScriptTasks.ScriptTaskService.SaveFailures | src/modules/script-task/script-task.service.ts:399-436 | what is written to a task comes from the copy that was read, its retry count included, and undeletes it: a retry in 300 seconds below three retries, else failure |
| ScriptTasks.SuccessFields | src/modules/script-task/script-task.service.ts:305-334 | what a batch of successes makes of every stored record and task, field by field |
| ScriptTasks.FailureFields | src/modules/script-task/script-task.service.ts:385-440 | what a batch of failures makes of every record and task, field by field: limit 3, retry after 300 s, deadline after 1800 s, an unknown record created |
| ScriptTasks.CancelFields | src/modules/script-task/script-task.service.ts:245-293 | what a cancellation makes of records and tasks, whatever others do during its awaits |
| ScriptTasks.ReportFrees | src/modules/script-task/script-task.service.ts:340-368 | a report of one record, of success or failure, frees the device whose lease in force it stands for |
| ScriptTasks.ScriptTaskService.SoftDelete | src/modules/script-task/script-task.service.ts:185-202 | refused for missing and deleted tasks; else, whatever others do in between, the whole task is saved as it was read, marked deleted |
| ScriptTasks.ScriptTaskService.BatchReleaseDeviceLocks | src/modules/script-task/script-task.service.ts:340-368 | removes exactly the locks whose live token is the largest that the records carry for the device |
| HandlerSteps.HandlerIsSteps | src/modules/script-task/script-task.service.ts:385-440 | the failure handler, with any events of the life cycle in its three awaits, is exactly its four steps in the life cycle |
| HandlerSteps.CancelIsSteps | src/modules/script-task/script-task.service.ts:245-293 | so is a cancellation, with any events in its awaits |
| HandlerSteps.DeleteIsSteps | src/modules/script-task/script-task.service.ts:185-202 | so is a deletion |
| Lifecycle.RetryBudget | src/modules/send-script-main/send-script-worker.service.ts:86-131 | over every run any task has at most four charged records (one without retries), retryCount at most 4, at most 3 while waiting for a retry, each plus the drift by which outdated copies set it back |
| Lifecycle.DriftGrowsExactly | src/modules/script-task/script-task.service.ts:406-421 | a step adds to the drift exactly when it writes an outdated copy back: a failure handler's moved count, a deletion's moved count or forgotten run |
| Lifecycle.PlainBudget | src/modules/send-script-main/send-script-worker.service.ts:86-131 | so without outdated write-backs the plain bounds hold: four records, retryCount 4 and 3, one record without retries |
| Lifecycle.ReadThenSave | src/modules/script-task/script-task.service.ts:391-436 | a handler or deletion that saves right after its read writes nothing outdated back |
| Lifecycle.StepKeepsInv | src/modules/send-script-main/send-script-handler.service.ts:75-104 | every step of runs, failure handlers, successes, cancellations, deletions and clients keeps the budget of every task |
| Lifecycle.RecordBudget | src/modules/send-script-main/send-script-worker.service.ts:92-107 | the records of a task number at most four, one more for each of its runs that broke off and one for each step of its drift |
| RepeatedRuns.BrokenRunsAreFree | src/modules/send-script-main/send-script-worker.service.ts:99-107 | in the whole system, with every retry due within the window of the next reload, runs that break off between record and task can collect any number of records while retryCount stays 0 |
| RepeatedRuns.OutdatedWritesAreFree | src/modules/script-task/script-task.service.ts:406-421 | so can runs whose retry a late write-back of an outdated copy undoes, without any run breaking off; the drift grows with them |
| Lifecycle.CanceledBeforeFirstRun | src/modules/script-task/script-task.service.ts:282-292 | a task canceled before its first record stays canceled without record forever, exactly when no run had loaded it and no pending deletion holds an older copy |
| SpecialRuns.CanceledRevives | src/modules/script-task/script-task.service.ts:185-194 | the second condition is needed: a canceled task that no run had loaded is executed after a deletion that read it before |
| SpecialRuns.DeletionRevives | src/modules/script-task/script-task.service.ts:185-194 | a task without retries gets two records when a deletion that read it before its run is saved after it |
| FailingRuns.AlwaysFailingRuns | src/modules/send-script-main/send-script-handler.service.ts:75-104 | over every run of the life cycle in which each run of the task fails once, reported at any time from its record on: records never exceed four (two first failures reported), three (otherwise) or one (no retries); outside a run the task has failed for good exactly when that many failures took effect; and it is stuck as sent exactly when a report was lost |
| FailingRuns.StuckForever | src/modules/send-script-main/send-script-worker.service.ts:117-120 | a task whose report was lost stays sent without a further record, whatever comes that names none of its records, cancellations and deletions included |
| SpecialRuns.ReportIsLost | src/modules/send-script-main/send-script-worker.service.ts:107-120 | such a run: a failure handled while the run is sending is overwritten, and the task is stuck after one record |
| FailingRuns.FailsAfter | src/modules/script-task/script-task.service.ts:413-421 | a sequence of failures ends in a failure for good exactly at that length |
| FailingRuns.StepTracks | src/modules/send-script-main/send-script-worker.service.ts:70-132 | every step keeps task, run, pending handlers and records as the failures so far say, and a task gets stuck exactly in a step that loses a report |
| SendScriptWorker.SendScriptWorkerService.RunTask | src/modules/send-script-main/send-script-worker.service.ts:70-132 | run writes what the steps of the life cycle write, up to the step that throws |
| SendScriptWorker.RunAloneIsRun | src/modules/send-script-main/send-script-worker.service.ts:70-132 | the uninterrupted run in closed form equals its steps |
| SendScriptWorker.RunFields | src/modules/send-script-main/send-script-worker.service.ts:70-132 | what a whole run writes, field by field: nothing unless the task waits, a given-up task without record if it waited too long, else a record with device, lease token and deadline, a counted retry, and sent, or failed with a retry in 300 s below three retries |
| SendScriptWorker.BrokenRunFields | src/modules/send-script-main/send-script-worker.service.ts:92-107 | a run that breaks off after its record leaves the task as it was, one that breaks off while sending leaves it running |
| LeaseOfRun.RecordCarriesLease | src/modules/send-script-main/send-script-worker.service.ts:39-97 | whatever happens between locking and recording, the device is locked for 600000 ms and the record of the run carries the device, the token of that lease and the task |
| LeaseOfRun.LeaseComesBack | src/modules/script-task/script-task.service.ts:305-440 | from the lock to the report: whatever happens in between, a success of that record, or a failure of it, handled alone while the lease is in force leaves the device unlocked |
| SendScriptWorker.SendScriptWorkerService.SetTask2RetryOrFail | src/modules/send-script-main/send-script-handler.service.ts:75-104 | judges by the run's copy, increments the stored counter: a retry in 300 seconds below three retries, else failure |
| SendScriptWorker.SendScriptWorkerService.HandelMessage | src/modules/send-script-main/send-script-worker.service.ts:39-68 | exactly one Done per parsed message whatever happens, none otherwise; the working count returns to what it was |
| SendScriptWorker.HandleThenSucceed | src/modules/send-script-main/send-script-worker.service.ts:39-132 | a message of a waiting task handled under a lease, then a success of its record reported in time: the task and the record are successes, the record holds the token and the device is free |
| SchedulerSystem.NoOverlap | src/modules/send-script-main/send-script-master.service.ts:177-202 | a task is in flight at a worker exactly while it is assigned, and at most once |
| SchedulerSystem.AssignedIsNew | src/modules/send-script-main/send-script-master.service.ts:177-238 | the master never assigns a task that is still in flight |
| SchedulerSystem.RetryBudget | src/modules/send-script-main/send-script-worker.service.ts:86-131 | the retry budget and the account of records in the whole system, nothing assumed about overlapping runs |
| TimeoutSweep.SendScriptHandlerService.CheckScriptTaskTimeOut | src/modules/send-script-main/send-script-handler.service.ts:212-283 | only records that were running with a deadline before ms / 1000 fail and only their tasks change; one sweep leaves exactly the odd hundreds of them, so up to a hundred all fail, and counts what it failed; a running sweep is not entered again |
| TimeoutSweep.SuccessSurvivesSweep | src/modules/send-script-main/send-script-handler.service.ts:219-271 | a task whose running records were all reported as successes is still a success after any later sweep |
| TimeoutSweep.SweepCounts | src/modules/send-script-main/send-script-handler.service.ts:227-271 | a sweep over n fails 100m + max(0, n - 200m) records with m = (n + 100) / 200, and leaves at most half |
| TimeoutSweep.SurvivorsByRank | src/modules/send-script-main/send-script-handler.service.ts:233-267 | which records survive, by rank |
| TimeoutSweep.OneSweepClearsIff | src/modules/send-script-main/send-script-handler.service.ts:227-271 | one sweep clears everything exactly when there are at most a hundred |
| TimeoutSweep.SweepsReachZero | src/modules/send-script-main/send-script-handler.service.ts:212-283 | repeated sweeps reach zero after logarithmically many passes |
| Leases.MutualExclusionExactly | src/database/redis.ts:245-312 | over any trace, at every moment all leases are disjoint, those in force are stored and the next acquisition is disjoint from them, if and only if no release presents the key and token of another lease in force |
| Leases.MutualExclusion | src/database/redis.ts:245-312 | which holds if no token repeats for a key |
| Leases.ReleaseKeepsBackingIff | src/database/redis.ts:281-303 | a release leaves every other lease in the store exactly when none in force on the key has the same token |
| Leases.ReusedTokenBreaksExclusion | src/database/redis.ts:249 | with a token used twice, a redelivered release lets two ten-minute leases of a device overlap |
| Leases.StaleReleaseIsNoOp | src/database/redis.ts:285-291 | a release changes the store exactly when its token is the live one |
| RedisLocks.RedisService.GetLock | src/database/redis.ts:245-279 | whatever other calls do during its sleeps: succeeds at the first attempt that finds the key free; at most round(timeout * 1000 / 300) + 1 attempts; on timeout it has changed nothing and slept within 150 ms of the request |
| RedisLocks.RedisService.RelLock | src/database/redis.ts:281-312 | deletes the key exactly when its live value is the presented token, answers 1 then and 0 otherwise, and drops the first list entry of the key on success |
| RedisLocks.GivenBackIsFree | src/database/redis.ts:281-312 | a release under the live token frees the key for the next attempt of anyone; any other changes nothing |
| RedisLocks.RedisService.AcquireDeviceLock | src/database/redis.ts:332-347 | a token exactly if some attempt found the device free; then business:lock:device_lock:<device> holds it for ttl seconds; none only after (timeout * 1000 + 150) / 300 + 1 attempts |
| RedisLocks.HeldLocksAreListed | src/database/redis.ts:260-301 | in every state that the turns of any overlapping calls reach, a lock the process still holds has its key in the list, despite stale duplicates |
| RedisLocks.TurnKeepsListed | src/database/redis.ts:260-301 | every turn keeps the keys of all entries the process set and did not delete in the list |
| RedisLocks.DropFirstKeepsOthers | src/database/redis.ts:298-301 | removing the first match never loses another key |
| PulsarProcessor.BoundedRedelivery | src/mq/pulsar/decorators/pulsar-consumer.ts:28-80 | each message is rejected at most maxRetries times and delivered at most once more; its waits never shrink nor exceed 30 s |
| PulsarProcessor.DelaysGrow | src/mq/pulsar/decorators/pulsar-consumer.ts:219-221 | back-off delays never decrease and are capped |
| PulsarProcessor.DelaysDouble | src/mq/pulsar/decorators/pulsar-consumer.ts:219-221 | the first delay is the configured one and each next is twice the last, up to 30 s |
| PulsarProcessor.RepliesExactly | src/mq/pulsar/decorators/pulsar-consumer.ts:28-80 | when a delivery is acknowledged, left to its handler, rejected with which delay, or discarded, in every case; a consumer that throws is never acknowledged below the limit |
| PulsarProcessor.MessageProcessor.ProcessMessage | src/mq/pulsar/decorators/pulsar-consumer.ts:28-80 | received = processed + failed and failed = retried + discarded + those whose final acknowledgement failed; stored attempts stay in 1..maxRetries |
| PulsarProcessor.MessageProcessor.HandleError | src/mq/pulsar/decorators/pulsar-consumer.ts:178-217 | retries below the limit with the right delay, else dead-letters and discards |
| Cookies.RoundTrip | src/utils/req-header-cookie.ts:7-27 | parsing what was printed gives back the map without a cookie named __proto__, for every enumeration order; the identity exactly without that name |
| Cookies.Request.Remove | src/utils/req-header-cookie.ts:37-43 | after removal the header parses to the old map minus the name; a malformed header throws and stays |
| Cookies.Parse | src/utils/req-header-cookie.ts:7-19 | the dictionary filled piece by piece, failing at the first malformed piece |
| Cookies.LaterPairCounts | src/utils/req-header-cookie.ts:13-18 | a pair appended to a header sets its name whatever stood there before, so of two equal names the later counts; __proto__ is ignored |
| Cookies.MissingValue | src/utils/req-header-cookie.ts:13-18 | a piece without equals sign is a cookie with an empty value |
| Cookies.SecondEquals | src/utils/req-header-cookie.ts:13-18 | what stands behind a second equals sign is dropped |
| Cookies.SplitJoin | src/utils/req-header-cookie.ts:13-26 | splitting undoes joining for parts without the separator's first character |
| PercentCodec.DecodeEncode | src/utils/req-header-cookie.ts:16-24 | percent-decoding undoes percent-encoding for every well-formed string |
| PercentCodec.SingleOctets | src/utils/req-header-cookie.ts:16-24 | which ASCII characters stand for themselves, and the two upper-case digits of every other; digits of either case are read |

## Left out

- Lifecycle.StepKeepsInv: the two saves of a failure handler (records and tasks) are one step, and so are the record update and the task update of a failed send; a success is handled in one step.
- ScriptTasks.ScriptTaskService.UpdateTaskSucByRecordIds: one step; it writes no value that it read, so only locks released in between could tell.
- TimeoutSweep.SendScriptHandlerService.CheckScriptTaskTimeOut: nothing else changes records during the sweep, and the collection is read in one fixed order.
- RedisLocks.RedisService.GetLock: requires a timeout of at least one second as its only caller gives; without one the source waits forever. Errors of the Redis client are not modelled.
- RedisLocks.RedisService.RelLock: a command and the bookkeeping after its reply are one step, which holds as long as replies come in the order of the commands.
- PulsarProcessor.BoundedRedelivery: the broker delivers again only after a rejection, and acknowledgements go through.
- ScriptTasks.ScriptTaskService.UpdateTaskFailByRecordIds: of malformed object ids only the blank one is modelled.
- FailingRuns.AlwaysFailingRuns: assumes that no handler writes an outdated retry count back; what that costs is the drift of Lifecycle.RetryBudget.
- The text of failure reasons, which does depend on the order of reports, and fields that no property reads (names, variables, file urls).
- Shutdown of the services, which deletes locks without comparing tokens and marks tasks failed; a restart of the master with empty queues.
- processBatchMessage and its counters; the consumer's running average of processing times.
- A success and a failure of one task in the same Pulsar batch, which race; each is modelled as its own step.
- handleDeviceLockedFail, whose only call is commented out.
- Listing, aggregation, log storage, controllers, signing, tracing, configuration and the schedulers of the cron jobs.
- The central control calls of create, cancel and run: their answers are parameters.
- The rejected promise when a task is sent to a dead worker's channel; the task simply stays outstanding.
- The enumeration order of object keys is a parameter, so the printed order of cookies is not fixed.
