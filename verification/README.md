# Verification of the multi-agent task backend

A Dafny model of the stateful core of the backend, with proofs about whole runs. Each
component has a functional model (states, steps, what every enabled step keeps) and, where the
program changes things in place, classes and methods whose contracts tie their fields to that
model. `dafny verify dfyconfig.toml` checks everything.

| files | component |
|---|---|
| `Dag*.dfy`, `TaskAttempts.dfy` | the DAG executor of one task, its limiter, and all attempts of a task over retries, crashes and the shutdown sweep |
| `Job*.dfy` | the durable job queue: store, workers, leases, retry and dead letters, with any number of workers on one table |
| `Event*.dfy` | the event log: numbering bus, live table, compaction into the archive and its summary, cold day files, restore |
| `Idempotency.dfy` | the idempotency store, one SQL statement a step |
| `PoolModel.dfy`, `WriteQueue.dfy`, `Pool.dfy` | the connection pool and its serialised writer |
| `AuditChain.dfy` | the hash-chained audit log |
| `CanonicalJson.dfy`, `CanonicalProof.dfy`, `JsonReader.dfy`, `AgentAuth.dfy` | the canonical printer, a JSON reader that reads it back, and the challenge store of agent ownership proofs |
| `Replay.dfy` | task replay and the node timeline |
| `Keyset.dfy`, `Lex.dfy` | keyset pagination, string order and sorting |
| `CircuitBreaker.dfy` | the circuit breaker as a function of its history |

How the models are built:

- A step is one stretch of code that does not yield (one SQL statement or transaction where
  several processes share a database). Runs are arbitrary interleavings of enabled steps, so a
  theorem about `After(s, steps)` is about every schedule.
- The outside world is a parameter of a step: whether a call, an append, a health check or an
  opened connection succeeds, what the clock reads, which file write was cut short. The hash
  function and the agent are function parameters; only the theorems that need it assume the hash
  injective.
- A class whose fields mirror a model state keeps that state in a ghost field; its `Valid()` says
  each real field equals its part of the state, and each method's `ensures` says which step the
  state took.

Where the code falls short of what its comments promise, the model follows the code and the
exact condition is proved:

- An exception between a payment release and the return of `runNode` (a throwing subscriber, say)
  fails the node, and a retry releases the payment again. Whatever else throws, the releases of a
  node are its own such exceptions or one more, and both ends are met
  (`TaskAttempts.ReleasesAreFaults`, `TaskAttempts.ReleasedAgain`, `TaskAttempts.AtMostOnceIff`).
- A node left stored as `running` is never rescheduled, so a retry of its task settles if and only
  if no node was left so (`TaskAttempts.RetrySettlesIff`); a crash leaves one so
  (`TaskAttempts.CrashStrands`).
- Recovery over a live handler's lapsed lease breaks single execution, and nothing else does
  (`JobInvariant.RecoverKeepsIff`); a history from the empty queue gets there
  (`JobTheorems.LapseReached`). The leases a stopping worker still releases always belong to
  handlers that are still running (`JobTheorems.ReleaseHitsLiveRun`).
- The count check of a compaction can never fail and so protects nothing
  (`EventLog.ArchiveCoversLive`); a row is lost exactly when another event is archived under its
  key (`EventTheorems.CompactKeepsRowIff`). A restart gives a task only new numbers exactly when it
  rehydrates and finds the task's highest number still live, or the task has no events
  (`EventTheorems.SafeRestartIff`), and a run whose restarts are all so, or are followed by no emit
  of the task, loses nothing of it (`EventTheorems.NothingLostByRestarts`). Runs from the empty log
  lose an event after a restart of a compacted task (`EventTheorems.ReuseReached`) and after one
  whose rehydration failed, though the highest number was live (`EventTheorems.UnreadReached`).
- Summary counts fall short exactly when a task has rows with a null and rows with an empty node
  id (`EventSummary.SummaryCountsSum`).
- Releasing an unhealthy connection to a waiter loses the waiter exactly when its replacement
  cannot be opened (`PoolTheorems.ReleaseKeepsIff`, over runs `PoolTheorems.PromisesKeptIff`), and
  leaves the pool short of its maximum, so that a later caller overtakes those still queued
  (`PoolTheorems.WaiterLost`, from a warm pool `PoolTheorems.LossReached`).
- A full challenge store evicts its oldest challenge whoever owns it (`AgentAuth.EvictsOldestIff`);
  the comment at `backend/src/api/agentSignature.ts:53-60` says only the caller's own can go.
- Replay and the node timeline list the same nodes exactly on well-named logs
  (`Replay.NodeSetsAgreeIff`); one event is enough for either to list a node the other does not
  (`Replay.NamedWithoutNodeEvent`, `Replay.NodeEventWithoutName`).

## Model

| member | source | states |
|---|---|---|
| DagInvariant.StepKeepsCore | backend/src/coordinator/coordinator.ts:538-587 | every step keeps the executor's invariant: bookkeeping sets disjoint and within the DAG, the in-flight count equal to the undrained nodes, the limiter's count equal to its held slots, each node's status consistent with its position |
| DagSettlement.StepKeepsInv | backend/src/coordinator/coordinator.ts:392-536 | every step keeps, besides, a reason for each failed node (it failed itself, or waits for a node that cannot complete), the verdict of a settled run, and that an idle run is settled |
| DagSettlement.DeadlockRound | backend/src/coordinator/coordinator.ts:502-536 | when a scheduling round finds nothing to run and nothing is in flight, one failing pass in array order decides every pending node, cycles and dependents listed first included |
| DagTheorems.DependencySafety | backend/src/coordinator/coordinator.ts:79-104 | at every step a started node has all dependencies completed, and its context has one entry for each of them with a result, in dependency order, and no other; each node starts once, in order of arrival; at most `limit` slots are held; a non-empty queue means exactly `limit` |
| DagTrace.ContextDelivers | backend/src/coordinator/coordinator.ts:937-943 | the gathered context holds, at the place that counts the defined results before it, the result of each dependency that has one; if all have one, position `i` holds that of dependency `i` |
| DagTrace.RunKeepsTrace | backend/src/coordinator/coordinator.ts:937-943 | the order of starts lists dependencies first, and contexts are never outdated by later steps |
| DagTheorems.ScheduleIndependence | backend/src/coordinator/coordinator.ts:341-591 | a settled run completes exactly the least set holding the pre-completed nodes and every succeeding node whose dependencies it holds, and fails exactly the rest |
| DagTheorems.AnyTwoRunsAgree | backend/src/coordinator/coordinator.ts:341-591 | two settled runs of one DAG agree on completed and failed sets whatever the interleavings and limits |
| DagTheorems.ResultsAreDetermined | backend/src/coordinator/coordinator.ts:729-761 | with a deterministic agent two settled runs hold the same result for every completed node |
| DagTermination.StepLowersMeasure | backend/src/coordinator/coordinator.ts:562-580 | every step lowers a natural measure of the state |
| DagTermination.Progress | backend/src/coordinator/coordinator.ts:562-587 | an unsettled run always has a next step |
| DagTheorems.EveryRunSettles | backend/src/coordinator/coordinator.ts:391-590 | from a start with all nodes pending or completed, runs are bounded and can continue until settled |
| DagTheorems.SettlesIffFresh | backend/src/coordinator/coordinator.ts:356-362 | a run can settle if and only if every node starts pending or completed |
| DagTheorems.SettlesOnce | backend/src/coordinator/coordinator.ts:421-448 | exactly one task status is emitted, at settlement, when completed and failed partition the nodes: failed if a node failed, else payment_failed if a release failed, else completed |
| DagStored.StoredOutcome | backend/src/coordinator/coordinator.ts:752-826 | at every moment the stored statuses are those in memory: completed nodes stored as completed, failed ones as failed save one whose runNode rejected without touching it |
| DagTheorems.NothingAfterSettlement | backend/src/coordinator/coordinator.ts:392-422 | after settlement nothing is started, released or emitted, and the completed and failed sets stay |
| DagExecutor.ConcurrencyLimiter.Run | backend/src/coordinator/coordinator.ts:85-103 | work starts at once below the limit and queues last otherwise |
| DagExecutor.ConcurrencyLimiter.Done | backend/src/coordinator/coordinator.ts:91-94 | a freed slot goes to the longest-waiting work, if any |
| DagExecutor.DagRun.constructor | backend/src/coordinator/coordinator.ts:352-366 | nodes stored as completed count as completed and scheduled |
| DagExecutor.DagRun.Context | backend/src/coordinator/coordinator.ts:937-943 | one entry for each dependency with a result, in order, and no other |
| DagExecutor.DagRun.StartWork | backend/src/coordinator/coordinator.ts:679-686 | the node runs and is stored as running, with a context of one entry for each dependency with a result |
| DagExecutor.DagRun.ScheduleReady | backend/src/coordinator/coordinator.ts:538-587 | the loop submits exactly the ready nodes in array order, and a fruitless idle round fails the deadlocked ones and settles |
| DagStored.RoundSubmits | backend/src/coordinator/coordinator.ts:538-587 | a round submits, in array order, exactly the nodes that are pending, not scheduled, and have all dependencies completed |
| DagExecutor.DagRun.IsBlocked | backend/src/coordinator/coordinator.ts:508-517 | blocked if and only if a dependency failed or is not in the DAG, or, on request and with nothing in flight, one is not completed |
| DagExecutor.DagRun.FailBlocked | backend/src/coordinator/coordinator.ts:502-536 | the loop fails exactly the nodes that are pending and blocked when their turn comes |
| DagExecutor.DagRun.Finish | backend/src/coordinator/coordinator.ts:392-468 | settles once, when the counts add up to the DAG, with the verdict and the stored DAG |
| DagExecutor.DagRun.CompleteNode | backend/src/coordinator/coordinator.ts:752-761 | status and result are written in memory and to the store before any release |
| DagExecutor.DagRun.CatchError | backend/src/coordinator/coordinator.ts:817-826 | whatever threw, the node is failed in memory and in the store |
| DagExecutor.DagRun.PaymentSettled | backend/src/coordinator/coordinator.ts:786-800 | a failed release is a task-level fault and leaves the node completed |
| DagExecutor.DagRun.RecordResult | backend/src/coordinator/coordinator.ts:563-574 | the node enters the completed or the failed set by what runNode returned |
| DagExecutor.DagRun.SlotFreed | backend/src/coordinator/coordinator.ts:91-94 | the slot is given back and the queue's head starts |
| DagExecutor.DagRun.DrainFinished | backend/src/coordinator/coordinator.ts:575-580 | drain decrements, schedules, fails the blocked, and settles, in that order |
| TaskAttempts.ReleasedAtMostOnce | backend/src/coordinator/coordinator.ts:752-800 | over any number of attempts, crashes and shutdown sweeps, a node that never threw after its own release is released at most once, whatever throws elsewhere |
| TaskAttempts.ReleasesAreFaults | backend/src/coordinator/coordinator.ts:752-826 | over every DAG and history the releases of a node are the exceptions after its release, or one more |
| TaskAttempts.ReleasedAgain | backend/src/coordinator/coordinator.ts:801-826 | for every `k` some history has exactly `k` such exceptions, all of one node, and releases it `k` times, and another releases it `k + 1` times |
| TaskAttempts.AtMostOnceIff | backend/src/coordinator/coordinator.ts:1132-1145 | a node is released at most once over every DAG and every history that throws after release only in a given set of nodes, if and only if the node is not in that set |
| TaskAttempts.RetrySettlesIff | backend/src/coordinator/coordinator.ts:1132-1145 | a retry can settle if and only if no node is stored as running |
| TaskAttempts.CrashStrands | backend/src/coordinator/coordinator.ts:1132-1145 | a crash while the node of a new task runs leaves every later attempt unable to settle |
| TaskAttempts.SweepReleases | backend/src/db/tasks.ts:453-475 | the shutdown sweep leaves completed nodes alone and so keeps the bound on releases |
| TaskAttempts.SweepStores | backend/src/db/tasks.ts:453-475 | the sweep stores every node that is not completed as failed, during an attempt or between two, and releases nothing |
| TaskAttempts.SweepUnstrands | backend/src/db/tasks.ts:453-475 | the sweep stores everything but completed nodes as failed, and so leaves a task that a retry can settle |
| JobInvariant.StepKeepsInv | backend/src/queue/worker.ts:294-325 | every step of any worker but a recovery over a live lapsed lease keeps: one live run a job, its row active and not another worker's, retry budgets, worker counts within the concurrency, timers only for live runs |
| JobInvariant.StepKeepsTally | backend/src/queue/jobStore.ts:647-668 | every step whatever keeps rows plus removals equal to insertions |
| JobInvariant.RecoverKeepsIff | backend/src/queue/jobStore.ts:670-705 | a recovery pass keeps the invariant if and only if no live run's lease has lapsed |
| JobTheorems.SingleExecutor | backend/src/queue/jobStore.ts:311-332 | over every history whose recoveries find no live lapsed lease, each job has at most one live execution, on an active row no other worker holds |
| JobTheorems.LeaseholderExecutes | backend/src/queue/worker.ts:240-265 | if every live run renews before its lease is due and releases only what it no longer runs, the one execution of a job is that of the unexpired lease's owner |
| JobTheorems.ClaimBeats | backend/src/queue/worker.ts:240-265 | a claim leases the row and starts a heartbeat, which renews the lease while the row is owned |
| JobTheorems.LapsedRunsTwice | backend/src/queue/jobStore.ts:670-705 | recovery over a live lapsed lease followed by a claim of that job gives two live executions |
| JobTheorems.LapseReached | backend/src/queue/worker.ts:240-265 | a history from the empty queue in which a lease lapses unrenewed and a second worker starts ends with two live executions of one job |
| JobTheorems.ReleaseHitsLiveRun | backend/src/queue/worker.ts:273-284 | a lease still to be released at stop belongs to a handler that is still running |
| JobTheorems.StatusMoves | backend/src/queue/jobStore.ts:472-544 | from any state at all a step moves a job only along the listed edges; completed is never left and dead-letter only by replay or removal |
| JobTheorems.CompletedForever | backend/src/queue/worker.ts:359-366 | in every history, unsafe recoveries included, a completed job is completed for as long as its row exists |
| JobTheorems.RetryBudget | backend/src/queue/worker.ts:371-415 | for a job with a limit of at least one, failed runs since insertion or replay never exceed the limit, and it is parked exactly when they reach it |
| JobTheorems.CountsConserved | backend/src/queue/jobStore.ts:594-622 | in every history the five status counts sum to jobs inserted minus rows removed |
| JobTheorems.EnqueueKeepsOneIff | backend/src/queue/index.ts:103-112 | an insertion keeps one live job a task if and only if the enqueueUnique check would pass |
| JobTheorems.ReplayKeepsOneIff | backend/src/queue/dlq.ts:175-183 | a replay keeps one live job a task if and only if the task has no other live job |
| JobTheorems.OthersKeepOne | backend/src/queue/jobStore.ts:472-544 | no other step creates a second live job of a task |
| JobStore.JobStore.Insert | backend/src/queue/jobStore.ts:335-375 | a new id is inserted, a taken one refused |
| JobStore.JobStore.HasPendingJobForTask | backend/src/queue/jobStore.ts:387-400 | true exactly when the task has a pending, active or failed job |
| JobStore.JobStore.ClaimNextPendingJob | backend/src/queue/jobStore.ts:419-441 | claims a due pending or retriable job of the highest priority, the oldest among those, and leases it; finds none only if none is due; gives up after three busy attempts; only that row changes |
| JobStore.JobStore.ExtendLease | backend/src/queue/jobStore.ts:443-456 | renews only an active row of its owner |
| JobStore.JobStore.ReleaseLease | backend/src/queue/jobStore.ts:458-470 | drops the lease only of an active row of its owner |
| JobStore.JobStore.UpdateStatus | backend/src/queue/jobStore.ts:472-544 | changes the row and logs it only if the status is expected; the lease columns stay |
| JobStore.JobStore.RetryDeadLetterJob | backend/src/queue/jobStore.ts:627-645 | requeues a parked job with no attempts used, and nothing else |
| JobStore.JobStore.RecoverIncompleteJobs | backend/src/queue/jobStore.ts:670-705 | reclaims exactly the active rows with a lapsed or missing lease, and counts them |
| JobStore.JobStore.PurgeDeadLetters | backend/src/queue/jobStore.ts:647-668 | deletes exactly the parked rows that aged out, and counts them |
| JobStore.JobStore.GetStats | backend/src/queue/jobStore.ts:594-622 | each count is the number of rows in that status and the total is the number of rows |
| JobStore.DeadLetterQueue.Push | backend/src/queue/dlq.ts:115-145 | parks only a job that is active, failed or pending |
| JobStore.ClaimedOnce | backend/src/queue/worker.ts:297-314 | a claiming loop never claims a job twice, and changes only what it claims |
| JobStore.JobWorker.Start | backend/src/queue/worker.ts:136-160 | starting reclaims exactly the active rows without a current lease; starting twice does nothing |
| JobStore.JobWorker.ProcessJobs | backend/src/queue/worker.ts:294-325 | claims up to capacity; each claimed job was due, and what is claimed later or left has a lower priority, or the same and no earlier creation time; stops below capacity only when nothing is due or the claim failed |
| JobStore.JobWorker.Heartbeat | backend/src/queue/worker.ts:243-259 | renews an owned lease, else stops its timer |
| JobStore.JobWorker.HandlerResolved | backend/src/queue/worker.ts:356-366 | completes the row if still active, stops the timer, frees the slot |
| JobStore.JobWorker.HandlerRejected | backend/src/queue/worker.ts:370-415 | below the limit an active row waits `delay` for a retry with one more attempt, at the limit it is parked; any other row stays |
| JobStore.JobWorker.ReleaseLeases | backend/src/queue/worker.ts:273-284 | drops exactly the leases of timers on rows it still owns |
| JobStore.JobQueue.EnqueueUnique | backend/src/queue/index.ts:103-112 | refused exactly while the task has a live job; keeps one live job a task |
| EventTheorems.NothingLost | backend/src/events/eventArchive.ts:426-514 | over every run of emits, restarts, compactions, archivings with any failure, restores and purges, an appended event that shares its key with no other stays live, archived or in a day file until its file is purged |
| EventTheorems.NothingLostByEmits | backend/src/coordinator/eventBus.ts:126-171 | no event of a task is lost if each stored emit of that task took an unused key, whatever restarts, compactions and other tasks do |
| EventTheorems.NothingLostByRestarts | backend/src/coordinator/eventBus.ts:126-171 | no event of a task is lost if each restart rehydrates and finds the task's highest number live, or finds no event of it, or is followed by no emit of it |
| EventTheorems.OwnKeysIff | backend/src/coordinator/eventBus.ts:157-171 | a run leaves each event of a task a key of its own if and only if each stored emit of the task took an unused key |
| EventTheorems.CompactKeepsRowIff | backend/src/events/eventArchive.ts:330-338 | a compacted row is archived if and only if no different event was archived under its key |
| EventTheorems.RestartReuseIff | backend/src/coordinator/eventBus.ts:132-142 | after a restart a task's numbers are all new if and only if it rehydrated and the highest appended number is still live, or it did not and the task was never appended to |
| EventTheorems.SafeRestartIff | backend/src/coordinator/eventBus.ts:132-142 | the same condition holds if and only if nothing that can follow the restart, until the next one, stores an event under a number of the task that is taken |
| EventTheorems.ReuseLosesAnEvent | backend/src/events/eventArchive.ts:453-460 | a reused number makes the next compaction lose the newer event |
| EventTheorems.ReuseReached | backend/src/coordinator/eventBus.ts:126-142 | emit, compact, restart, emit, compact from the empty log loses the second event |
| EventTheorems.UnreadReached | backend/src/coordinator/eventBus.ts:138-142 | from the empty log, a restart whose rehydration fails while the highest number is live leads to a lost event |
| EventTheorems.NumbersStayAhead | backend/src/coordinator/eventBus.ts:157-171 | over any run whose restarts rehydrate, the next number of a task exceeds every live number of it |
| EventTheorems.RestartAheadIff | backend/src/coordinator/eventBus.ts:132-142 | a restart keeps numbers ahead if and only if it rehydrates or nothing is live |
| EventTheorems.EmitIsStored | backend/src/events/eventStore.ts:277-309 | an emit is stored above every live number of its task, with its node id unless that is empty, its type, time and payload, unless the store fails; the UNIQUE key is never met |
| EventTheorems.DayRoundTrip | backend/src/events/eventColdArchive.ts:253-300 | archiving a day and restoring it gives the table united with the file, the file's rows winning for that day |
| EventTheorems.DayRoundTripEvents | backend/src/events/eventColdArchive.ts:253-300 | for an event that shares its key with no other, the round trip has it in the table exactly if the table or the file had it |
| EventTheorems.ArchiveRetry | backend/src/events/eventColdArchive.ts:253-276 | retrying a day whose file was written but whose rows were not deleted equals one good pass |
| EventTheorems.ArchiveRoundTrip | backend/src/events/eventArchive.ts:259-273 | reading back an archived row loses nothing unless its node id was empty |
| EventSummary.SummaryCountsSum | backend/src/events/eventArchive.ts:342-391 | written counts sum to the rows purged if and only if the task has not both null and empty node ids |
| EventSummary.BusCountsSum | backend/src/coordinator/eventBus.ts:68-79 | events of the bus never carry an empty node id, so their counts sum |
| EventSummary.CountersBound | backend/src/events/eventArchive.ts:346-353 | type counters sum to at most the count, with equality if and only if every type is a counted one |
| EventLog.EventDb.Append | backend/src/events/eventStore.ts:277-309 | inserts unless the key is taken or the store fails |
| EventLog.EventDb.MaxTaskSeqPerTask | backend/src/events/eventStore.ts:336-343 | the highest live number of each task with live rows |
| EventLog.EventDb.CompactTask | backend/src/events/eventArchive.ts:426-514 | success moves the task's rows into the archive field by field, touches no other task, writes one summary a group under its node and counts them; any throw leaves all three tables unchanged; without a fault an eligible call never throws, and changes nothing when no rows are left |
| EventLog.EventDb.Aggregate | backend/src/events/eventArchive.ts:342-360 | count, type counters, first and last time, duration and highest number of one group |
| EventLog.ArchiveCoversLive | backend/src/events/eventArchive.ts:460-466 | the read-back count can never fall short |
| EventLog.EventBus.constructor | backend/src/coordinator/eventBus.ts:113-155 | each task with live rows continues one above the highest of them; nothing is known if those cannot be read |
| EventLog.EventBus.Emit | backend/src/coordinator/eventBus.ts:157-171 | the event carries its task, type, time, payload and, unless empty, node id; the number is used up either way, and delivery follows the append attempt |
| EventLog.MergeRows | backend/src/events/eventColdArchive.ts:146-158 | the union by key: of the rows with one key the first stays, those of the file before those of the table; no key twice |
| EventLog.ColdArchive.ArchiveDay | backend/src/events/eventColdArchive.ts:253-276 | file first, rows deleted last; every failure leaves the table as it was; an unreadable file is never replaced |
| EventLog.DayArchivedIs | backend/src/events/eventColdArchive.ts:253-276 | row by row: the file joins what it held, winning, with the day's rows; only a complete pass deletes rows, exactly those of the day |
| EventLog.ColdArchive.RestoreDays | backend/src/events/eventColdArchive.ts:283-301 | all files or none; existing rows stay; a new key takes the row of the first file that holds it; counts the new rows |
| EventLog.ColdArchive.RunCycle | backend/src/events/eventColdArchive.ts:220-247 | the days are archived in turn up to the first throw; the total counts the rows that left the table |
| EventLog.WholeDays | backend/src/events/eventColdArchive.ts:220-247 | a day is never split between table and file by a cycle, and a cycle without a throw empties every day it covered |
| EventLog.ColdArchive.PurgeExpired | backend/src/events/eventColdArchive.ts:303-315 | deletes exactly the files before the cutoff day |
| EventTheorems.PurgeDrops | backend/src/events/eventColdArchive.ts:303-315 | purging a day removes its file and no other, and exactly its events count as dropped |
| EventRetention.Service.Run | backend/src/services/eventRetention.ts:182-245 | the candidates up to the first status lookup that throws end skipped, compacted or failed, and the rest are left; of those handled every eligible one without a fault is compacted; what was purged is what left the table and was archived; a task's rows move only if both databases call it finished, before and inside its transaction, and then all of them; a scan that throws changes nothing |
| Idempotency.StepKeepsInv | backend/src/services/idempotency.ts:236-276 | in every statement-level interleaving a row belongs to the one caller that reserved it and has not lost it, and holds what that caller stored |
| Idempotency.MutualExclusion | backend/src/services/idempotency.ts:307-360 | between two reserved answers for one slot, whether or not the later still stands, the earlier reservation was released, deleted or had expired |
| Idempotency.GrantEndsOthers | backend/src/services/idempotency.ts:317-327 | at the insertion that grants a slot every earlier holder of it has already lost it |
| Idempotency.ReserveFree | backend/src/services/idempotency.ts:307-327 | undisturbed, a new caller's statements reserve a free slot |
| Idempotency.ReserveHeld | backend/src/services/idempotency.ts:329-353 | undisturbed, they replay the response of an unexpired row, or conflict if it has none, and leave the table alone |
| Idempotency.ReserveExpired | backend/src/services/idempotency.ts:329-360 | undisturbed, they end the reservation of an expired row and reserve the slot on the next attempt |
| Idempotency.ExpiryReached | backend/src/services/idempotency.ts:307-360 | from the empty store a reservation stands until its time has passed, and then the next caller takes the slot over |
| Idempotency.Retries | backend/src/services/idempotency.ts:311-360 | a vanished or reclaimed row sends the caller back to insert, three attempts in all |
| Idempotency.OneHolder | backend/src/services/idempotency.ts:317-327 | one slot never has two standing reservations |
| Idempotency.SupersededIsInert | backend/src/services/idempotency.ts:255-268 | completing or releasing with a superseded token changes nothing |
| Idempotency.ReplayIsHolders | backend/src/services/idempotency.ts:349-351 | a replay is the response stored by the slot's own holder, who never stores another |
| IdempotencyStore.Store.Reserve | backend/src/services/idempotency.ts:307-360 | undisturbed: reserves a free or expired slot, replays a completed one, refuses a pending one, within the attempts |
| IdempotencyStore.Store.Complete | backend/src/services/idempotency.ts:362-378 | promotes only the pending row with this token |
| IdempotencyStore.Store.Cleanup | backend/src/services/idempotency.ts:403-411 | deletes exactly the expired rows and counts them |
| PoolTheorems.PoolAccounting | backend/src/db/pool.ts:238-323 | over every run: open readers are the lent and idle ones and at most max, idle at most min, no handle lent twice; every call waits, is settled or is lost, and only one of these; waiting means nothing idle and full but for one reader a lost call; a queued caller is served only after all earlier ones settled or were lost |
| PoolTheorems.SettledOnce | backend/src/db/pool.ts:260-276 | in every run a settled acquisition never settles otherwise later |
| PoolTheorems.ReleaseKeepsIff | backend/src/db/pool.ts:279-323 | a release keeps every call waiting or settled, and the pool full while anyone waits, unless somebody waits, the handle is unhealthy and no replacement opens |
| PoolTheorems.PromisesKeptIff | backend/src/db/pool.ts:279-323 | after a run from a warm pool every call waits or is settled, and waiting means a full pool, if and only if each unhealthy handle released to a waiter could be replaced |
| PoolTheorems.NoOvertakingIff | backend/src/db/pool.ts:238-277 | whoever comes while others wait queues behind them if and only if the pool is full |
| PoolTheorems.WaiterLost | backend/src/db/pool.ts:294-303 | in that case the waiter is neither waiting nor settled, and the next caller who can open a reader is served before those still queued |
| PoolTheorems.LossReached | backend/src/db/pool.ts:294-303 | a run of five steps from a warm pool of one loses the second caller and serves the fourth before the third |
| Pool.SqlitePool.constructor | backend/src/db/pool.ts:417-420 | warmed with min idle readers |
| Pool.SqlitePool.Acquire | backend/src/db/pool.ts:238-277 | the topmost idle handle that answers its ping, those above it closed; else a new one below max; else a place at the end of the queue; refused after close |
| Pool.SqlitePool.TimedOut | backend/src/db/pool.ts:266-273 | leaves the queue and settles, unless settled before |
| Pool.SqlitePool.Release | backend/src/db/pool.ts:279-323 | serves the head of the queue with the handle, or a new one for an unhealthy one; else keeps it below min and closes it otherwise |
| Pool.SqlitePool.BeginClose | backend/src/db/pool.ts:384-395 | rejects exactly those queued and refuses new work |
| Pool.SqlitePool.FinishClose | backend/src/db/pool.ts:404-406 | closes the idle readers |
| Pool.SqlitePool.EnqueueWrite | backend/src/db/pool.ts:336-358 | a body is taken on unless the pool is closed, and starts at once exactly when none is running, as the write queue's step says |
| Pool.SqlitePool.WriteSettled | backend/src/db/pool.ts:348-352 | the running body counts as finished and the next one in order starts, if any, as the write queue's step says |
| WriteQueue.OneWriteAtATime | backend/src/db/pool.ts:336-358 | over every run of submissions, settlements and closing, bodies start and finish in the order accepted, at most one runs, and none waits while none runs |
| WriteQueue.AllCanFinish | backend/src/db/pool.ts:348-352 | settling one running body after the other finishes exactly the accepted ones, closed or not |
| AuditChain.AuditLog.Append | backend/src/services/auditLog.ts:175-206 | the new row takes the id after the last and links to the last hash, or to genesis |
| AuditChain.AppendKeepsValid | backend/src/services/auditLog.ts:175-206 | appending keeps verification valid and adds one checked row |
| AuditChain.AuditLog.Verify | backend/src/services/auditLog.ts:229-260 | valid exactly when every row is good; else names the first bad row, with the chained and other good rows before it counted; no other verdict is possible |
| AuditChain.LastHashCommits | backend/src/services/auditLog.ts:85-98 | two valid chained logs of one length with one last hash are equal row by row |
| AuditChain.GenesisCommits | backend/src/services/auditLog.ts:85-98 | if no row hashes to the genesis value, the last hash from genesis commits to the whole log, its length included |
| AuditChain.PrefixDeletion | backend/src/services/auditLog.ts:245-247 | deleting a prefix keeps a valid chain valid |
| AuditChain.DeletionDetectedIff | backend/src/services/auditLog.ts:229-260 | a cut goes unnoticed exactly at the ends or after an unchained row; otherwise verification fails at the first row after the gap |
| AuditChain.TamperDetected | backend/src/services/auditLog.ts:248-254 | an edited row fails where it is; with its hash redone the next row fails |
| AuditChain.AuditLog.IterateRows | backend/src/services/auditLog.ts:265-279 | the batches are the newest rows in order, capped, none empty |
| CanonicalProof.TextIffSame | backend/src/api/agentSignature.ts:117-126 | two payloads print alike if and only if they are the same value up to key order, undefined members dropped and other undefined being null |
| CanonicalProof.ShowInjective | backend/src/api/agentSignature.ts:117-126 | printed forms are self-delimiting and injective |
| CanonicalProof.QuoteInjective | backend/src/api/agentSignature.ts:119-125 | string literals are self-delimiting and injective, escapes included |
| CanonicalProof.KeyOrderIsIrrelevant | backend/src/api/agentSignature.ts:122-124 | rearranged members print alike |
| JsonReader.ReadsBack | backend/src/api/agentSignature.ts:117-126 | a canonical text is JSON after RFC 8259, and reading it gives the value back up to key order, undefined members dropped and other undefined as null |
| Lex.SortSorts | backend/src/api/agentSignature.ts:124 | sorting rearranges and puts distinct keys in order |
| Lex.LeIs | backend/src/api/agentSignature.ts:124 | a string precedes another if and only if it is a prefix of it or smaller at the first difference |
| AgentAuth.SingleUse | backend/src/api/agentSignature.ts:311-324 | over any run a nonce authorises at most once, and the store stays within its cap |
| AgentAuth.PresentedIsSpent | backend/src/api/agentSignature.ts:311-324 | a presented nonce is refused ever after, even when the proof failed |
| AgentAuth.AuthorizedIsBound | backend/src/api/agentSignature.ts:326-385 | an authorised request has the purpose, key and payload the challenge was issued for, unexpired and signed |
| AgentAuth.AuthorizedIff | backend/src/api/agentSignature.ts:311-385 | over any run a proof is authorised if and only if its nonce is pending and unexpired, the signature good, and purpose, key, payload up to key order and any named agent those it was issued for |
| AgentAuth.EvictsOldestIff | backend/src/api/agentSignature.ts:189-197 | issuing drops an unexpired challenge exactly when the store is full, and then the oldest unexpired one |
| AgentAuth.IssuedOrder | backend/src/api/agentSignature.ts:186-222 | what stays keeps its order, the new challenge comes last, and the cap holds |
| AgentAuth.ChallengeStore.Issue | backend/src/api/agentSignature.ts:186-222 | prunes, evicts and appends |
| AgentAuth.ChallengeStore.Verify | backend/src/api/agentSignature.ts:284-386 | the first entry with the nonce decides, in the order expired, not bound, bad signature, authorised, and is burnt; a nonce not pending is refused and burns nothing |
| Replay.ReplayTask | backend/src/events/replay.ts:191-210 | each field of the task and of its nodes is that of the last event that decides it, or unset without one; nodes are those some node event names; every event counts |
| Replay.Replayer.Apply | backend/src/events/replay.ts:106-177 | one event changes the state as its type says |
| Replay.ReplaySplits | backend/src/events/replay.ts:241-247 | replay equals replaying any first part and applying the rest |
| Replay.UpToIsPrefix | backend/src/events/replay.ts:220-228 | on a log in number order, replaying up to a number is replaying a prefix |
| Replay.CursorIsMax | backend/src/events/replay.ts:106-112 | the cursor is the highest number seen and every event counts |
| Replay.ProjectNodeTimeline | backend/src/events/projection.ts:143-191 | the loop computes the timeline of the log |
| Replay.TimelineAgrees | backend/src/events/projection.ts:143-191 | for every non-empty id: who lists it, and agreement on status, agent type, times and error |
| Replay.NodeSetsAgreeIff | backend/src/events/projection.ts:157-160 | the same nodes if and only if node events have non-empty ids and every named node has a node event |
| Replay.NamedWithoutNodeEvent | backend/src/events/projection.ts:157-160 | a log of one event that names a node without being a node event is listed by the timeline only |
| Replay.NodeEventWithoutName | backend/src/events/replay.ts:106-177 | a log of one node event without a node id adds a nameless node to the replay and none to the timeline |
| Keyset.WalkOfStaticTable | backend/src/db/tasks.ts:316-374 | a finished walk of an unchanging table lists exactly the matching rows in order, each once, for any limits |
| Keyset.WalkUnderChanges | backend/src/db/tasks.ts:316-374 | with any changes between pages no row repeats and every row that matched throughout is seen |
| Keyset.EmptyPartStartsOver | backend/src/db/tasks.ts:340-347 | a page overlaps the one before if and only if its cursor had an empty part |
| Keyset.ListCursor | backend/src/db/tasks.ts:353-373 | a page is the first rows past the cursor, with a next cursor exactly when more remain |
| Keyset.ListTasks | backend/src/db/tasks.ts:316-374 | clamps the limit to 1 to 100, 20 without one; ignores a cursor with an empty part; lists the first keys past it by timestamp then id, up or down |
| Keyset.ListAgents | backend/src/db/agents.ts:321-399 | refuses exactly a limit outside 1 to 100 and a cursor with an empty part, else lists the first keys past it, latest first |
| Keyset.Clamp | backend/src/db/tasks.ts:320 | the limit is within 1 and 100, and a limit in range is kept |
| Keyset.ListAll | backend/src/services/agentWatchdog.ts:147-156 | the page loop ends with every online agent in order, each once, unless a page before the last ends on a key with an empty part, and it fails if and only if one does |
| CircuitBreaker.Breaker.GetState | backend/src/services/circuitBreaker.ts:77-80 | closed without a failure since the last success or with fewer than the threshold; else open until the recovery time has passed since the last one, then half-open |
| CircuitBreaker.Breaker.RecordFailure | backend/src/services/circuitBreaker.ts:123-134 | with its two clock readings: opens when the failures since the last success reach the threshold, and reports real transitions only |
| CircuitBreaker.Breaker.RecordSuccess | backend/src/services/circuitBreaker.ts:113-121 | closes, and reports it if it was not closed |
| CircuitBreaker.Breaker.AssertClosed | backend/src/services/circuitBreaker.ts:90-95 | the call is allowed exactly when the history leaves the breaker not open |
| CircuitBreaker.QueriesAreInvisible | backend/src/services/circuitBreaker.ts:162-169 | asking for the state never changes a later answer |
| CircuitBreaker.TrailingIs | backend/src/services/circuitBreaker.ts:123-134 | the count is the run of failures after the last success |

## Left out

- Abort and cancellation in the DAG executor: a node still queued in the limiter is then both counted failed and run, so none of the run theorems hold.
- Node ids are taken to be distinct, and the concurrency limit at least one.
- Error texts, progress callbacks, tracing, quality scores and costs; a budget refusal is an ordinary node failure.
- The retry loop and agent selection inside one dispatch: a node's dispatch either answers or fails.
- A failing write of the tasks database inside the executor.
- TaskAttempts.ReleasedAtMostOnce: attempts of one task follow one another; two jobs of one task running at once are not part of it.
- Job payloads, progress, error texts and the listing pages; random jitter is any non-negative delay.
- A throwing completion callback of a worker, which re-enters the failure path on a row that is already completed; the guarded updates then match nothing.
- JobTheorems.SingleExecutor: the workers' clocks are one clock, and live workers have distinct ids.
- JobStore.JobQueue.EnqueueUnique: the check and the insert are one step, as they are within one process; across processes two can pass the check together.
- Database errors other than a busy claim in the job store; a lost heartbeat is one that does not happen.
- EventTheorems.NothingLost: a day file counts as holding its rows while it is unreadable; a file cut short between its rename and its checksum stays refused.
- The order of lines in a day file, gzip and JSON encoding of rows, and timestamps that are not canonical UTC.
- The scan that selects compaction candidates and days to archive: the candidates and days are arguments of the passes.
- IdempotencyStore.Store.Reserve: states the undisturbed case; interleavings are in the step machine.
- Wait times and counters of the pool, and the five-second drain limit of close.
- CSV export and paging of the audit log; a row's canonical text and SHA-256 are one hash function.
- CanonicalProof.TextIffSame: strings are sequences of Unicode scalar values, so lone surrogates and the UTF-16 order of astral keys are not modelled; a number is its own finite JSON text.
- Signature checking and decoding, which are an oracle.
- Replay.TimelineAgrees: durations are not modelled; the payment ledger, task summary and throughput projections are left out as easy members.
- Keyset.ListAll: the table does not change during the scan; agents' keys change with their last-seen time, so the walk theorems under changes are for tasks.
- Cursor encoding: a cursor is its key; one that cannot be decoded is treated by both listings as one with an empty part is.
- The summary over several circuit breakers of one name.
- HTTP, WebSocket and SSE layers, configuration, metrics, the frontend, and the contract and provider clients.
