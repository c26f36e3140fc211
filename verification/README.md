# Chamicore power service: a verified model

The power service switches nodes on and off through their BMCs. A request becomes a *transition* with one *task* per
target node; a pool of workers executes the tasks and counts their outcomes; a PostgreSQL store keeps transitions and
tasks together with a transactional outbox; and a background sync keeps a local copy of the node-to-BMC topology in step
with SMD. This project models the three stateful parts and proves what they keep, over every run and every interleaving.

## How the model is built

**Store** (`Records`, `TransitionStore`, `OutboxReplay`, `Trails`). Tables are maps, the outbox is a sequence. Each public
method is one transaction: a specification function gives the database afterwards and the answer, and the class `Store`,
which works row by row, is proved equal to it. The primary keys, the foreign keys and `UNIQUE (transition_id, node_id)` are
modelled; a transaction may fail before it commits, and the read-back of `UpdateTransition` may fail after it.

**Engine** (`Planning`, `Sections`, `Retry`, `Verification`, `PowerStates`, `TaskQueue`, `Engine`). What the runner does to its shared
maps while it holds a mutex, its loops and its queue are methods of classes. The concurrent whole is a step system: any number of StartTransition and
AbortTransition calls, `globalConcurrency` workers, the bounded queue, the BMC limiters and the database take turns, one
step at a time, in any order. A step is a critical section, a store transaction, a backend call or a channel operation. So
a snapshot taken under the mutex is written by a later step, an abort can arrive between any two steps, and every backend
answers as it likes. The step system uses the same section, store and retry functions that the classes are proved against.

**Invariant** (`Placement`, `Ledger`, `Limiters`, `Evidence`, `EngineInvariant`; steps in `EngineSteps` and `Creation`; induction in
`EngineRuns`). One invariant holds in every reachable state: each task is with exactly one call, queue slot or worker; counts balance;
limiter occupancy is the number of holders; what a worker is about to write follows from what the backends answered; a task's row and
result are what the writes saved for it; committed histories fit the flags of the runner. `Engine` gives each part of the state its own
next-state function, so each part of the invariant is kept by an argument about the parts it speaks of.

**Results over runs** (`Lifecycles`, `Conservation`, `Histories`, `Exclusion`, `ExactReplay`, `Fidelity`, `Liveness`), runs that show what can
go wrong (`Witnesses`), and what ties the queue, the sections, executeTask and the verifier to the step system (`EngineLinks`).

**Topology** (`MappingTables`, `Reconciliation`, `MappingStore`, `Topology`, `TopologySync`, `SyncGuarantees`) and **targets** (`Targets`).
The reconciliation is a script of SQL statements run with and without the foreign key; the sync is a class whose cycle is proved equal to a function
that all results over sequences of cycles are about.

`Text` holds the string operations. Lemmas whose names end in `Means` say what a function that other results are stated with amounts to,
without naming how it is computed. `hide` statements in proofs keep definitions that a proof does not need away from the solver.

## What holds only in part

* *A stored outcome is not always final.* Nothing orders the abort write and the closing write. `Histories.AbortRacesFinal` shows both orders in
  any state that has both pending; `Witnesses.CanceledThoughCompleted` is a run in which the only target succeeds, the runner
  closes the transition as completed, and the table ends with canceled. The complete row of a closed transition stays for good
  if and only if no AbortTransition call stands between its section and its write (`Histories.StoredOutcomeStays`), and it is the state the
  outcomes determine (`Histories.StoredFinalState`).
* *The closing write may be lost for good.* The runner ignores its error and never repeats it, so a closed transition can keep a row without a
  completion time. The row is complete if and only if the closing write was committed and no abort write was committed after it
  (`Histories.CompleteUnlessOverwritten`).
* *A lost task keeps its transition open.* A call that gives up and a "running" write that fails, committed or not, drop tasks that nobody
  counts; no other step does (`Liveness.StepLoses`). `Witnesses.LosesTask` is a run. At rest a registered transition is closed if and only
  if its run had neither (`Liveness.ClosedUnlessLost`).
* *A task row need not pass through running.* It does if and only if the write that announces it is saved: a completed row was
  pending, running and its outcome then, and pending and its outcome otherwise (`Lifecycles.RowCourse`). `Witnesses.SucceededWithoutRunning` is a run
  from pending to succeeded. If the last write is not saved, the row is not terminal and nothing is published although the
  task is counted (`Fidelity.CountedAsWritten`).
* *Replay does not restore `created_at` after any calls.* An update publishes the value it is given and leaves the stored one; replay stays
  exact if and only if the two agree (`OutboxReplay.CreatedAtReplayed`, `OutboxReplay.TaskCreatedAtReplayed`). In every run of the engine they do
  (`ExactReplay.ReplayInEveryRun`).
* *Upsert-then-delete is not always "replace both tables".* It is if and only if every desired link points to a desired endpoint
  (`Reconciliation.ReplacesExactly`); the lists the sync merges always do (`SyncGuarantees.MergeComplete`).

## Model

| member | source | states |
|---|---|---|
| TransitionStore.Store.CreateTransition | services/chamicore-power/internal/store/postgres_transition.go:24-89 | all rows and events of a creation, or nothing: a duplicate id, node or missing parent, or a failed commit leaves the database as it was |
| TransitionStore.Store.UpdateTransition | services/chamicore-power/internal/store/postgres_transition.go:92-165 | row and lifecycle event together, `created_at` untouched; an error after the commit is reported although both are durable |
| TransitionStore.Store.UpdateTransitionTask | services/chamicore-power/internal/store/postgres_transition.go:168-249 | row and, for a terminal state, one result event together; credential and TLS flag are not stored but returned |
| TransitionStore.Store.CollectEvents | services/chamicore-power/internal/store/postgres_transition.go:63-82 | exactly the terminal ones among the created tasks get a result event, in order |
| TransitionStore.NewRowMeans | services/chamicore-power/internal/store/postgres_transition.go:473-560 | an inserted row has the columns given without the space around them, a generated identifier if none is given, and the time of the insert for times that are not given |
| TransitionStore.NewTaskMeans | services/chamicore-power/internal/store/postgres_transition.go:592-640 | the same for a task, which keeps its credential and TLS flag when it is returned |
| TransitionStore.UpdateRowMeans | services/chamicore-power/internal/store/postgres_transition.go:92-165 | when an update of a transition is refused, and otherwise row and event column by column, the creation time kept in the row |
| TransitionStore.UpdateTaskRowMeans | services/chamicore-power/internal/store/postgres_transition.go:168-249 | the same for an update of a task: the row without credential and TLS flag, the answer with them |
| OutboxReplay.ReplayRebuildsTables | services/chamicore-power/internal/store/postgres_transition.go:24-249 | after any sequence of calls, failing or not, rows are stored under their ids, no transition has two tasks for a node, folding the outbox gives the transitions on every updated column, and the last result of a terminal task is its row |
| OutboxReplay.CreatedAtReplayed | services/chamicore-power/internal/store/postgres_transition.go:92-165 | replay of a transition stays exact after an update if and only if the update carried the stored `created_at` |
| OutboxReplay.TaskCreatedAtReplayed | services/chamicore-power/internal/store/postgres_transition.go:168-249 | after a committed terminal update the last result of a task is its row on every stored column if and only if the update carried the stored `created_at` |
| OutboxReplay.OnlyFaultsRefuse | services/chamicore-power/internal/store/postgres_transition.go:168-249 | an update of a task that keeps its transition and node is refused by nothing but a fault |
| OutboxReplay.FailureLeavesNothing | services/chamicore-power/internal/store/postgres_transition.go:24-249 | a call that fails changes nothing, except an update whose read-back alone failed |
| OutboxReplay.CreationReplay | services/chamicore-power/internal/store/events_transition.go:122-182 | one creation publishes, per new terminal task, a result equal to its row, and nothing for any other task |
| Text.SpaceMeans | services/chamicore-power/internal/server/handlers_transitions.go:364-375 | what counts as space: the characters with Unicode's White_Space property |
| Text.TrimSpaceMeans | services/chamicore-power/internal/server/handlers_transitions.go:364-375 | trimming takes the space from both ends, all of it and nothing else |
| Text.LessMeans | services/chamicore-power/internal/engine/runner.go:800-816 | the order of sorted lists is that of the first place where two strings differ, a proper prefix first |
| Planning.NormalizeNodeIDs | services/chamicore-power/internal/engine/runner.go:800-816 | strictly sorted, and exactly the ids that stand in the list with nothing but space around them, blank ones left out |
| Planning.Plan | services/chamicore-power/internal/engine/runner.go:305-391 | one task per node: failed with the last error given for it, or for want of a mapping, and otherwise along the last mapping given, column by column; and the transition with the request, the counts and the state that follow |
| Planning.PlanStates | services/chamicore-power/internal/engine/runner.go:338-396 | failed and pending (planned in a dry run) tasks make up all targets; all fail if and only if no node can be routed |
| Retry.NormalizeConfig | services/chamicore-power/internal/engine/runner.go:818-872 | every limit positive and the base delay at most the maximum, whatever the input; each default; sound settings are kept |
| Retry.BackoffDelay | services/chamicore-power/internal/engine/runner.go:589-608 | the delay before jitter is min(base * 2^(attempt-1), max), also where the conversion to int64 is out of range |
| Retry.DelayGrows | services/chamicore-power/internal/engine/runner.go:589-608 | delays never shrink and stay within base and maximum |
| Retry.RetryDelay | services/chamicore-power/internal/engine/runner.go:589-608 | jitter adds at most half the delay |
| Retry.ExecuteWithRetry | services/chamicore-power/internal/engine/runner.go:567-587 | between 1 and `retryAttempts` calls, all before the last retryable, nil exactly if the last succeeded; a retryable failure that is not the last attempt ends the loop only if the sleep is interrupted; bounded total waiting, and the closing return is unreachable |
| Verification.Verifier.constructor | services/chamicore-power/internal/engine/verify.go:44-63 | a positive poll interval no longer than the window |
| Verification.Verifier.Verify | services/chamicore-power/internal/engine/verify.go:66-103 | no error exactly if the last read says "On" (after On, GracefulRestart, ForceRestart and NMI) or "Off" (after ForceOff and GracefulShutdown), without regard to case and space around it, and no earlier read did; any other operation is refused without a read; at most window/poll + 1 reads; a context error or a timeout only when the window or the caller's context is over |
| PowerStates.VerifiedStateSupported | services/chamicore-power/internal/smd/update.go:36-70 | after an operation that was verified SMD is told "Ready" or "Off", whichever belongs to it, and only SMD itself can fail the update |
| PowerStates.ReachesMeans | services/chamicore-power/internal/engine/verify.go:106-118 | which operations must end in "On" and which in "Off", and that "Ready" and "Off" stand for these states |
| PowerStates.UpdateMeans | services/chamicore-power/internal/smd/update.go:36-70 | the update is refused for a blank node id and for any power state but "On" and "Off", and otherwise says what SMD answers |
| TaskQueue.Queue.Enqueue | services/chamicore-power/internal/engine/queue.go:25-37 | accepted items are appended, within capacity; a refused one changes nothing |
| TaskQueue.Queue.Dequeue | services/chamicore-power/internal/engine/queue.go:39-51 | items leave in the order they came; a closed queue is drained first |
| Sections.Runner.MarkTransitionRunning | services/chamicore-power/internal/engine/runner.go:649-683 | the section marks an entry once, never after an abort; the snapshot is the entry, running, started now |
| Sections.Runner.AbortTransition | services/chamicore-power/internal/engine/runner.go:446-486 | unknown and already aborted transitions are left alone; otherwise the context is canceled, and the snapshot is the entry, canceled |
| Sections.Runner.RecordTaskOutcome | services/chamicore-power/internal/engine/runner.go:685-726 | one outcome counted; the entry is removed and its final snapshot taken exactly when nothing remains |
| Sections.Runner.AcquireBMC | services/chamicore-power/internal/engine/runner.go:746-774 | a limiter per non-blank BMC, made once, never over its limit |
| EngineLinks.OffersLikeTheQueue | services/chamicore-power/internal/engine/queue.go:25-37 | whatever `enqueue` answers, the engine has the step with the same effect, and it waits exactly when `enqueue` does |
| EngineLinks.TakesLikeTheQueue | services/chamicore-power/internal/engine/queue.go:39-51 | whatever `dequeue` answers an idle worker, the engine has the step with the same effect, and it waits exactly when `dequeue` does |
| EngineLinks.MarksLikeTheRunner | services/chamicore-power/internal/engine/runner.go:649-683 | whatever the section answers a worker, its mark step does: same entries, same snapshot, and without an entry the task is given up |
| EngineLinks.AbortsLikeTheRunner | services/chamicore-power/internal/engine/runner.go:446-486 | AbortTransition goes through exactly when the abort step is enabled; same entries, same ended contexts, same snapshot to be written |
| EngineLinks.RecordsLikeTheRunner | services/chamicore-power/internal/engine/runner.go:685-726 | counting an outcome is the record step: same entries, same ended contexts, and the final snapshot is written next if there is one |
| EngineLinks.ChecksLikeTheRunner | services/chamicore-power/internal/engine/runner.go:512-520 | the check completes the task as canceled with 0 attempts if its context has ended, and otherwise announces it as running from now on |
| EngineLinks.ExecutesLikeTheRunner | services/chamicore-power/internal/engine/runner.go:541-587 | where each answer of the executor leads: wait, fail, cancel, or verify; and failure for an operation without an expected state |
| EngineLinks.WakesLikeTheRunner | services/chamicore-power/internal/engine/runner.go:580-586 | a wait that ends early cancels the task, any other is followed by the next attempt |
| EngineLinks.CompletesLikeTheRunner | services/chamicore-power/internal/engine/runner.go:610-634 | the completed row column by column, by how the execution ended: attempts, power state, error detail, times; success fails if SMD has to be told and refuses, and SMD is told "Ready" or "Off" |
| EngineLinks.BackendsAnswerFreely | services/chamicore-power/internal/engine/runner.go:506-648 | no answer of the executor, the timer, the reader, SMD or the database is left out |
| EngineLinks.StopsLikeTheRunner | services/chamicore-power/internal/engine/runner.go:281-292 | the runner can stop at any time, once, its queue is closed after that, and the writes that no worker makes may fail like any other |
| EngineLinks.EngineVerifies | services/chamicore-power/internal/engine/verify.go:66-103 | with as many polls as fit into the window, whatever the poll loop returns after n reads the engine reaches in n steps, with the same last state and ending |
| EngineRuns.RunInv | services/chamicore-power/internal/engine/runner.go:281-775 | the invariant of the engine holds after every run, in every interleaving |
| EngineRuns.StepInv | services/chamicore-power/internal/engine/runner.go:281-775 | every single step keeps it |
| Ledger.RecordBalances | services/chamicore-power/internal/engine/runner.go:685-726 | counting one task keeps all entries balanced and closes its transition exactly at zero |
| Creation.BornBalanced | services/chamicore-power/internal/engine/runner.go:338-422 | the counts a call registers are those of the tasks it created: all, failed, pending |
| Creation.BornCall | services/chamicore-power/internal/engine/runner.go:412-436 | the items a call offers are its pending tasks as created, each once, none offered yet |
| EngineSteps.CallOpen | services/chamicore-power/internal/engine/runner.go:424-436 | while a call has tasks to offer, more than the task in hand remains uncounted, so its transition is not closed |
| EngineSteps.MarkerOpen | services/chamicore-power/internal/engine/runner.go:674-682 | so too while the "running" write of a marked transition is not committed |
| EngineSteps.WorkerOpen | services/chamicore-power/internal/engine/runner.go:701-719 | and while another worker has a task of the transition |
| Lifecycles.RunningAnswer | services/chamicore-power/internal/engine/runner.go:678-681 | the "running" write fails exactly when the environment fails it |
| Lifecycles.EntryFound | services/chamicore-power/internal/engine/runner.go:653-658 | a worker always finds the entry of its transition: no task is lost for a missing one |
| Liveness.StepLoses | services/chamicore-power/internal/engine/runner.go:430-504 | a step loses a task if and only if the task's call gives up before offering it or its worker's "running" write fails |
| Liveness.ClosedUnlessLost | services/chamicore-power/internal/engine/runner.go:424-439 | at rest a registered transition is closed if and only if, in the whole run, its call never gave up and no "running" write of it failed |
| Witnesses.LosesTask | services/chamicore-power/internal/engine/runner.go:430-439 | a run that ends at rest with a lost task and an open transition |
| Conservation.CountsConserved | services/chamicore-power/internal/engine/runner.go:325-428 | in every reachable state successes + failures + remaining = targets, and remaining is exactly the tasks not offered, queued, held or dropped |
| Conservation.ClosedExactlyWhenCounted | services/chamicore-power/internal/engine/runner.go:701-719 | the entry is removed exactly when no task is uncounted, and its counts then add up to the targets |
| Conservation.FinalStateExact | services/chamicore-power/internal/engine/runner.go:728-744 | completed, canceled, failed and partial, each if and only if the outcomes of all targets are such |
| Histories.HistoryLegal | services/chamicore-power/internal/engine/runner.go:470-482 | the possible sequences of committed writes of a transition, with aborts: "running" and final at most once and in order, the abort write anywhere |
| Histories.UndisturbedHistory | services/chamicore-power/internal/engine/runner.go:664-725 | without an abort call the committed states are a prefix of pending, running, final, and the transition is not closed before "running" is committed |
| Histories.StoredFinalState | services/chamicore-power/internal/engine/runner.go:706-725 | a stored row with a completion time has counts that add up and the state the outcomes determine |
| Histories.CompleteUnlessOverwritten | services/chamicore-power/internal/engine/runner.go:720-726 | over any run the row of a registered transition has a completion time if and only if its closing write was committed and no abort write of it was committed since |
| Histories.UnregisteredRow | services/chamicore-power/internal/engine/runner.go:396-404 | over any run the row of a transition that is not registered keeps the counts of its creation, and is complete, planned in a dry run and failed otherwise, without an executable task, unless its call is still to register it; whether or not the closing update of the call went through |
| Histories.StoredOutcomeStays | services/chamicore-power/internal/engine/runner.go:470-482 | the complete row of a closed transition is never changed again, by any continuation, if and only if no AbortTransition call stands between its section and its write |
| Histories.AbortRacesFinal | services/chamicore-power/internal/engine/runner.go:470-482 | the abort write and the closing write can be committed in either order |
| Witnesses.CanceledThoughCompleted | services/chamicore-power/internal/engine/runner.go:470-482 | a run that ends with a completed transition stored as canceled |
| Exclusion.GlobalLimit | services/chamicore-power/internal/engine/runner.go:281-292 | at most `globalConcurrency` tasks are with workers |
| Exclusion.PerBMCLimit | services/chamicore-power/internal/engine/runner.go:526-532 | at most `perBMCConcurrency` workers hold the limiter of a BMC, from acquire to release, each with a task of that BMC; every task of it that is executed or verified is among theirs; occupancy is the number of holders |
| Exclusion.LimitersStay | services/chamicore-power/internal/engine/runner.go:763-774 | a BMC keeps its limiter for the rest of the run |
| Fidelity.ResultOnce | services/chamicore-power/internal/engine/runner.go:610-647 | a task is published once, with its row on every stored column, exactly when its row is terminal; an executable one exactly when its last write was saved |
| Fidelity.CountedAsWritten | services/chamicore-power/internal/engine/runner.go:636-647 | a counted task whose last write was saved has the counted outcome, the attempts made and a completion time in its row and its result; otherwise the row is not terminal and nothing is published |
| Fidelity.LateNeverExecutes | services/chamicore-power/internal/engine/runner.go:506-515 | a task that was dequeued late never reaches the executor; count, row and result say canceled after 0 attempts |
| Fidelity.CanceledNeverExecutes | services/chamicore-power/internal/engine/runner.go:467-515 | from any reachable state: once an abort, a call that gives up or the shutdown ends the context of a transition, no task of it that waits, is queued, or is with a worker that has not checked yet is ever executed, whatever follows; count, row and result say canceled after 0 attempts |
| Fidelity.CanceledExactly | services/chamicore-power/internal/engine/runner.go:467-469 | in every reachable state the context of a transition is canceled if and only if it was aborted, its call gave up, or it is closed |
| Fidelity.UnexecutedMeans | services/chamicore-power/internal/engine/runner.go:512-532 | a task is counted without having been executed only if its context has ended |
| Lifecycles.RowWritesGoThrough | services/chamicore-power/internal/engine/runner.go:521-524 | in every reachable state a worker's write of its row is refused if and only if the environment fails it |
| Lifecycles.StepChange | services/chamicore-power/internal/engine/runner.go:501-647 | each of the two writes of a task is made once, the announcement first, and saved exactly if the environment lets it; no other step touches their record |
| Lifecycles.RowCourse | services/chamicore-power/internal/engine/runner.go:516-647 | over any run the states of an executable task's row are pending, then running if and only if the announcement was saved, then the outcome if and only if the completion was; never announced means canceled after 0 attempts |
| Witnesses.SucceededWithoutRunning | services/chamicore-power/internal/engine/runner.go:521-524 | a run in which a row goes from pending to succeeded |
| Lifecycles.RowMovesForward | services/chamicore-power/internal/store/postgres_transition.go:168-249 | from any reachable state on no row goes back, and a terminal row is never overwritten with another state |
| Lifecycles.CountedOnce | services/chamicore-power/internal/engine/runner.go:685-703 | whatever follows, a counted task stays counted with the same outcome and a dropped one stays dropped |
| ExactReplay.ReplayInEveryRun | services/chamicore-power/internal/store/events_transition.go:76-182 | in every reachable state folding the outbox gives exactly the transition table, and the last result of each terminal task is its row, `created_at` included |
| ExactReplay.AlwaysDated | services/chamicore-power/internal/engine/runner.go:649-726 | every snapshot, entry and call of a transition carries the request, operation, targets and creation time of its row |
| Fidelity.TasksArePlanned | services/chamicore-power/internal/engine/runner.go:338-386 | along any run every task was planned by the very StartTransition call that brought it, for one of that call's nodes, whose id, operation and mapping it carries: pending if the node was routed, planned in a dry run, failed with the reason otherwise |
| Fidelity.RowsNameTasks | services/chamicore-power/internal/store/postgres_transition.go:168-249 | in every reachable state a task row says its transition, node, route, operation and times of creation as created, and neither credential nor TLS flag |
| ExactReplay.RowsNameRequests | services/chamicore-power/internal/engine/runner.go:325-345 | along any run the row of each transition names the request of the call that created it: identifier, user, operation, dry run, number of targets, time |
| Fidelity.RoutingFidelity | services/chamicore-power/internal/engine/runner.go:534-550 | along any run every request made for a task names the task, its transition and its node, and endpoint, credential and TLS flag of the mapping that the call which brought this task resolved for the node; the task table stores neither of the last two |
| Fidelity.CallsWithinPolicy | services/chamicore-power/internal/engine/runner.go:567-587 | the calls made for a counted task follow the retry policy |
| Fidelity.OutcomeFollowsCalls | services/chamicore-power/internal/engine/runner.go:567-635 | unless the last call succeeded, the outcome is fixed by the executor's answers: no call or an ended context is canceled, a final failure or the last attempt is failed |
| Fidelity.SuccessEvidence | services/chamicore-power/internal/engine/runner.go:618-646 | a row and a result that say succeeded rest on an accepted last call, a read of "On" or "Off", whichever the operation asks for, and, where SMD has to be told, on "Ready" or "Off" having been accepted |
| Fidelity.CountedSuccess | services/chamicore-power/internal/engine/runner.go:618-647 | the same for a success that is counted, whether or not its row could be written |
| Liveness.StepUsesWork | services/chamicore-power/internal/engine/runner.go:488-565 | every internal step strictly lowers one natural measure of tasks, stages, attempts and polls left |
| Liveness.NeverStuck | services/chamicore-power/internal/engine/runner.go:746-774 | with a live context some worker can act as long as a task is queued or held, since a limiter holder never waits for a second limiter; and some step is possible as long as any work is left |
| Liveness.WorkEnds | services/chamicore-power/internal/engine/runner.go:488-565 | left to itself the engine takes at most as many steps as its measure says |
| Liveness.MaximalRunsFinish | services/chamicore-power/internal/engine/runner.go:488-565 | every maximal run ends with all tasks counted or dropped, and closes every transition without a dropped task |
| Liveness.QuiescentMeans | services/chamicore-power/internal/engine/runner.go:685-719 | at rest every task is counted or dropped, and a registered transition is closed if and only if none of its tasks was dropped |
| Liveness.LostNeverCloses | services/chamicore-power/internal/engine/runner.go:430-439 | a transition with a dropped task is never closed |
| MappingTables.NormalizeEndpoints | services/chamicore-power/internal/store/postgres_mapping.go:366-394 | exactly the last row given for each BMC id that is not blank, without the space around its columns, in key order |
| MappingTables.NormalizeLinks | services/chamicore-power/internal/store/postgres_mapping.go:396-424 | the same for links: the last one of each node that names a BMC |
| Reconciliation.Outcome | services/chamicore-power/internal/store/postgres_mapping.go:37-125 | when the transaction is refused, and what it leaves otherwise, for all tables and lists |
| Reconciliation.ReplacesExactly | services/chamicore-power/internal/store/postgres_mapping.go:37-125 | upsert-all then delete-stale replaces both tables if and only if the desired links point to desired endpoints |
| Reconciliation.IntactThroughout | services/chamicore-power/internal/store/postgres_mapping.go:37-125 | after every single statement each link's BMC has an endpoint row, on tables without a foreign key as well |
| Reconciliation.ForeignKeyIdle | services/chamicore-power/migrations/postgres/000001_init.up.sql:54-61 | the foreign key refuses nothing and its cascade deletes nothing |
| Reconciliation.OrderMatters | services/chamicore-power/internal/store/postgres_mapping.go:37-125 | with a link before its endpoint, or an endpoint deleted before its links, integrity is lost |
| MappingStore.Mappings.ReplaceTopologyMappings | services/chamicore-power/internal/store/postgres_mapping.go:18-132 | the whole transaction, or nothing if a statement or the commit fails; the reported counts are the rows upserted and deleted |
| MappingStore.ReplaceRefines | services/chamicore-power/internal/store/postgres_mapping.go:18-132 | exactly the normalised desired rows remain, surviving rows keep `created_at`, deleted counts are the old keys not desired |
| MappingStore.ReplaceMeans | services/chamicore-power/internal/store/postgres_mapping.go:18-132 | with covered links each key holds the last row given for it, cleaned, stamped with the time of the call, and with the creation time of its old row; nothing else remains |
| MappingStore.Mappings.ResolveNodeMappings | services/chamicore-power/internal/store/postgres_mapping.go:135-205 | a mapping is resolved if and only if its node is asked for and linked to a BMC whose row has an address and a credential, and it carries that link's BMC and that row's address, credential and TLS flag; every other node asked for is missing, with the code that applies |
| MappingStore.ResolvePartitions | services/chamicore-power/internal/store/postgres_mapping.go:184-204 | each requested node is in exactly one of the two lists, and in which, read off the two tables |
| Topology.BuildDesiredMappings | services/chamicore-power/internal/sync/smd_sync.go:285-383 | a row for exactly the BMCs that SMD lists, themselves or as parents of nodes, with SMD's first usable address, else the stored one, the stored credential, else the default, and the stored TLS flag; a link for each node to the parent its last entry names; in key order |
| Topology.DesiredByBMC | services/chamicore-power/internal/sync/smd_sync.go:339-364 | the store's normalisation leaves the merged endpoints as they are, one per tracked BMC |
| TopologySync.Syncer.SyncOnce | services/chamicore-power/internal/sync/smd_sync.go:173-283 | one cycle: state, tables and result, on every path |
| SyncGuarantees.FullPathAgain | services/chamicore-power/internal/sync/smd_sync.go:285-383 | the merge is a fixed point: a second full cycle on the same lists changes only timestamps |
| SyncGuarantees.CycleFollowsSMD | services/chamicore-power/internal/sync/smd_sync.go:244-262 | after a full cycle the tables hold a row for exactly the BMCs SMD lists, with SMD's address wherever it has one, and each node is linked to the parent SMD lists for it |
| SyncGuarantees.SkipIsSound | services/chamicore-power/internal/sync/smd_sync.go:188-226 | after any sequence of cycles a skipped cycle leaves what a full one would, timestamps aside |
| SyncGuarantees.OnlyReadySkips | services/chamicore-power/internal/sync/smd_sync.go:217-226 | only a syncer that completed a full cycle can skip |
| SyncGuarantees.CycleCounts | services/chamicore-power/internal/sync/smd_sync.go:475-482 | a failed cycle adds one failure and changes neither tables nor digests; any other adds one success; ready is never taken back |
| SyncGuarantees.CycleReports | services/chamicore-power/internal/sync/smd_sync.go:173-283 | when a cycle is skipped, fails or reconciles, and what its status says then: error, times, counts, digests |
| SyncGuarantees.EveryCycleCounted | services/chamicore-power/internal/sync/smd_sync.go:173-283 | successes and failures add up to the cycles run |
| SyncGuarantees.MergeComplete | services/chamicore-power/internal/sync/smd_sync.go:307-314 | merged links only point to merged endpoints |
| SyncGuarantees.CycleKeepsIntegrity | services/chamicore-power/internal/sync/smd_sync.go:256-262 | referential integrity survives every cycle and holds after every full one |
| Targets.SplitJoins | services/chamicore-power/internal/server/handlers_transitions.go:364-375 | splitting at commas loses nothing and leaves no comma |
| Targets.TargetListMeans | services/chamicore-power/internal/server/handlers_transitions.go:364-375 | a name is a target if and only if it is not blank and stands between two commas, or a comma and an end, of some item, with nothing but space around it |
| Targets.ResolveTargets | services/chamicore-power/internal/server/handlers_transitions.go:257-293 | strictly sorted and exactly the names that the node list, or the members of a named group, spell out, or the error of the first failing group, a missing resolver, or no target |
| Targets.WantedTidy | services/chamicore-power/internal/server/handlers_transitions.go:364-375 | whatever a request asks for, directly or through a group, is trimmed and not blank |
| Targets.NothingToNormalize | services/chamicore-power/internal/engine/runner.go:305-308 | the runner's second normalisation does not change resolved targets |
| Targets.OneTaskPerTarget | services/chamicore-power/internal/engine/runner.go:347-386 | one task per target: executable or planned, along the endpoint row that the node's link points to, if and only if that row has an address and a credential, failed with the reason otherwise |

## Left out

- Redfish execution (`engine/redfish_executor.go`), SMD requests, NATS and the outbox relay: executor, reader, updater and SMD answer as the environment likes; the relay is not part of this model.
- SQL text, row scanning, search path and connection handling: a store method is one atomic commit or failure, and `ListTransitions`, `GetTransition` and the other readers only return rows.
- HTTP handlers, scopes, audit, configuration loading, MCP tools and main programs: plumbing around the modelled calls.
- `WaitTransition` of the client: nothing is claimed about waiting, in particular not for a dry run, whose state is outside the client's terminal set.
- JSON, SHA-256 and URL parsing: SMD lists are values, digests are functions assumed free of collisions and never empty, the endpoint normaliser is any function.
- Listing limits of SMD: a list is what SMD returns for one page of `maxSyncPageSize` items; topologies beyond it are not distinguished.
- Random identifiers and event ids: `gen_random_uuid()` is any trimmed non-blank string and may collide; event ids and timestamps of the envelope are not modelled.
- Floating point in `retryDelay`: exact integers, with the out-of-range conversion taken as either platform behaviour; rounding above 2^53 and the int64 sum of delay and jitter are not modelled.
- `close` racing with a send that has passed the closed check (`engine/queue.go:25-37`): enqueue is atomic with its check, and nothing is claimed about the opposite.
- Time in the step system: clocks only stamp rows, timers and deadlines may fire at any enabled point, and a verification makes at most the number of reads that the method for it is proved to make.
- The ticker, the startup retry and the trigger channel of the sync loop: cycles run one at a time in any number and order, as `runMu` makes them.
- Other writers of the mapping tables: none between cycles.
- Case folding outside ASCII and the escapes that `%q` writes: identifiers in error details are quoted as they are, and wrapped error texts are abbreviated.
- Wrap-around of counters: counts are unbounded integers.
- Early errors of StartTransition (runner not started, unknown operation, no target, failing lookup): they return before anything changes; the creation step of the engine takes any normalised node list that is not empty, which is what `Planning.NormalizeNodeIDs` gives, and any routing.
