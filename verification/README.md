# Durable agent runtime: a verified model

The durable half of the runtime executes a plan (tasks with dependencies) for a goal. A scheduler
decides which tasks are READY, an engine validates every status change against a table, appends an
event to a hash-chained ledger and then writes a row of the projection, and a recovery manager
rebuilds the rows from the ledger after a crash. This project models those parts in Dafny and
proves what holds over whole runs: with crashes after any single write, restarts and replays, and
with arbitrary answers of the model and the executor.

## How the project is organised

| file | what it is |
|---|---|
| `StateMachine`, `Events`, `Wrappers` | statuses, transition tables, events, results |
| `HashChain`, `EventStores` | the chain and what it commits to; the store with its sequence cache, as a class |
| `Histories` | folds of a ledger: task status, workflow status, traces |
| `Disks`, `Journals`, `StateStores`, `Engines`, `Recovery` | one durable state and the journal of the writes that led to it; the state store, the engine and the recovery manager, as classes over them |
| `CrashRuns`, `WorkflowRows`, `Budgets`, `Approvals`, `ReplayLimits` | all runs of the engine, one write at a time, with crashes and replays; invariants of them; where a replay does not restore what one might expect |
| `Plans`, `Cycles` | dependency graphs; the three-colour search, as a class |
| `Boards`, `Loops`, `Rounds`, `Outcomes` | promotion and the execution loop as functions of the rows, their laws, the iteration in which each task is committed, and how each task ends |
| `RuntimeRuns`, `RuntimeSafety`, `IdempotencyKeys`, `DependencyOrder`, `Stranding`, `Resuming`, `TornRuns` | all runs of scheduler and attempts, with crashes and replays; what they keep and where they do not; what can still be executed after a crash |
| `Tracking`, `Schedulers`, `Runtimes` | the scheduler and `run_goal`, as classes; each of their writes is a step of a run of `RuntimeRuns` |

The imperative classes and the runs meet in three places. Each method states the new durable state
as a function of the old one (`Transitioned`, `Promote`, `Loop`, ...), about which the laws are
proved. The two stores and the executor append every single write, and every return of the
executor, to one shared ghost journal, and the contracts say what is appended and in which order:
a crash can fall between any two entries. And each method of the scheduler and the runtime carries
a ghost run: `Tracks(plan, run, storage, control)` says that durable state and journal are those of
an executable run, entry by entry, so every theorem over all runs applies to what `RunGoal` does.
That is how it is known that the engine refuses none of its moves, that its duplicate check never
fires, and that every state a crash can leave behind is repaired by a replay (`CrashSafe`).

Conventions:

- The hash function is an arbitrary function from texts to strings of 64 characters, the
  serialiser an arbitrary function from payloads to texts. Where a theorem needs it, it assumes
  that no two of the finitely many texts in play collide; no injectivity is postulated.
- A `Script` says how foreign code answers the n-th attempt at a task: no proposal (an exception
  of the model), or a proposal, whether the boundary accepts it, and whether the execution
  succeeds. Theorems hold for every script.
- A refused transition is an `Outcome`, not a precondition. The runtime's callers prove that the
  outcome passes.
- A plan is *sound* if its ids are distinct, its dependencies lie inside the plan, and it has no
  cycle.
- Methods such as `PromoteTask`, `BlockTask`, `RequeueTask`, `Enter`, `Leave`, `Examine`, `Begin`,
  `Advance`, `Conclude`, `CommitSuccess` or `Finish` are bodies of loops or stretches of one longer
  method of the source.

## Where the code does not do what one might expect

- A workflow whose row is RUNNING replays as FAILED once a task of it has failed, because both
  kinds of status share the texts "failed" and "cancelled", and stays so
  (`FailedTaskFailsWorkflow`). `WorkflowReplay` has the exact condition, for runs with any number
  of restarts. At the end of `run_goal` row and ledger agree (`RunGoal`).
- A crash in the middle of an attempt strands the task: nothing takes it up again
  (`CrashStrandsAttempt`). `CrashSparesIff`, `ExecutableAgainIff` and `ExecutableAgainAnyhowIff` say
  exactly which tasks can still be executed after a crash.
- A crash between the READY and the BLOCKED of a task being blocked lets the task run although its
  dependency failed (`TornPromotionClaims`, `OrderLostWhenTorn`); in all other runs dependency
  order holds (`ClaimsFollowCommits`).
- The chain covers payloads only. Task ids can be exchanged unnoticed (`UncheckedFields`,
  `TaskIdsNotCommitted`), and the last event can be sealed again with any content
  (`LastIsReplaceable`), although docs/adr/003-jsonl-event-ledger.md, line 19, calls any
  modification of any event detectable. The model follows the code; `ModificationUnnoticed` and
  `KeptHashProtects` say exactly which modifications verify.
- The idempotency key of a task is the same for all its attempts. That is harmless
  (`NoFalseDuplicates`), since a key is written only after a success and a success is never
  retried (`AtMostOnceSuccess`).
- A plan with a repeated id can never succeed (`AllDone`, `RunGoal`).

## Model

| member | source | states |
|---|---|---|
| `HashChain.LastHashCommits` | src/durable_agent_runtime/persistence/event_store.py:161-189 | Two verified ledgers end in the same event hash if and only if they have the same length and pairwise equal payload texts, as long as no two of the texts actually hashed in them collide. |
| `HashChain.SameEndOrCollision` | src/durable_agent_runtime/persistence/event_store.py:17-26 | With no assumption on the hash function: verified ledgers with the same last hash and different payload texts yield two different hashed texts with the same digest. |
| `HashChain.HashCommits` | src/durable_agent_runtime/persistence/event_store.py:161-187 | Any equal pair of event hashes in two verified ledgers sits at the same position and fixes everything before it; the first link cannot be mistaken for a later one because digests have a fixed length. |
| `HashChain.SameHashSameLink` | src/durable_agent_runtime/persistence/event_store.py:23-26 | Equal event hashes come from the same previous hash and the same payload text, although the hash input is a plain concatenation. |
| `HashChain.HashesDistinct` | src/durable_agent_runtime/persistence/event_store.py:161-187 | No event hash occurs twice in a verified ledger. |
| `HashChain.DrawnVerifiesIffPrefix` | src/durable_agent_runtime/persistence/event_store.py:161-189 | A sequence of events drawn from a verified ledger, with any dropped, reordered or repeated, verifies if and only if it is a prefix of that ledger. |
| `HashChain.UncheckedFields` | src/durable_agent_runtime/persistence/event_store.py:162-187 | Task ids, event types and sequence numbers can all be exchanged without changing the verdict of the chain check; docs/adr/003-jsonl-event-ledger.md promises more than that. |
| `HashChain.KeptHashProtects` | src/durable_agent_runtime/persistence/event_store.py:161-189 | A ledger of the same length and with the same last event hash as a verified one verifies if and only if it agrees with it in every payload text and every hash (no collision among the texts hashed). |
| `HashChain.ModificationUnnoticed` | src/durable_agent_runtime/persistence/event_store.py:161-189 | Exchanging one event of a verified ledger goes unnoticed if and only if the payload text and the three hashes stay the same, or the event is the last one and is sealed on the one before it. |
| `HashChain.LastIsReplaceable` | src/durable_agent_runtime/persistence/event_store.py:161-189 | The last event can be replaced by one with any content at all: the chain check alone does not protect it. |
| `HashChain.ChainedAppend` | src/durable_agent_runtime/persistence/event_store.py:91-111 | A sealed event put at the end of a verified ledger leaves it verified. |
| `EventStores.EventStore.constructor` | src/durable_agent_runtime/persistence/event_store.py:42-47 | A store opened on well-formed files has the cache invariant although its cache is empty. |
| `EventStores.EventStore.RebuildSequence` | src/durable_agent_runtime/persistence/event_store.py:58-72 | The counter after a restart is the number stored in the last event, -1 for an empty ledger, and only the entry of that workflow changes. |
| `EventStores.EventStore.GetLatestSequence` | src/durable_agent_runtime/persistence/event_store.py:141-145 | Returns the cached counter or the rebuilt one; with the invariant it is one less than the number of events, whether the cache was warm or not. |
| `EventStores.EventStore.Append` | src/durable_agent_runtime/persistence/event_store.py:74-125 | The ledger grows by one sealed event whatever number the caller supplied, other workflows are untouched, and the invariant (verified chain, numbers 0 to n-1, cache equal to what a rebuild gives) is kept. |
| `EventStores.EventStore.VerifyChain` | src/durable_agent_runtime/persistence/event_store.py:152-189 | Reports no error if and only if every link is right; an error is about the first broken event and names the first check it fails. |
| `StateMachine.ParseTask` | src/durable_agent_runtime/domain/enums.py:45-58 | A text parses to a task status if and only if it is the text of that status. |
| `StateMachine.ParseWorkflow` | src/durable_agent_runtime/domain/enums.py:29-40 | A text parses to a workflow status if and only if it is the text of that status; "failed" and "cancelled" parse as both kinds. |
| `StateMachine.TaskSources` | src/durable_agent_runtime/domain/state_machine.py:48-104 | The task table read backwards: from which statuses each status can be reached; CANCELLED from all that are not terminal, FAILED from all between claim and end, CLAIMED from READY alone. |
| `StateMachine.WorkflowSources` | src/durable_agent_runtime/domain/state_machine.py:8-43 | The workflow table read backwards: RUNNING can be reached again only from PAUSED and RECOVERING, nothing leads back to CREATED. |
| `Histories.ForeignEvents` | src/durable_agent_runtime/recovery/replay.py:45-52 | On ledgers that the engine did not write: a task event without a status resets the row to PENDING, one whose text is no task status leaves the row alone. |
| `Histories.CommitPreamble` | src/durable_agent_runtime/domain/state_machine.py:48-104 | On every path of the task table from PENDING, COMMITTED comes directly after READY, CLAIMED, PROPOSING, VERIFYING, EXECUTING, POST_VERIFYING in that order. |
| `Histories.TerminalMeansNoExit` | src/durable_agent_runtime/domain/state_machine.py:87-103 | The terminal statuses are exactly those that the table has no move out of. |
| `Histories.TerminalEndsPath` | src/durable_agent_runtime/domain/state_machine.py:87-103 | A terminal status is the last one of its path. |
| `Histories.RetryBetweenExecutions` | src/durable_agent_runtime/domain/state_machine.py:74-97 | Between two EXECUTING on a path there is a RETRY_WAIT. |
| `Histories.LegalTraces` | src/durable_agent_runtime/orchestration/engine.py:110-135 | The statuses a ledger of validated transitions records for a task form a path of the table from PENDING, ending in the status a replay gives. |
| `Histories.TerminalIsFinal` | src/durable_agent_runtime/domain/state_machine.py:87-103 | Once the ledger has a task in a terminal status, the status never changes again as the ledger grows. |
| `Histories.WorkflowReplayExact` | src/durable_agent_runtime/recovery/replay.py:34-54 | The workflow status a replay derives is the one of the row (what the last replay wrote, or the last workflow event since) if and only if no task event since the last replay overrides it: FAILED or CANCELLED, different from the row, with no later status-bearing event. |
| `Disks.PartialReplay` | src/durable_agent_runtime/recovery/replay.py:36-52 | After k events a replay has changed only task rows, and each touched row is what the first k events say. |
| `Disks.ReplayIdempotent` | src/durable_agent_runtime/recovery/replay.py:26-54 | Replaying a second time changes nothing, counters and keys included. |
| `StateStores.StateStore.UpsertWorkflow` | src/durable_agent_runtime/persistence/state_store.py:78-93 | Inserts or updates the workflow row, as one write; fields that are not named keep their values. |
| `StateStores.StateStore.GetTasksByWorkflow` | src/durable_agent_runtime/persistence/state_store.py:125-128 | Lists every task with a row exactly once, in no promised order. |
| `Engines.OrchestratorEngine.AppendEvent` | src/durable_agent_runtime/orchestration/engine.py:139-158 | The event gets the number the engine asked for, so the renumbering branch of the store is never taken from here; other ledgers are untouched. |
| `Engines.OrchestratorEngine.CreateWorkflow` | src/durable_agent_runtime/orchestration/engine.py:38-55 | Two writes, in this order: a creation event without a status, then a CREATED row. |
| `Engines.OrchestratorEngine.TransitionWorkflow` | src/durable_agent_runtime/orchestration/engine.py:57-82 | Passes if and only if the table allows the move from the status in the row; then it writes first the event and then the row, else nothing. |
| `Engines.OrchestratorEngine.RequestApproval` | src/durable_agent_runtime/orchestration/engine.py:166-198 | Passes if and only if the workflow is RUNNING, and leaves it PAUSED; first the event with proposal and reason is written, then the row. Otherwise nothing is written. |
| `Engines.OrchestratorEngine.Approve` | src/durable_agent_runtime/orchestration/engine.py:200-229 | Passes if and only if the workflow is PAUSED, and leaves it RUNNING; first an event that says approved is written, then the row. Otherwise nothing is written. |
| `Engines.OrchestratorEngine.Reject` | src/durable_agent_runtime/orchestration/engine.py:231-265 | The same, with an event that says not approved and gives the reason. |
| `Engines.OrchestratorEngine.TransitionTask` | src/durable_agent_runtime/orchestration/engine.py:110-135 | Passes if and only if the task table allows the move from the status in the row (PENDING without a row); then it makes exactly two writes, the event with both statuses first and the row second, else none. |
| `Disks.TaskLabels` | src/durable_agent_runtime/orchestration/engine.py:116-126 | What an event label tells: CLAIMED, PROPOSING, EXECUTING and COMMITTED have their own, ACTION_REJECTED stands for REJECTED and RETRY_WAIT, TASK_READY for all others, FAILED included. |
| `Disks.WorkflowLabels` | src/durable_agent_runtime/orchestration/engine.py:63-74 | A CANCELLED workflow is logged as failed, a RUNNING one as created; every other status has its own label. |
| `Engines.OrchestratorEngine.RegisterTasks` | src/durable_agent_runtime/orchestration/engine.py:91-94 | Every task of the plan gets a PENDING row, existing rows included, one write after the other and without any event. |
| `Engines.OrchestratorEngine.RecordModelCall` | src/durable_agent_runtime/orchestration/engine.py:269-284 | Adds the tokens and one call to the counters of an existing row; ledger, status and tasks are untouched. |
| `Engines.OrchestratorEngine.RecordToolCall` | src/durable_agent_runtime/orchestration/engine.py:286-294 | Adds one tool call to an existing row; everything else is untouched. |
| `Recovery.RecoveryManager.VerifyIntegrity` | src/durable_agent_runtime/recovery/replay.py:21-24 | True if and only if the chain of the workflow verifies. |
| `Recovery.RecoveryManager.ReconstructState` | src/durable_agent_runtime/recovery/replay.py:26-54 | Leaves exactly the projection the ledger determines, the fold whose properties are PartialReplay, ReplayIdempotent and WorkflowReplayExact, with the number of the last event; task rows are written in the order of their events, the workflow row last. |
| `Recovery.RecoveryManager.GetIncompleteTasks` | src/durable_agent_runtime/recovery/replay.py:56-60 | Lists exactly the tasks with a row that is not terminal, each once. |
| `RuntimeRuns.JournalPrefix` | src/durable_agent_runtime/orchestration/engine.py:110-135 | Every prefix of the writes of a run is the writes of a prefix of the run, whose disk is what they add up to: a crash between any two writes of the imperative code is a crash of a run. |
| `Tracking.TrackedIsCrashSafe` | src/durable_agent_runtime/recovery/replay.py:26-54 | Wherever a crash falls between the writes of a process that was not restarted, each row is the fold of the ledger or of the ledger minus its last event, and a replay makes all rows the fold of the ledger. |
| `CrashRuns.RowsStep` | src/durable_agent_runtime/orchestration/engine.py:110-135 | Every single write, crash and replay step keeps the relation between rows and ledger that belongs to its phase. |
| `CrashRuns.CrashConsistency` | src/durable_agent_runtime/orchestration/engine.py:110-135 | In every state reachable with crashes after any single write, each row is the fold of the ledger or of the ledger minus its last event, unless a replay is under way or was cut short; while the process is up it is the fold of the ledger. |
| `CrashRuns.RowsAreJustified` | src/durable_agent_runtime/recovery/replay.py:36-52 | In every reachable state whatsoever, interrupted replays included, a row holds a status that some prefix of the ledger gives the task. |
| `CrashRuns.ReplayRestores` | src/durable_agent_runtime/recovery/replay.py:26-54 | From every reachable state a full replay makes every row the fold of the whole ledger, and a second replay changes nothing. |
| `CrashRuns.ReplayAgrees` | src/durable_agent_runtime/recovery/replay.py:36-52 | A full replay repairs rows that lag behind the ledger by any number of events, and touches neither ledger nor keys. |
| `CrashRuns.UninterruptedReplay` | src/durable_agent_runtime/recovery/replay.py:26-54 | From any state in which the process is up or down, a replay that is not interrupted is a run and ends in the replayed state. |
| `CrashRuns.TracesArePaths` | src/durable_agent_runtime/orchestration/engine.py:110-135 | In every run, crashes and replays included, the statuses recorded for a task form a path of the table from PENDING to the status the ledger folds to. |
| `CrashRuns.TerminalEndsTrace` | src/durable_agent_runtime/domain/state_machine.py:87-103 | In every run nothing is recorded for a task after a terminal status. |
| `CrashRuns.CommitsAreEarned` | src/durable_agent_runtime/domain/state_machine.py:48-104 | In every run each COMMITTED of a task is directly preceded by READY, CLAIMED, PROPOSING, VERIFYING, EXECUTING, POST_VERIFYING of that task, in that order. |
| `WorkflowRows.RowIsAlways` | src/durable_agent_runtime/orchestration/engine.py:57-82 | In every run the workflow row is what the last complete replay wrote or the last workflow event since has set. |
| `WorkflowRows.WorkflowEventsAreSteps` | src/durable_agent_runtime/orchestration/engine.py:57-82 | In every run each workflow event records a move that the table allows, from the status that the row had then. |
| `WorkflowRows.WorkflowReplay` | src/durable_agent_runtime/recovery/replay.py:34-54 | In every state of every run in which the process is up, however often it crashed and was restarted, a replay leaves the workflow status as it is if and only if no task event since the last complete replay overrides it. |
| `WorkflowRows.FirstReplay` | src/durable_agent_runtime/recovery/replay.py:34-54 | For a run that was never restarted, the condition is about all events of the ledger. |
| `Budgets.CountersAreSums` | src/durable_agent_runtime/orchestration/engine.py:269-294 | Over every interleaving of calls, transitions, approvals, crashes and replays the counters are the sums over the calls recorded since the row exists. |
| `Approvals.AnswersMatchRequests` | src/durable_agent_runtime/orchestration/engine.py:166-265 | In every run, crashes and replays included, each HUMAN_APPROVAL_RECEIVED has an earlier HUMAN_APPROVAL_REQUESTED with no other RECEIVED between them. |
| `Approvals.ReplayedPauseIsOpen` | src/durable_agent_runtime/recovery/replay.py:34-42 | If a replay leaves the workflow PAUSED, the ledger has a request that is not answered yet. |
| `ReplayLimits.FailedTaskFailsWorkflow` | src/durable_agent_runtime/recovery/replay.py:38-42 | From any state, one task failing and a replay make the workflow FAILED whatever its live status is; in every continuation of that run, crashes, replays and task moves included, it stays FAILED or CANCELLED and every workflow operation is refused. |
| `ReplayLimits.WorkflowEndIsFinal` | src/durable_agent_runtime/domain/state_machine.py:40-42 | In every continuation, crashes and replays included, a COMPLETED workflow stays COMPLETED, FAILED or CANCELLED, a FAILED or CANCELLED one stays FAILED or CANCELLED, and every workflow operation is refused. |
| `ReplayLimits.RunningWorkflowReplaysAsFailed` | src/durable_agent_runtime/recovery/replay.py:38-42 | A concrete run whose workflow is RUNNING in its row and FAILED after a restart. |
| `ReplayLimits.InterruptedReplay` | src/durable_agent_runtime/recovery/replay.py:36-54 | A replay that crashes after k events leaves a row of the state after those k events, for every k: rows can go back in time until a replay is completed. |
| `ReplayLimits.TaskIdsNotCommitted` | src/durable_agent_runtime/persistence/event_store.py:23-26 | For every hash function there are two verified ledgers with the same last hash that replay to different task rows. |
| `Plans.IdsBound` | src/durable_agent_runtime/experiments/durable.py:132 | The number of distinct ids is at most the number of tasks, with equality if and only if the ids are distinct. |
| `Plans.DepMapIsRelation` | src/durable_agent_runtime/orchestration/scheduler.py:117-120 | The map built from the plan is the dependency relation restricted to the ids of the plan; if an id is repeated, its last entry counts. |
| `Plans.FilterKeepsAll` | src/durable_agent_runtime/orchestration/scheduler.py:120 | A dependency that is listed several times stays listed as often. |
| `Plans.DepMapIsInternal` | src/durable_agent_runtime/orchestration/scheduler.py:110-125 | For any plan the map has exactly the ids of the plan as nodes and no edge leaves it. |
| `Plans.TopologicalIsAcyclic` | src/durable_agent_runtime/orchestration/scheduler.py:110-149 | A graph with a dependencies-first order of its nodes has no closed walk. |
| `Cycles.CycleSearch.Dfs` | src/durable_agent_runtime/orchestration/scheduler.py:127-143 | Visits a white node: the path is restored, white nodes strictly decrease, the reported cycles stay genuine, and each edge out of a newly black node yields exactly one cycle if it leads to no earlier black node, and none otherwise. |
| `Cycles.CycleSearch.ExamineAll` | src/durable_agent_runtime/orchestration/scheduler.py:130-141 | The neighbour loop reports one cycle for each listed neighbour on the path, and leaves every other neighbour black. |
| `Cycles.ReportsAreComplete` | src/durable_agent_runtime/orchestration/scheduler.py:131-138 | With one cycle for every listed edge that leads to no earlier node of the black order, an edge closes a reported cycle if and only if it leads to no earlier node, the number of cycles is the number of such edges, and without them the graph is acyclic. |
| `Cycles.FindCycles` | src/durable_agent_runtime/orchestration/scheduler.py:144-149 | The list is empty if and only if the graph is acyclic; every reported list is a simple cycle; the closing edges of the reports are exactly the listed edges that lead to no earlier node of the black order, as often as they are listed; without them no cycle is left; without cycles the black order is topological. |
| `Schedulers.TaskScheduler.DetectCircularDeps` | src/durable_agent_runtime/orchestration/scheduler.py:110-149 | The same for the dependency map of any plan, repeated ids and foreign dependencies included. |
| `Schedulers.TaskScheduler.AreDepsSatisfied` | src/durable_agent_runtime/orchestration/scheduler.py:79-89 | True if and only if every dependency has a COMMITTED row. |
| `Schedulers.TaskScheduler.HasFailedDependency` | src/durable_agent_runtime/orchestration/scheduler.py:91-99 | True if and only if some dependency has a FAILED row. |
| `Schedulers.TaskScheduler.GetReady` | src/durable_agent_runtime/orchestration/scheduler.py:29-38 | Lists exactly the READY tasks, each once. |
| `Schedulers.TaskScheduler.PromotePending` | src/durable_agent_runtime/orchestration/scheduler.py:40-64 | Rows and count are those of the promotion function whose laws follow; no task stays PENDING whose dependencies are all COMMITTED or of which one is FAILED; no attempt is begun, the engine refuses nothing, and every write is a step of a run. |
| `Schedulers.TaskScheduler.RequeueRetryWait` | src/durable_agent_runtime/orchestration/scheduler.py:66-75 | Turns exactly the RETRY_WAIT rows into READY ones and returns how many there were. |
| `Boards.PromoteIsSimultaneous` | src/durable_agent_runtime/orchestration/scheduler.py:40-64 | With distinct ids the sequential loop gives every task the status decided from the rows before the loop. |
| `Boards.PromoteOrderIndependent` | src/durable_agent_runtime/orchestration/scheduler.py:49-64 | With distinct ids the result does not depend on the order of the tasks in the plan. |
| `Boards.PromotedCounts` | src/durable_agent_runtime/orchestration/scheduler.py:49-64 | With distinct ids the returned count is the number of tasks that were PENDING with all dependencies COMMITTED before the loop. |
| `Boards.PromoteKeepsOutcomes` | src/durable_agent_runtime/orchestration/scheduler.py:49-64 | For any plan promotion changes neither the COMMITTED nor the FAILED tasks, and only turns PENDING into READY or BLOCKED. |
| `Boards.PromoteTwice` | src/durable_agent_runtime/orchestration/scheduler.py:40-64 | For any plan an immediate second promotion changes nothing and returns 0. |
| `Loops.AttemptAll` | src/durable_agent_runtime/experiments/durable.py:119-122 | Attempting the READY tasks one after the other, in any order of the list, equals attempting them all at once. |
| `Loops.LoopComesToRest` | src/durable_agent_runtime/experiments/durable.py:106-122 | After any number of iterations no task is READY or in the middle of an attempt. |
| `Loops.LoopDependencies` | src/durable_agent_runtime/experiments/durable.py:106-122 | After any number of iterations every task that got beyond PENDING, and is not BLOCKED, has all its dependencies COMMITTED, and a BLOCKED one has a FAILED dependency (distinct ids). |
| `Loops.FailureIsolation` | src/durable_agent_runtime/experiments/durable.py:114-116 | Where the loop stops for lack of progress on a sound plan, a task is COMMITTED if and only if no task it transitively depends on, itself included, is FAILED or REJECTED. |
| `Loops.StalledMeansLost` | src/durable_agent_runtime/orchestration/scheduler.py:49-64 | On a stalled board every task that is not COMMITTED reaches a FAILED or REJECTED task, although blocking itself is not transitive. |
| `Loops.StalledLoopIsolates` | src/durable_agent_runtime/experiments/durable.py:106-122 | The same for the rows that the loop itself ends in when it stops for lack of progress. |
| `Loops.RetryBoundSuffices` | src/durable_agent_runtime/experiments/durable.py:101-122 | On a sound plan, if every proposal is accepted and each task succeeds by its tenth execution, 10 iterations for each of the n tasks commit all of them. |
| `Loops.RetryBoundIsTight` | src/durable_agent_runtime/experiments/durable.py:103 | A single task that fails its first ten executions is executed exactly ten times and ends in RETRY_WAIT, even if the eleventh execution would succeed. |
| `Rounds.CommitRound` | src/durable_agent_runtime/experiments/durable.py:101-122 | The exact law: on a plan with distinct ids and closed dependencies, with w(t) failed executions before the first success of t, task t is COMMITTED after a number of iterations if and only if that number is at least C(t), where C(t) is the largest C of its dependencies plus w(t) plus 1. |
| `Rounds.BoundSufficesIff` | src/durable_agent_runtime/experiments/durable.py:103 | All n tasks are COMMITTED within the bound of 10n iterations if and only if C(t) is at most 10n for every task. |
| `Rounds.ScheduleExists` | src/durable_agent_runtime/experiments/durable.py:101-122 | On every sound plan, for all numbers of failures, there is such a C. |
| `Rounds.ChainNeedsAllRounds` | src/durable_agent_runtime/experiments/durable.py:103 | The bound is tight for every number of tasks: a chain of n tasks that succeed at their tenth execution is completed by a number of iterations if and only if it is at least 10n. |
| `Outcomes.LastAnswerDecides` | src/durable_agent_runtime/experiments/durable.py:275-336 | Where the loop ends, a task without an attempt is PENDING or BLOCKED; otherwise it is FAILED if and only if the last attempt had no proposal, REJECTED if and only if the proposal was refused, COMMITTED if and only if the execution succeeded, and RETRY_WAIT if and only if it failed. |
| `Outcomes.BlockedMeansFailedDependency` | src/durable_agent_runtime/orchestration/scheduler.py:91-99 | Where the loop stops for lack of progress, a task is BLOCKED if and only if one of its own dependencies is FAILED; a REJECTED or BLOCKED dependency leaves it PENDING. |
| `RuntimeRuns.RefinesEngine` | src/durable_agent_runtime/experiments/durable.py:262-336 | Every run of the runtime is, write by write, a run of the engine, so everything proved of engine runs holds of it. |
| `RuntimeSafety.AtMostOnceSuccess` | src/durable_agent_runtime/experiments/durable.py:262-336 | Over every interleaving of moves, crashes and replays, an execution of a task that is followed by another one failed, and a RETRY_WAIT of the task lies between them in the ledger: at most one execution succeeds. |
| `RuntimeSafety.KeysMeanSuccess` | src/durable_agent_runtime/experiments/durable.py:325-332 | Over every interleaving of moves, crashes and replays, a recorded key means that its task is POST_VERIFYING or COMMITTED. |
| `IdempotencyKeys.SuccessMeansKey` | src/durable_agent_runtime/experiments/durable.py:325-332 | In every run, crashes and replays included, a task that the ledger has COMMITTED has its key on record as "committed". |
| `IdempotencyKeys.KeysAreSuccesses` | src/durable_agent_runtime/experiments/durable.py:325-332 | Whenever the process is up and no task is POST_VERIFYING, the keys on record are exactly those of the COMMITTED tasks. |
| `RuntimeSafety.NoFalseDuplicates` | src/durable_agent_runtime/experiments/durable.py:255 | In spite of the constant key the duplicate check never rejects a proposal, not even after crashes and replays. |
| `RuntimeSafety.NoMoveRefused` | src/durable_agent_runtime/experiments/durable.py:262-336 | In every reachable state, each move the scheduler or an attempt asks for is allowed by the table. |
| `Stranding.LeftAside` | src/durable_agent_runtime/orchestration/scheduler.py:66-75 | A task that is neither PENDING, READY nor RETRY_WAIT, and that the process is not working on, keeps its status however the run goes on. |
| `Stranding.NotExecutedAgain` | src/durable_agent_runtime/experiments/durable.py:119-122 | Such a task is never executed again. |
| `Stranding.CrashStrandsAttempt` | src/durable_agent_runtime/recovery/replay.py:56-60 | A crash in the middle of an attempt strands the task: whatever scheduling, crashes and replays follow, its status stays what it was, so it never becomes terminal, and whenever the process is up its row is one that recovery lists as incomplete. |
| `Resuming.CrashSparesIff` | src/durable_agent_runtime/experiments/durable.py:106-122 | After a crash at any point of any run of any plan, a task that is not PENDING can be executed again in some continuation if and only if the ledger has it READY or RETRY_WAIT. |
| `Resuming.CommitsTask` | src/durable_agent_runtime/experiments/durable.py:106-122 | From a running process, a task can be brought to COMMITTED if it and all it transitively depends on are PENDING, READY, RETRY_WAIT or COMMITTED; tasks later in the order do not move, and no other task loses that prospect. |
| `Resuming.ExecutableAgainIff` | src/durable_agent_runtime/experiments/durable.py:106-122 | On a sound plan, after a crash that tears no promotion, a task can be executed again without tearing one if and only if the ledger has it READY or RETRY_WAIT, or PENDING with everything it transitively depends on PENDING, READY, RETRY_WAIT or COMMITTED. |
| `TornRuns.ExecutableAgainAnyhowIff` | src/durable_agent_runtime/orchestration/scheduler.py:49-64 | With no restriction on the run or on the crashes that follow: on a sound plan a task can be executed again after a crash if and only if the ledger has it READY or RETRY_WAIT, or PENDING with all dependencies COMMITTED, or PENDING with a dependency that is FAILED or can itself be executed again. |
| `TornRuns.StuckForGood` | src/durable_agent_runtime/orchestration/scheduler.py:49-64 | The tasks for which that condition fails never move again, in any continuation. |
| `DependencyOrder.ClaimsFollowCommits` | src/durable_agent_runtime/orchestration/scheduler.py:49-64 | In every run in which no crash falls between the READY and the BLOCKED of one task, each CLAIMED event comes after the COMMITTED events of all dependencies, and every task beyond PENDING that is not BLOCKED or being blocked has them all COMMITTED. |
| `DependencyOrder.BlockingHasReason` | src/durable_agent_runtime/orchestration/scheduler.py:60-63 | In every run a task that is between the READY and the BLOCKED of being blocked has an entry in the plan with a dependency that the ledger has as FAILED. |
| `DependencyOrder.TornPromotionClaims` | src/durable_agent_runtime/orchestration/scheduler.py:60-63 | From every state in which a task is being blocked, a crash at that point and a replay lead to a state in which the task is CLAIMED although one of its dependencies is FAILED and was never COMMITTED, so that dependency order is violated. |
| `DependencyOrder.OrderLostWhenTorn` | src/durable_agent_runtime/orchestration/scheduler.py:60-63 | A concrete plan of two tasks and a run in which the second is claimed after the first has failed. |
| `Tracking.TrackMove` | src/durable_agent_runtime/orchestration/engine.py:110-135 | A move that the runtime makes in a tracked state is a step of a run, and the table allows it. |
| `Tracking.TrackCrash` | src/durable_agent_runtime/recovery/replay.py:26-54 | From any reachable state, crash, restart and full replay are again a run, and end in the replayed state. |
| `Runtimes.DurableRuntime.ExecuteTask` | src/durable_agent_runtime/experiments/durable.py:262-336 | One attempt leaves the task FAILED without a proposal, REJECTED after a refused or duplicate one, COMMITTED with its key after a successful execution, and RETRY_WAIT after a failed one; it logs exactly one start and one end, touches one row, and asks the model once. |
| `Runtimes.DurableRuntime.ExecuteReady` | src/durable_agent_runtime/experiments/durable.py:119-122 | Dispatching the READY list gives the board of a simultaneous round, with as many starts and ends in the ledger as tasks in the list. |
| `Runtimes.DurableRuntime.Iterate` | src/durable_agent_runtime/experiments/durable.py:106-122 | One iteration is one step of the loop function, and stops exactly when nothing is READY after promotion and requeue. |
| `Runtimes.DurableRuntime.RunLoop` | src/durable_agent_runtime/experiments/durable.py:101-122 | The loop ends on the board of the loop function after at most 10n rounds, and its call counter is the number of attempts in the ledger. |
| `Runtimes.DurableRuntime.Finish` | src/durable_agent_runtime/experiments/durable.py:124-166 | Reports success if and only if the ids are distinct and all tasks are COMMITTED, with the figures of the rows, and moves the workflow to COMPLETED or FAILED accordingly. |
| `Runtimes.DurableRuntime.RunGoal` | src/durable_agent_runtime/experiments/durable.py:56-166 | For every plan and all answers: circular error if and only if the plan has a cycle, with all cycles in it; otherwise the rows of the loop function, success if and only if ids are distinct and all tasks COMMITTED, success if and only if the schedule fits into 10n iterations, model calls equal to CLAIMED events and to attempt ends and at most 10 times n times n; workflow COMPLETED if and only if successful, replayed status equal to the live one, no task READY or mid-attempt, each task in the status its last answer decides, the keys exactly those of the COMMITTED tasks, isolation of failures; and wherever a crash falls between two writes, a replay repairs the rows. |
| `Runtimes.CallLimitIsProduct` | src/durable_agent_runtime/experiments/durable.py:103 | The limit on model calls is iterations times tasks, so 10 times n squared for a run. |
| `Runtimes.AllDone` | src/durable_agent_runtime/experiments/durable.py:128-133 | Comparing the number of COMMITTED rows with the length of the plan detects success if and only if no id is repeated. |

## Left out

- Several workflows over one state store: the rows, the engine and the runtime belong to one workflow, so the filter by workflow id and the upsert of another workflow's task row are not modelled. The event store is modelled with any number of ledgers.
- Files, fsync, JSON and SQLite: a ledger is a sequence of whole events, an append is atomic, tables are maps. Blank, torn or unparseable lines, and two writers on one directory, do not occur.
- SHA-256 and canonical JSON themselves: arbitrary functions.
- Model providers, prompts, executors, the tool registry and git checkpoints: foreign calls, replaced by the script.
- The schema, budget and policy checks of the boundary service: one verdict of the script. Its duplicate check is modelled.
- The fault injector: its kills are the crashes of `CrashRuns` and `RuntimeRuns`; its injected model timeout, raised outside the handler that would mark the task FAILED, ends the process like a crash. Injected tool timeouts are failed executions.
- `RunGoal` itself does not crash: crashes between any two of its writes are the prefixes of its journal, and the crashes in the runs of `RuntimeRuns`.
- In runs, task ids are registered before the ledger has an event of them (`Register`); re-registration of a task that has started is modelled in `RegisterTasks` only.
- `RunGoal` starts on an empty directory, and on a new world. A command that resumes a workflow does not exist in the source.
- The default plan that `run_goal` builds when it is given none: a plan of one task.
- `get_ready_tasks` and `get_pending_tasks` of the engine, `get_latest_event`, `get_events_by_type`: queries like those modelled.
- The `parent` map of the cycle search, which is written and never read, and the order in which it enumerates a set of ids: the theorems hold for any order.
- The dictionary of per-task results, output strings and the text of error messages; the three errors are told apart.
- A scheduler without an engine, which writes rows without events.
- Timestamps, event and correlation ids, actors, and the row fields that no modelled code reads (`attempt_count`, `last_error`, `estimated_cost` and the like). `max_attempts` of a task is never read by the source.
- The baseline runtime, the experiment runner, the command line, reports and the documentation site.
- Boards.PromoteIsSimultaneous: assumes distinct ids, which nothing in the source enforces; `Promote`, `PromoteTwice`, `PromoteKeepsOutcomes` and `RunGoal` cover repeated ids as well. The same holds of `PromoteOrderIndependent`, `PromotedCounts`, `FailureIsolation`, `RetryBoundSuffices` and `ClaimsFollowCommits`.
- Loops.RetryBoundSuffices: is about the loop function; `RunLoop` and `RunGoal` connect it to the code.
- Loops.FailureIsolation: needs the loop to have stopped for lack of progress. After the bound of 10n iterations a task may also be left in RETRY_WAIT or PENDING.
- Resuming.ExecutableAgainIff: is about continuations that tear no promotion; `ExecutableAgainAnyhowIff` has the condition for all. In both, a task without a row counts as PENDING, and a continuation may register it.
- Rounds.CommitRound: assumes that no proposal is missing or refused and that each task succeeds some time; otherwise `StalledLoopIsolates` says what is committed.
