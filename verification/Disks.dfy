/** The durable state of one workflow as a value: its ledger and its projection rows, and
    the single writes that the engine and the replay perform on them
    (persistence/state_store.py, orchestration/engine.py). */
module Disks {
  import opened Wrappers
  import opened StateMachine
  import opened Events
  import opened Histories

  datatype WorkflowRow = WorkflowRow(
    status: WorkflowStatus,
    lastEventSequence: int,
    tokensUsed: int,
    modelCalls: int,
    toolCalls: int)

  /** The text "task-{taskId}-attempt-{attempt}". */
  datatype Key = Key(taskId: TaskId, attempt: nat)

  datatype Disk = Disk(
    history: History,
    workflow: Option<WorkflowRow>,
    tasks: map<TaskId, TaskStatus>,
    keys: map<Key, string>)

  const COMMITTED := "committed"

  // ---- Reads ----

  function TaskStatusOf(d: Disk, t: TaskId): TaskStatus {
    if t in d.tasks then d.tasks[t] else Pending
  }

  function WorkflowStatusOf(d: Disk): WorkflowStatus {
    match d.workflow
    case Some(row) => row.status
    case None => Created
  }

  predicate IsDuplicate(d: Disk, k: Key) {
    KeyCommitted(d.keys, k)
  }

  predicate KeyCommitted(keys: map<Key, string>, k: Key) {
    k in keys && keys[k] == COMMITTED
  }

  // ---- Writes to the rows ----

  /** The keyword arguments of one `upsert_workflow` call. */
  datatype Change =
    | StatusOnly
    | LastSequence(sequence: int)
    | ModelUsage(tokens: int, modelCalls: int)
    | ToolUsage(toolCalls: int)

  function Upserted(row: Option<WorkflowRow>, status: WorkflowStatus, change: Change): WorkflowRow {
    var base := (match row case Some(r) => r case None => WorkflowRow(status, -1, 0, 0, 0)).(status := status);
    match change
    case StatusOnly => base
    case LastSequence(sequence) => base.(lastEventSequence := sequence)
    case ModelUsage(tokens, calls) => base.(tokensUsed := tokens, modelCalls := calls)
    case ToolUsage(calls) => base.(toolCalls := calls)
  }

  function PutWorkflow(d: Disk, status: WorkflowStatus, change: Change): Disk {
    d.(workflow := Some(Upserted(d.workflow, status, change)))
  }

  function PutTask(d: Disk, t: TaskId, s: TaskStatus): Disk {
    d.(tasks := d.tasks[t := s])
  }

  function PutKey(d: Disk, k: Key, status: string): Disk {
    d.(keys := d.keys[k := status])
  }

  function Log(d: Disk, e: Record): Disk {
    d.(history := d.history + [e])
  }

  // ---- Engine operations, as a ledger write and the row write that follows it ----

  function TaskEventType(target: TaskStatus): EventType {
    match target
    case Claimed => TaskClaimed
    case Proposing => ActionProposed
    case Executing => ActionExecutionStarted
    case Committed => ActionCommitted
    case Rejected => ActionRejected
    case RetryWait => ActionRejected
    case _ => TaskReady
  }

  function TaskRecord(t: TaskId, current: TaskStatus, target: TaskStatus): Record {
    Record(Some(t), TaskEventType(target), Payload(Some(TaskText(current)), Some(TaskText(target)), map[]))
  }

  /** What the label of a task event tells: three labels stand for one status each, ACTION_REJECTED
      for two, and TASK_READY for all the others, FAILED included. */
  lemma TaskLabels(target: TaskStatus)
    ensures TaskEventType(target) == TaskClaimed <==> target == Claimed
    ensures TaskEventType(target) == ActionProposed <==> target == Proposing
    ensures TaskEventType(target) == ActionExecutionStarted <==> target == Executing
    ensures TaskEventType(target) == ActionCommitted <==> target == Committed
    ensures TaskEventType(target) == ActionRejected <==> target in {Rejected, RetryWait}
    ensures TaskEventType(target) == TaskReady <==>
      target !in {Claimed, Proposing, Executing, Committed, Rejected, RetryWait}
  {
  }

  /** `transition_task` up to the ledger write. */
  function LogTask(d: Disk, t: TaskId, target: TaskStatus): Disk {
    Log(d, TaskRecord(t, TaskStatusOf(d, t), target))
  }

  function Transitioned(d: Disk, t: TaskId, target: TaskStatus): Disk {
    PutTask(LogTask(d, t, target), t, target)
  }

  /** The operations that change the workflow status after its creation. */
  datatype WorkflowOp =
    | Transition(target: WorkflowStatus)
    | RequestApproval(proposal: string, reason: string)
    | Approve(proposal: string)
    | Reject(proposal: string, reason: string)

  function OpTarget(op: WorkflowOp): WorkflowStatus {
    match op
    case Transition(target) => target
    case RequestApproval(_, _) => Paused
    case Approve(_) => Running
    case Reject(_, _) => Running
  }

  predicate OpAllowed(op: WorkflowOp, current: WorkflowStatus) {
    match op
    case Transition(target) => WorkflowStep(current, target)
    case RequestApproval(_, _) => current == Running
    case Approve(_) => current == Paused
    case Reject(_, _) => current == Paused
  }

  function WorkflowEventType(target: WorkflowStatus): EventType {
    match target
    case Created => WorkflowCreated
    case Compiled => GoalCompiled
    case Planned => PlanValidated
    case Running => WorkflowCreated
    case Paused => HumanApprovalRequested
    case Recovering => RecoveryStarted
    case Completed => WorkflowCompleted
    case Failed => WorkflowFailed
    case Cancelled => WorkflowFailed
  }

  /** What the label of a workflow transition tells: a cancelled workflow is logged as failed, a
      running one as created. */
  lemma WorkflowLabels(target: WorkflowStatus)
    ensures WorkflowEventType(target) == WorkflowCreated <==> target in {Created, Running}
    ensures WorkflowEventType(target) == GoalCompiled <==> target == Compiled
    ensures WorkflowEventType(target) == PlanValidated <==> target == Planned
    ensures WorkflowEventType(target) == HumanApprovalRequested <==> target == Paused
    ensures WorkflowEventType(target) == RecoveryStarted <==> target == Recovering
    ensures WorkflowEventType(target) == WorkflowCompleted <==> target == Completed
    ensures WorkflowEventType(target) == WorkflowFailed <==> target in {WorkflowStatus.Failed, WorkflowStatus.Cancelled}
  {
  }

  function OpEventType(op: WorkflowOp): EventType {
    match op
    case Transition(target) => WorkflowEventType(target)
    case RequestApproval(_, _) => HumanApprovalRequested
    case Approve(_) => HumanApprovalReceived
    case Reject(_, _) => HumanApprovalReceived
  }

  function OpDetails(op: WorkflowOp): map<string, string> {
    match op
    case Transition(_) => map[]
    case RequestApproval(proposal, reason) => map["proposal_id" := proposal, "reason" := reason]
    case Approve(proposal) => map["proposal_id" := proposal, "approved" := "true"]
    case Reject(proposal, reason) => map["proposal_id" := proposal, "approved" := "false", "reason" := reason]
  }

  function OpRecord(op: WorkflowOp, current: WorkflowStatus): Record {
    Record(None, OpEventType(op),
           Payload(Some(WorkflowText(current)), Some(WorkflowText(OpTarget(op))), OpDetails(op)))
  }

  function LogOp(d: Disk, op: WorkflowOp): Disk {
    Log(d, OpRecord(op, WorkflowStatusOf(d)))
  }

  function Operated(d: Disk, op: WorkflowOp): Disk {
    PutWorkflow(LogOp(d, op), OpTarget(op), StatusOnly)
  }

  function CreationRecord(goal: string, repository: string): Record {
    Record(None, WorkflowCreated, Payload(None, None, map["goal_id" := goal, "repository_path" := repository]))
  }

  function CreatedDisk(d: Disk, goal: string, repository: string): Disk {
    PutWorkflow(Log(d, CreationRecord(goal, repository)), Created, StatusOnly)
  }

  /** `record_model_call`: does nothing without a workflow row. */
  function ModelCalled(d: Disk, inputTokens: int, outputTokens: int): Disk {
    match d.workflow
    case None => d
    case Some(row) =>
      PutWorkflow(d, row.status, ModelUsage(row.tokensUsed + inputTokens + outputTokens, row.modelCalls + 1))
  }

  function ToolCalled(d: Disk): Disk {
    match d.workflow
    case None => d
    case Some(row) => PutWorkflow(d, row.status, ToolUsage(row.toolCalls + 1))
  }

  // ---- Replay (recovery/replay.py) ----

  /** The row write, if any, that the replay performs for event `e`. */
  function ReplayOne(d: Disk, e: Record): Disk {
    match e.taskId
    case None => d
    case Some(t) =>
      match Written(e, t)
      case None => d
      case Some(s) => PutTask(d, t, s)
  }

  /** The rows after replaying the first `k` events over them. */
  function ReplayPrefix(d: Disk, k: nat): Disk
    requires k <= |d.history|
  {
    if k == 0 then d else ReplayOne(ReplayPrefix(d, k - 1), d.history[k - 1])
  }

  function ReplayEnd(d: Disk): Disk {
    PutWorkflow(d, ReplayedWorkflow(d.history), LastSequence(|d.history| - 1))
  }

  /** `reconstruct_state` as a whole. */
  function Replayed(d: Disk): Disk {
    if d.history == [] then d else ReplayEnd(ReplayPrefix(d, |d.history|))
  }

  /** One of the first `k` events writes the row of `t`. */
  predicate Touched(h: History, k: nat, t: TaskId)
    requires k <= |h|
  {
    exists i :: 0 <= i < k && Written(h[i], t).Some?
  }

  /** The row of `t` in `tasks` after the first `k` events were replayed over `before`. */
  ghost predicate ReplayedRow(before: Disk, k: nat, tasks: map<TaskId, TaskStatus>, t: TaskId)
    requires k <= |before.history|
  {
    if Touched(before.history, k, t) then
      t in tasks && tasks[t] == Fold(before.history[..k], t)
    else
      (t in tasks <==> t in before.tasks) && (t in tasks ==> tasks[t] == before.tasks[t])
  }

  /** A partial replay writes the fold of the events it has seen, and touches no other row. */
  lemma {:induction false} PartialReplay(d: Disk, k: nat, t: TaskId)
    requires k <= |d.history|
    ensures ReplayPrefix(d, k) == d.(tasks := ReplayPrefix(d, k).tasks)
    ensures ReplayedRow(d, k, ReplayPrefix(d, k).tasks, t)
  {
    if k > 0 {
      PartialReplay(d, k - 1, t);
      FoldPrefix(d.history, k - 1, t);
      assert Touched(d.history, k, t) <==> Touched(d.history, k - 1, t) || Written(d.history[k - 1], t).Some?;
    }
  }

  /** Replaying twice is replaying once. */
  lemma ReplayIdempotent(d: Disk)
    ensures Replayed(Replayed(d)) == Replayed(d)
  {
    var n := |d.history|;
    var once, twice := Replayed(d), Replayed(Replayed(d));
    forall t: TaskId ensures t in once.tasks <==> t in twice.tasks
      ensures t in once.tasks ==> once.tasks[t] == twice.tasks[t]
    {
      PartialReplay(d, n, t);
      if d.history != [] {
        PartialReplay(once, n, t);
      }
    }
    assert once.tasks == twice.tasks;
    PartialReplay(d, n, 0);
    if d.history != [] {
      PartialReplay(once, n, 0);
    }
  }

  // ---- Agreement between rows and ledger ----

  /** Every task row says what the ledger folds to. */
  ghost predicate Agrees(d: Disk) {
    forall t :: TaskStatusOf(d, t) == Fold(d.history, t)
  }
}
