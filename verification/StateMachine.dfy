/** Workflow and task statuses, their text values, and the two transition tables
    (domain/enums.py and domain/state_machine.py). */
module StateMachine {
  import opened Wrappers

  datatype WorkflowStatus =
    | Created | Compiled | Planned | Running | Paused | Recovering
    | Completed | Failed | Cancelled

  datatype TaskStatus =
    | Pending | Ready | Claimed | Proposing | Verifying | Executing | PostVerifying
    | Committed | Rejected | RetryWait | Blocked | Failed | Cancelled

  /** The status strings that appear in event payloads, one constructor for each distinct
      string: "failed" and "cancelled" are values of both enumerations. */
  datatype Text =
    | CreatedText | CompiledText | PlannedText | RunningText | PausedText | RecoveringText | CompletedText
    | PendingText | ReadyText | ClaimedText | ProposingText | VerifyingText | ExecutingText | PostVerifyingText
    | CommittedText | RejectedText | RetryWaitText | BlockedText
    | FailedText | CancelledText
    | OtherText(text: string)

  function WorkflowText(s: WorkflowStatus): Text {
    match s
    case Created => CreatedText
    case Compiled => CompiledText
    case Planned => PlannedText
    case Running => RunningText
    case Paused => PausedText
    case Recovering => RecoveringText
    case Completed => CompletedText
    case Failed => FailedText
    case Cancelled => CancelledText
  }

  function TaskText(s: TaskStatus): Text {
    match s
    case Pending => PendingText
    case Ready => ReadyText
    case Claimed => ClaimedText
    case Proposing => ProposingText
    case Verifying => VerifyingText
    case Executing => ExecutingText
    case PostVerifying => PostVerifyingText
    case Committed => CommittedText
    case Rejected => RejectedText
    case RetryWait => RetryWaitText
    case Blocked => BlockedText
    case Failed => FailedText
    case Cancelled => CancelledText
  }

  /** `WorkflowStatus(text)`, with None for the ValueError. */
  function ParseWorkflow(t: Text): (r: Option<WorkflowStatus>)
    ensures forall s :: WorkflowText(s) == t <==> r == Some(s)
  {
    match t
    case CreatedText => Some(WorkflowStatus.Created)
    case CompiledText => Some(WorkflowStatus.Compiled)
    case PlannedText => Some(WorkflowStatus.Planned)
    case RunningText => Some(WorkflowStatus.Running)
    case PausedText => Some(WorkflowStatus.Paused)
    case RecoveringText => Some(WorkflowStatus.Recovering)
    case CompletedText => Some(WorkflowStatus.Completed)
    case FailedText => Some(WorkflowStatus.Failed)
    case CancelledText => Some(WorkflowStatus.Cancelled)
    case _ => None
  }

  /** `TaskStatus(text)`, with None for the ValueError. */
  function ParseTask(t: Text): (r: Option<TaskStatus>)
    ensures forall s :: TaskText(s) == t <==> r == Some(s)
  {
    match t
    case PendingText => Some(TaskStatus.Pending)
    case ReadyText => Some(TaskStatus.Ready)
    case ClaimedText => Some(TaskStatus.Claimed)
    case ProposingText => Some(TaskStatus.Proposing)
    case VerifyingText => Some(TaskStatus.Verifying)
    case ExecutingText => Some(TaskStatus.Executing)
    case PostVerifyingText => Some(TaskStatus.PostVerifying)
    case CommittedText => Some(TaskStatus.Committed)
    case RejectedText => Some(TaskStatus.Rejected)
    case RetryWaitText => Some(TaskStatus.RetryWait)
    case BlockedText => Some(TaskStatus.Blocked)
    case FailedText => Some(TaskStatus.Failed)
    case CancelledText => Some(TaskStatus.Cancelled)
    case _ => None
  }

  function WorkflowTransitions(s: WorkflowStatus): set<WorkflowStatus> {
    match s
    case Created => {WorkflowStatus.Compiled, WorkflowStatus.Cancelled}
    case Compiled => {WorkflowStatus.Planned, WorkflowStatus.Failed, WorkflowStatus.Cancelled}
    case Planned => {WorkflowStatus.Running, WorkflowStatus.Failed, WorkflowStatus.Cancelled}
    case Running => {WorkflowStatus.Paused, WorkflowStatus.Completed, WorkflowStatus.Failed, WorkflowStatus.Cancelled}
    case Paused => {WorkflowStatus.Running, WorkflowStatus.Recovering, WorkflowStatus.Failed, WorkflowStatus.Cancelled}
    case Recovering => {WorkflowStatus.Running, WorkflowStatus.Failed, WorkflowStatus.Cancelled}
    case Completed => {}
    case Failed => {}
    case Cancelled => {}
  }

  function TaskTransitions(s: TaskStatus): set<TaskStatus> {
    match s
    case Pending => {TaskStatus.Ready, TaskStatus.Cancelled}
    case Ready => {TaskStatus.Claimed, TaskStatus.Blocked, TaskStatus.Cancelled}
    case Claimed => {TaskStatus.Proposing, TaskStatus.Failed, TaskStatus.Cancelled}
    case Proposing => {TaskStatus.Verifying, TaskStatus.Failed, TaskStatus.Cancelled}
    case Verifying => {TaskStatus.Executing, TaskStatus.Rejected, TaskStatus.Failed, TaskStatus.Cancelled}
    case Executing => {TaskStatus.PostVerifying, TaskStatus.Rejected, TaskStatus.Failed, TaskStatus.Cancelled}
    case PostVerifying => {TaskStatus.Committed, TaskStatus.RetryWait, TaskStatus.Rejected, TaskStatus.Failed, TaskStatus.Cancelled}
    case Committed => {}
    case Rejected => {TaskStatus.RetryWait, TaskStatus.Failed, TaskStatus.Cancelled}
    case RetryWait => {TaskStatus.Ready, TaskStatus.Failed, TaskStatus.Cancelled}
    case Blocked => {TaskStatus.Ready, TaskStatus.Cancelled}
    case Failed => {}
    case Cancelled => {}
  }

  predicate WorkflowStep(current: WorkflowStatus, target: WorkflowStatus) {
    target in WorkflowTransitions(current)
  }

  predicate TaskStep(current: TaskStatus, target: TaskStatus) {
    target in TaskTransitions(current)
  }

  /** Where a task can come from, for each status: the table read backwards. CANCELLED can be
      reached from everything but the end, FAILED from everything between claim and end. */
  lemma TaskSources(s: TaskStatus)
    ensures !TaskStep(s, TaskStatus.Pending)
    ensures TaskStep(s, TaskStatus.Ready) <==> s in {TaskStatus.Pending, TaskStatus.RetryWait, TaskStatus.Blocked}
    ensures TaskStep(s, TaskStatus.Claimed) <==> s == TaskStatus.Ready
    ensures TaskStep(s, TaskStatus.Blocked) <==> s == TaskStatus.Ready
    ensures TaskStep(s, TaskStatus.Proposing) <==> s == TaskStatus.Claimed
    ensures TaskStep(s, TaskStatus.Verifying) <==> s == TaskStatus.Proposing
    ensures TaskStep(s, TaskStatus.Executing) <==> s == TaskStatus.Verifying
    ensures TaskStep(s, TaskStatus.PostVerifying) <==> s == TaskStatus.Executing
    ensures TaskStep(s, TaskStatus.Committed) <==> s == TaskStatus.PostVerifying
    ensures TaskStep(s, TaskStatus.Rejected) <==> s in {TaskStatus.Verifying, TaskStatus.Executing, TaskStatus.PostVerifying}
    ensures TaskStep(s, TaskStatus.RetryWait) <==> s in {TaskStatus.PostVerifying, TaskStatus.Rejected}
    ensures TaskStep(s, TaskStatus.Failed) <==>
      s !in {TaskStatus.Pending, TaskStatus.Ready, TaskStatus.Blocked, TaskStatus.Committed, TaskStatus.Failed, TaskStatus.Cancelled}
    ensures TaskStep(s, TaskStatus.Cancelled) <==> s !in {TaskStatus.Committed, TaskStatus.Failed, TaskStatus.Cancelled}
  {
  }

  /** The same for workflows: RUNNING can be reached again only from PAUSED and RECOVERING. */
  lemma WorkflowSources(s: WorkflowStatus)
    ensures !WorkflowStep(s, WorkflowStatus.Created)
    ensures WorkflowStep(s, WorkflowStatus.Compiled) <==> s == WorkflowStatus.Created
    ensures WorkflowStep(s, WorkflowStatus.Planned) <==> s == WorkflowStatus.Compiled
    ensures WorkflowStep(s, WorkflowStatus.Running) <==>
      s in {WorkflowStatus.Planned, WorkflowStatus.Paused, WorkflowStatus.Recovering}
    ensures WorkflowStep(s, WorkflowStatus.Paused) <==> s == WorkflowStatus.Running
    ensures WorkflowStep(s, WorkflowStatus.Recovering) <==> s == WorkflowStatus.Paused
    ensures WorkflowStep(s, WorkflowStatus.Completed) <==> s == WorkflowStatus.Running
    ensures WorkflowStep(s, WorkflowStatus.Failed) <==>
      s !in {WorkflowStatus.Created, WorkflowStatus.Completed, WorkflowStatus.Failed, WorkflowStatus.Cancelled}
    ensures WorkflowStep(s, WorkflowStatus.Cancelled) <==>
      s !in {WorkflowStatus.Completed, WorkflowStatus.Failed, WorkflowStatus.Cancelled}
  {
  }
}
