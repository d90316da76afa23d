/** The orchestrator engine (orchestration/engine.py): every operation validates against the
    projection, appends to the ledger and then updates the projection. */
module Engines {
  import opened Wrappers
  import opened StateMachine
  import opened Events
  import opened EventStores
  import opened Histories
  import opened Disks
  import opened Journals
  import opened StateStores

  datatype EngineError =
    | InvalidTask(currentTask: TaskStatus, targetTask: TaskStatus)
    | InvalidWorkflow(current: WorkflowStatus, target: WorkflowStatus)
    | NotRunning(found: WorkflowStatus)
    | NotPaused(found: WorkflowStatus)

  /** The error the code raises for an operation that the current status does not allow. */
  function OpError(op: WorkflowOp, current: WorkflowStatus): EngineError {
    match op
    case Transition(target) => InvalidWorkflow(current, target)
    case RequestApproval(_, _) => NotRunning(current)
    case Approve(_) => NotPaused(current)
    case Reject(_, _) => NotPaused(current)
  }

  /** The payload of the last event, apart from its statuses. */
  function LastDetails(h: History): map<string, string> {
    if h == [] then map[] else h[|h| - 1].payload.details
  }

  class OrchestratorEngine {
    const events: EventStore
    const state: StateStore
    const workflow: WorkflowId
    const journal: Journal

    constructor (events: EventStore, state: StateStore, workflow: WorkflowId)
      ensures this.events == events && this.state == state && this.workflow == workflow
      ensures journal == events.journal
    {
      this.events, this.state, this.workflow := events, state, workflow;
      this.journal := events.journal;
    }

    /** Both stores write to one journal. */
    ghost predicate Valid()
      reads this, events
    {
      events.Valid() && events.journal == journal && state.journal == journal
    }

    /** The workflow's durable state, as a value. */
    ghost function OnDisk(): Disk
      reads this, events, state
    {
      Disk(Records(events.Ledger(workflow)), state.workflow, state.tasks, state.idempotency)
    }

    /** The same, with the writes that led to it. */
    ghost function Stored(): Storage
      reads this, events, state, journal
    {
      Storage(OnDisk(), journal.entries)
    }

    /** Appends one event. The engine always asks for the next number, so the store never
        has to renumber an event. */
    method AppendEvent(record: Record) returns (sealed: Event)
      requires Valid()
      modifies events, journal
      ensures Valid() && Stored() == Wrote(old(Stored()), EventWrite(record))
      ensures sealed.sequence == |old(events.Ledger(workflow))|
      ensures sealed.record == record
      ensures forall v :: v != workflow ==> events.Ledger(v) == old(events.Ledger(v))
    {
      var latest := events.GetLatestSequence(workflow);
      sealed := events.Append(workflow, Draft(latest + 1, record));
      assert sealed.sequence == latest + 1;
      assert Records(events.Ledger(workflow)) == Records(old(events.Ledger(workflow))) + [record];
    }

    method CreateWorkflow(goal: string, repository: string)
      requires Valid()
      modifies events, state`workflow, journal
      ensures Valid() && OnDisk() == CreatedDisk(old(OnDisk()), goal, repository)
      ensures LastDetails(OnDisk().history) == map["goal_id" := goal, "repository_path" := repository]
      ensures journal.entries == old(journal.entries) +
        [EventWrite(CreationRecord(goal, repository))] + [WorkflowWrite(Created, StatusOnly)]
    {
      var _ := AppendEvent(CreationRecord(goal, repository));
      state.UpsertWorkflow(Created, StatusOnly);
    }

    function GetWorkflowStatus(): WorkflowStatus
      reads this, state
    {
      match state.workflow
      case Some(row) => row.status
      case None => Created
    }

    method TransitionWorkflow(target: WorkflowStatus) returns (r: Outcome<EngineError>)
      requires Valid()
      modifies events, state`workflow, journal
      ensures Valid()
      ensures Applied(old(Stored()), Transition(target), r, Stored())
      ensures r.Pass? <==> WorkflowStep(old(GetWorkflowStatus()), target)
      ensures GetWorkflowStatus() == if r.Pass? then target else old(GetWorkflowStatus())
    {
      var current := GetWorkflowStatus();
      if !WorkflowStep(current, target) {
        return Fail(InvalidWorkflow(current, target));
      }
      var _ := AppendEvent(OpRecord(Transition(target), current));
      state.UpsertWorkflow(target, StatusOnly);
      return Pass;
    }

    method RequestApproval(proposal: string, reason: string) returns (r: Outcome<EngineError>)
      requires Valid()
      modifies events, state`workflow, journal
      ensures Valid()
      ensures Applied(old(Stored()), WorkflowOp.RequestApproval(proposal, reason), r, Stored())
      ensures r.Pass? <==> old(GetWorkflowStatus()) == Running
      ensures GetWorkflowStatus() == if r.Pass? then Paused else old(GetWorkflowStatus())
      ensures r.Pass? ==> LastDetails(OnDisk().history) == map["proposal_id" := proposal, "reason" := reason]
    {
      var current := GetWorkflowStatus();
      if current != Running {
        return Fail(NotRunning(current));
      }
      if !WorkflowStep(current, Paused) {
        return Fail(InvalidWorkflow(current, Paused));
      }
      var _ := AppendEvent(OpRecord(WorkflowOp.RequestApproval(proposal, reason), current));
      state.UpsertWorkflow(Paused, StatusOnly);
      return Pass;
    }

    method Approve(proposal: string) returns (r: Outcome<EngineError>)
      requires Valid()
      modifies events, state`workflow, journal
      ensures Valid()
      ensures Applied(old(Stored()), WorkflowOp.Approve(proposal), r, Stored())
      ensures r.Pass? <==> old(GetWorkflowStatus()) == Paused
      ensures GetWorkflowStatus() == if r.Pass? then Running else old(GetWorkflowStatus())
      ensures r.Pass? ==> LastDetails(OnDisk().history) == map["proposal_id" := proposal, "approved" := "true"]
    {
      var current := GetWorkflowStatus();
      if current != Paused {
        return Fail(NotPaused(current));
      }
      if !WorkflowStep(current, Running) {
        return Fail(InvalidWorkflow(current, Running));
      }
      var _ := AppendEvent(OpRecord(WorkflowOp.Approve(proposal), current));
      state.UpsertWorkflow(Running, StatusOnly);
      return Pass;
    }

    method Reject(proposal: string, reason: string) returns (r: Outcome<EngineError>)
      requires Valid()
      modifies events, state`workflow, journal
      ensures Valid()
      ensures Applied(old(Stored()), WorkflowOp.Reject(proposal, reason), r, Stored())
      ensures r.Pass? <==> old(GetWorkflowStatus()) == Paused
      ensures GetWorkflowStatus() == if r.Pass? then Running else old(GetWorkflowStatus())
      ensures
        var details := map["proposal_id" := proposal, "approved" := "false", "reason" := reason];
        r.Pass? ==> LastDetails(OnDisk().history) == details
    {
      var current := GetWorkflowStatus();
      if current != Paused {
        return Fail(NotPaused(current));
      }
      if !WorkflowStep(current, Running) {
        return Fail(InvalidWorkflow(current, Running));
      }
      var _ := AppendEvent(OpRecord(WorkflowOp.Reject(proposal, reason), current));
      state.UpsertWorkflow(Running, StatusOnly);
      return Pass;
    }

    /** Validates against the row, logs the move, then updates the row; a refused move leaves
        the disk as it was. */
    method TransitionTask(t: TaskId, target: TaskStatus) returns (r: Outcome<EngineError>)
      requires Valid()
      modifies events, state`tasks, journal
      ensures Valid()
      ensures r == if TaskStep(TaskStatusOf(old(OnDisk()), t), target) then Pass
                   else Fail(InvalidTask(TaskStatusOf(old(OnDisk()), t), target))
      ensures OnDisk() == if r.Pass? then Transitioned(old(OnDisk()), t, target) else old(OnDisk())
      ensures journal.entries == old(journal.entries) + if r.Pass? then
        [EventWrite(TaskRecord(t, TaskStatusOf(old(OnDisk()), t), target))] + [TaskWrite(t, target)] else []
    {
      var row := state.GetTask(t);
      var current := if row.Some? then row.value else Pending;
      if !TaskStep(current, target) {
        return Fail(InvalidTask(current, target));
      }
      var _ := AppendEvent(TaskRecord(t, current, target));
      state.UpsertTask(t, target);
      return Pass;
    }

    /** Writes PENDING rows, without events. */
    method RegisterTasks(ids: seq<TaskId>)
      requires Valid()
      modifies state`tasks, journal
      ensures Valid() && Stored() == StoredTasks(old(Stored()), ids)
      ensures OnDisk() == old(OnDisk()).(tasks := state.tasks)
      ensures state.tasks.Keys == old(state.tasks.Keys) + (set t | t in ids)
      ensures forall t :: t in state.tasks ==>
        state.tasks[t] == if t in ids then Pending else old(state.tasks)[t]
    {
      hide StoredTasks;
      StoredNext(old(Stored()), [], 0);
      assert ids[..0] == [];
      for i := 0 to |ids|
        invariant Stored() == StoredTasks(old(Stored()), ids[..i])
        invariant state.tasks.Keys == old(state.tasks.Keys) + (set t | t in ids[..i])
        invariant forall t :: t in state.tasks ==>
          state.tasks[t] == if t in ids[..i] then Pending else old(state.tasks)[t]
      {
        StoredNext(old(Stored()), ids, i);
        state.UpsertTask(ids[i], Pending);
        assert ids[..i + 1] == ids[..i] + [ids[i]];
      }
      assert ids[..|ids|] == ids;
    }

    method RecordModelCall(inputTokens: int, outputTokens: int)
      requires Valid()
      modifies state`workflow, journal
      ensures Valid() && OnDisk() == ModelCalled(old(OnDisk()), inputTokens, outputTokens)
      ensures journal.entries == old(journal.entries) +
        match old(state.workflow)
        case None => []
        case Some(row) =>
          [WorkflowWrite(row.status, ModelUsage(row.tokensUsed + inputTokens + outputTokens, row.modelCalls + 1))]
    {
      if state.workflow.Some? {
        var row := state.workflow.value;
        state.UpsertWorkflow(row.status, ModelUsage(row.tokensUsed + inputTokens + outputTokens, row.modelCalls + 1));
      }
    }

    method RecordToolCall()
      requires Valid()
      modifies state`workflow, journal
      ensures Valid() && OnDisk() == ToolCalled(old(OnDisk()))
      ensures journal.entries == old(journal.entries) +
        match old(state.workflow)
        case None => []
        case Some(row) => [WorkflowWrite(row.status, ToolUsage(row.toolCalls + 1))]
    {
      if state.workflow.Some? {
        var row := state.workflow.value;
        state.UpsertWorkflow(row.status, ToolUsage(row.toolCalls + 1));
      }
    }
  }

  /** A workflow operation passes exactly when the row allows it, and then writes one event and
      after it the row; otherwise it writes nothing. */
  ghost predicate Applied(before: Storage, op: WorkflowOp, r: Outcome<EngineError>, after: Storage) {
    var current := WorkflowStatusOf(before.disk);
    if OpAllowed(op, current) then
      && r == Pass
      && after.disk == Operated(before.disk, op)
      && after.journal == before.journal + [EventWrite(OpRecord(op, current))] + [WorkflowWrite(OpTarget(op), StatusOnly)]
    else
      r == Fail(OpError(op, current)) && after == before
  }
}
