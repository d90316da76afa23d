/** Ledger events (domain/event.py), reduced to what the runtime reads back. */
module Events {
  import opened Wrappers
  import opened StateMachine

  /** UUIDs are compared and never computed with. */
  type TaskId = nat
  type WorkflowId = nat

  datatype EventType =
    | WorkflowCreated | GoalCompiled | PlanValidated | TaskReady | TaskClaimed
    | ActionProposed | ActionExecutionStarted | ActionCommitted | ActionRejected
    | RecoveryStarted | HumanApprovalRequested | HumanApprovalReceived
    | WorkflowCompleted | WorkflowFailed

  /** `details` holds the entries other than the two status entries. */
  datatype Payload = Payload(fromStatus: Option<Text>, toStatus: Option<Text>, details: map<string, string>)

  /** What an event says, before the store numbers and seals it. */
  datatype Record = Record(taskId: Option<TaskId>, eventType: EventType, payload: Payload)

  datatype Event = Event(
    sequence: int,
    record: Record,
    payloadHash: string,
    previousHash: Option<string>,
    eventHash: string)

  /** An event as the engine hands it to the store: the hash fields have their defaults. */
  function Draft(sequence: int, record: Record): Event {
    Event(sequence, record, "", None, "")
  }

  function Records(ledger: seq<Event>): (records: seq<Record>)
    ensures |records| == |ledger|
    ensures forall i :: 0 <= i < |ledger| ==> records[i] == ledger[i].record
  {
    seq(|ledger|, i requires 0 <= i < |ledger| => ledger[i].record)
  }
}
