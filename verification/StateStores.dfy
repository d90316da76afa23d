/** The projection tables (persistence/state_store.py), for the one workflow of a data directory. */
module StateStores {
  import opened Wrappers
  import opened StateMachine
  import opened Events
  import opened Disks
  import opened Journals

  class StateStore {
    const journal: Journal
    var workflow: Option<WorkflowRow>
    var tasks: map<TaskId, TaskStatus>
    var idempotency: map<Key, string>

    constructor (journal: Journal)
      ensures this.journal == journal && workflow == None && tasks == map[] && idempotency == map[]
    {
      this.journal, workflow, tasks, idempotency := journal, None, map[], map[];
    }

    method UpsertWorkflow(status: WorkflowStatus, change: Change)
      modifies this`workflow, journal
      ensures workflow == Some(Upserted(old(workflow), status, change))
      ensures journal.entries == old(journal.entries) + [WorkflowWrite(status, change)]
    {
      var row;
      if workflow.Some? {
        row := workflow.value.(status := status);
      } else {
        row := WorkflowRow(status, -1, 0, 0, 0);
      }
      match change {
        case StatusOnly =>
        case LastSequence(sequence) => row := row.(lastEventSequence := sequence);
        case ModelUsage(tokens, calls) => row := row.(tokensUsed := tokens, modelCalls := calls);
        case ToolUsage(calls) => row := row.(toolCalls := calls);
      }
      workflow := Some(row);
      journal.entries := journal.entries + [WorkflowWrite(status, change)];
    }

    method UpsertTask(t: TaskId, status: TaskStatus)
      modifies this`tasks, journal
      ensures tasks == old(tasks)[t := status]
      ensures journal.entries == old(journal.entries) + [TaskWrite(t, status)]
    {
      tasks := tasks[t := status];
      journal.entries := journal.entries + [TaskWrite(t, status)];
    }

    function GetTask(t: TaskId): Option<TaskStatus>
      reads this
    {
      if t in tasks then Some(tasks[t]) else None
    }

    /** Every task row once. The query has no ORDER BY, so no order is promised. */
    method GetTasksByWorkflow() returns (rows: seq<TaskId>)
      ensures forall t :: t in rows <==> t in tasks
      ensures forall i, j :: 0 <= i < j < |rows| ==> rows[i] != rows[j]
      ensures |rows| == |tasks|
    {
      rows := [];
      var rest := tasks.Keys;
      while rest != {}
        invariant rest <= tasks.Keys
        invariant forall t :: t in rows <==> t in tasks.Keys - rest
        invariant forall i, j :: 0 <= i < j < |rows| ==> rows[i] != rows[j]
        invariant |rows| + |rest| == |tasks.Keys|
        decreases rest
      {
        var t :| t in rest;
        assert t !in rows;
        rows := rows + [t];
        rest := rest - {t};
      }
    }

    /** Whether the key has already been committed. */
    method IsDuplicate(k: Key) returns (duplicate: bool)
      ensures duplicate <==> k in idempotency && idempotency[k] == "committed"
    {
      duplicate := k in idempotency && idempotency[k] == COMMITTED;
    }

    method RecordIdempotency(k: Key, status: string)
      modifies this`idempotency, journal
      ensures idempotency == old(idempotency)[k := status]
      ensures journal.entries == old(journal.entries) + [KeyWrite(k, status)]
    {
      idempotency := idempotency[k := status];
      journal.entries := journal.entries + [KeyWrite(k, status)];
    }
  }
}
