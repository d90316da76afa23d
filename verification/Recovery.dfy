/** Recovery by replay (recovery/replay.py). */
module Recovery {
  import opened Wrappers
  import opened StateMachine
  import opened Events
  import opened HashChain
  import opened Histories
  import opened Disks
  import opened Journals
  import opened Engines

  /** The sequence number that the last event of a ledger carries. */
  function LastNumber(ledger: seq<Event>): int
    requires ledger != []
  {
    ledger[|ledger| - 1].sequence
  }

  class RecoveryManager {
    const engine: OrchestratorEngine

    constructor (engine: OrchestratorEngine)
      ensures this.engine == engine
    {
      this.engine := engine;
    }

    method VerifyIntegrity() returns (valid: bool)
      ensures valid <==> Chained(engine.events.crypto, engine.events.Ledger(engine.workflow))
    {
      var error := engine.events.VerifyChain(engine.workflow);
      valid := error == None;
    }

    /** Rewrites the rows from the ledger, event by event, and the workflow row last. */
    method ReconstructState()
      requires engine.Valid()
      modifies engine.state`tasks, engine.state`workflow, engine.journal
      ensures engine.Valid() && engine.OnDisk() == Replayed(old(engine.OnDisk()))
      ensures engine.Stored() == StoredRecovery(old(engine.Stored()))
      ensures engine.events.Ledger(engine.workflow) != [] ==>
        && engine.state.workflow.Some?
        && engine.state.workflow.value.lastEventSequence == LastNumber(engine.events.Ledger(engine.workflow))
    {
      var events := engine.events.Ledger(engine.workflow);
      if |events| == 0 {
        return;
      }
      var wfStatus := Created;
      ghost var before := engine.Stored();
      ghost var h := before.disk.history;
      for i := 0 to |events|
        invariant engine.Valid() && engine.Stored() == StoredReplay(before, i)
        invariant engine.OnDisk().history == h
        invariant wfStatus == ReplayedWorkflow(h[..i])
      {
        var record := events[i].record;
        assert record == h[i];
        ReplayedNext(h, i);
        if record.payload.toStatus.Some? {
          var parsed := ParseWorkflow(record.payload.toStatus.value);
          if parsed.Some? {
            wfStatus := parsed.value;
          }
        }
        if record.taskId.Some? {
          var text := if record.payload.toStatus.Some? then record.payload.toStatus.value else PendingText;
          var parsed := ParseTask(text);
          if parsed.Some? {
            engine.state.UpsertTask(record.taskId.value, parsed.value);
          }
        }
      }
      RecoveryStored(before);
      assert h[..|events|] == h;
      engine.state.UpsertWorkflow(wfStatus, LastSequence(events[|events| - 1].sequence));
    }

    /** The tasks that recovery still has to deal with. */
    method GetIncompleteTasks() returns (incomplete: seq<TaskId>)
      ensures forall t :: t in incomplete <==>
        t in engine.state.tasks && engine.state.tasks[t] !in {Committed, TaskStatus.Failed, TaskStatus.Cancelled}
      ensures forall i, j :: 0 <= i < j < |incomplete| ==> incomplete[i] != incomplete[j]
    {
      var rows := engine.state.GetTasksByWorkflow();
      incomplete := [];
      for i := 0 to |rows|
        invariant forall t :: t in incomplete <==> t in rows[..i] && !Terminal(engine.state.tasks[t])
        invariant forall i, j :: 0 <= i < j < |incomplete| ==> incomplete[i] != incomplete[j]
      {
        assert rows[..i + 1] == rows[..i] + [rows[i]];
        if !Terminal(engine.state.tasks[rows[i]]) {
          incomplete := incomplete + [rows[i]];
        }
      }
      assert rows[..|rows|] == rows;
    }
  }
}
