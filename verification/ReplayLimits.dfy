/** Where a replay does not restore what the reader of the ledger's documentation might expect
    (recovery/replay.py, persistence/event_store.py). */
module ReplayLimits {
  import opened Wrappers
  import opened StateMachine
  import opened Events
  import opened HashChain
  import opened Histories
  import opened Disks
  import opened CrashRuns
  import opened WorkflowRows

  // ---- Workflow status ----

  /** One complete engine operation: its event and its row write. */
  lemma CompleteMove(steps: seq<Step>, t: TaskId, target: TaskStatus)
    requires Executable(steps) && Enabled(End(steps), MoveTask(t, target))
    ensures
      var longer := steps + [MoveTask(t, target)] + [FinishWrite];
      Executable(longer) && End(longer) == End(steps).(disk := Transitioned(End(steps).disk, t, target))
  {
    Extend(steps, MoveTask(t, target));
    Extend(steps + [MoveTask(t, target)], FinishWrite);
  }

  lemma CompleteOperation(steps: seq<Step>, op: WorkflowOp)
    requires Executable(steps) && Enabled(End(steps), Operate(op))
    ensures
      var longer := steps + [Operate(op)] + [FinishWrite];
      Executable(longer) && End(longer) == End(steps).(disk := Operated(End(steps).disk, op))
  {
    Extend(steps, Operate(op));
    Extend(steps + [Operate(op)], FinishWrite);
  }

  /** The event of a failing task makes the replayed workflow status FAILED. */
  lemma FailureReplays(d: Disk, t: TaskId)
    ensures ReplayedWorkflow(Transitioned(d, t, TaskStatus.Failed).history) == WorkflowStatus.Failed
    ensures WorkflowStatusOf(Replayed(Transitioned(d, t, TaskStatus.Failed))) == WorkflowStatus.Failed
  {
    var e := TaskRecord(t, TaskStatusOf(d, t), TaskStatus.Failed);
    var after := Transitioned(d, t, TaskStatus.Failed);
    assert after.history[..|d.history|] == d.history && after.history[|d.history|] == e;
    PartialReplay(after, |after.history|, 0);
  }

  /** Statuses that a workflow does not leave, neither by an operation nor by a replay: FAILED and
      CANCELLED, with or without COMPLETED. */
  predicate AreEnds(ends: set<WorkflowStatus>) {
    && {WorkflowStatus.Failed, WorkflowStatus.Cancelled} <= ends
    && ends <= {WorkflowStatus.Completed, WorkflowStatus.Failed, WorkflowStatus.Cancelled}
  }

  /** The workflow is over in its row and in the ledger, and no row write that could change that is
      outstanding. */
  ghost predicate Dead(m: Machine, ends: set<WorkflowStatus>) {
    && WorkflowStatusOf(m.disk) in ends
    && ReplayedWorkflow(m.disk.history) in ends
    && (m.phase.Half? ==> m.phase.write.TaskRow?)
  }

  /** Whatever happens after `run`, crashes, replays and task moves included, the status stays in
      `ends`, and every workflow operation is refused. */
  ghost predicate DeadForGood(run: seq<Step>, ends: set<WorkflowStatus>) {
    forall longer :: Executable(longer) && run <= longer ==>
      WorkflowStatusOf(End(longer).disk) in ends && forall op :: !OpAllowed(op, WorkflowStatusOf(End(longer).disk))
  }

  lemma DeadRefuses(m: Machine, ends: set<WorkflowStatus>)
    requires AreEnds(ends) && Dead(m, ends)
    ensures forall op :: !OpAllowed(op, WorkflowStatusOf(m.disk))
  {
  }

  lemma DeadStep(m: Machine, step: Step, ends: set<WorkflowStatus>)
    requires AreEnds(ends) && Dead(m, ends) && Enabled(m, step)
    ensures Dead(After(m, step), ends)
  {
    DeadRefuses(m, ends);
    if step.MoveTask? {
      TaskEventsEnd(m.disk.history, step.taskId, TaskStatusOf(m.disk, step.taskId), step.target);
    } else {
      RowAfter(m, step);
    }
  }

  /** How the row changes when no workflow event is logged and no status row is outstanding. */
  lemma RowAfter(m: Machine, step: Step)
    requires Enabled(m, step) && !step.Create? && !step.Operate? && !step.MoveTask?
    requires m.phase.Half? ==> m.phase.write.TaskRow?
    ensures After(m, step).disk.history == m.disk.history
    ensures After(m, step).phase.Half? ==> After(m, step).phase == m.phase
    ensures WorkflowStatusOf(After(m, step).disk) in {WorkflowStatusOf(m.disk), ReplayedWorkflow(m.disk.history)}
  {
  }

  /** A task event changes the replayed workflow status to FAILED or CANCELLED, or not at all. */
  lemma TaskEventsEnd(h: History, t: TaskId, current: TaskStatus, target: TaskStatus)
    ensures
      var after := ReplayedWorkflow(h + [TaskRecord(t, current, target)]);
      after in {ReplayedWorkflow(h), WorkflowStatus.Failed, WorkflowStatus.Cancelled}
  {
    assert (h + [TaskRecord(t, current, target)])[..|h|] == h;
  }

  lemma {:induction false} DeadAlways(run: seq<Step>, longer: seq<Step>, ends: set<WorkflowStatus>)
    requires AreEnds(ends) && Executable(run) && Dead(End(run), ends) && Executable(longer) && run <= longer
    ensures Dead(End(longer), ends)
    decreases |longer|
  {
    if run != longer {
      var n := |longer| - 1;
      DeadAlways(run, longer[..n], ends);
      DeadStep(End(longer[..n]), longer[n], ends);
    }
  }

  lemma DeadStays(run: seq<Step>, ends: set<WorkflowStatus>)
    requires AreEnds(ends) && Executable(run) && Dead(End(run), ends)
    ensures DeadForGood(run, ends)
  {
    forall longer | Executable(longer) && run <= longer
      ensures WorkflowStatusOf(End(longer).disk) in ends
      ensures forall op :: !OpAllowed(op, WorkflowStatusOf(End(longer).disk))
    {
      DeadAlways(run, longer, ends);
      DeadRefuses(End(longer), ends);
    }
  }

  /** If the row is over, so is the ledger: later task events can only make it FAILED or CANCELLED. */
  lemma {:induction false} RowEndsLedger(h: History, b: nat, ends: set<WorkflowStatus>)
    requires AreEnds(ends) && b <= |h| && TaskEventsParse(h) && LiveSince(h, b) in ends
    ensures ReplayedWorkflow(h) in ends
  {
    if b < |h| {
      var n := |h| - 1;
      if h[n].taskId.Some? {
        assert Written(h[n], h[n].taskId.value).Some?;
      }
      if WorkflowWritten(h[n]) == None {
        RowEndsLedger(h[..n], b, ends);
      }
    }
  }

  /** A workflow that is over stays over: from COMPLETED, FAILED or CANCELLED, in whatever
      continuation, the status only moves among these three, and FAILED or CANCELLED never becomes
      COMPLETED. */
  lemma WorkflowEndIsFinal(run: seq<Step>, m: Machine)
    requires EndsIn(run, m) && m.phase.Up?
    ensures
      var s := WorkflowStatusOf(m.disk);
      && (s == WorkflowStatus.Completed ==>
            DeadForGood(run, {WorkflowStatus.Completed, WorkflowStatus.Failed, WorkflowStatus.Cancelled}))
      && (s == WorkflowStatus.Failed || s == WorkflowStatus.Cancelled ==>
            DeadForGood(run, {WorkflowStatus.Failed, WorkflowStatus.Cancelled}))
  {
    var s := WorkflowStatusOf(m.disk);
    if s == WorkflowStatus.Completed {
      EndIsFinal(run, m, {WorkflowStatus.Completed, WorkflowStatus.Failed, WorkflowStatus.Cancelled});
    } else if s == WorkflowStatus.Failed || s == WorkflowStatus.Cancelled {
      EndIsFinal(run, m, {WorkflowStatus.Failed, WorkflowStatus.Cancelled});
    }
  }

  lemma EndIsFinal(run: seq<Step>, m: Machine, ends: set<WorkflowStatus>)
    requires AreEnds(ends) && EndsIn(run, m) && m.phase.Up? && WorkflowStatusOf(m.disk) in ends
    ensures DeadForGood(run, ends)
  {
    RowsAlways(run);
    RowIsAlways(run);
    LegalParses(m.disk.history);
    RowEndsLedger(m.disk.history, Base(run), ends);
    DeadStays(run, ends);
  }

  /** A replay right after a task has failed turns the workflow FAILED, whatever its live status
      is, and from then on the engine refuses every workflow operation. */
  lemma FailedTaskFailsWorkflow(steps: seq<Step>, m: Machine, t: TaskId) returns (run: seq<Step>, after: Machine)
    requires EndsIn(steps, m) && Enabled(m, MoveTask(t, TaskStatus.Failed))
    ensures EndsIn(run, after) && after.phase.Up? && steps <= run
    ensures WorkflowStatusOf(after.disk) == WorkflowStatus.Failed
    ensures DeadForGood(run, {WorkflowStatus.Failed, WorkflowStatus.Cancelled})
  {
    run, after := ReplayAfterFailure(steps, m, t);
    DeadStays(run, {WorkflowStatus.Failed, WorkflowStatus.Cancelled});
  }

  lemma ReplayAfterFailure(steps: seq<Step>, m: Machine, t: TaskId) returns (run: seq<Step>, after: Machine)
    requires EndsIn(steps, m) && Enabled(m, MoveTask(t, TaskStatus.Failed))
    ensures EndsIn(run, after) && after.phase.Up? && steps <= run
    ensures WorkflowStatusOf(after.disk) == WorkflowStatus.Failed
    ensures Dead(after, {WorkflowStatus.Failed, WorkflowStatus.Cancelled})
  {
    CompleteMove(steps, t, TaskStatus.Failed);
    FailureReplays(m.disk, t);
    var failed := steps + [MoveTask(t, TaskStatus.Failed)] + [FinishWrite];
    run := UninterruptedReplay(failed);
    after := End(run);
  }

  /** A concrete case: one task of a RUNNING workflow fails, and the process is restarted. */
  lemma RunningWorkflowReplaysAsFailed() returns (live: seq<Step>, m: Machine, replayed: seq<Step>)
    ensures EndsIn(live, m) && m.phase.Up? && WorkflowStatusOf(m.disk) == Running
    ensures EndsIn(replayed, m.(disk := Replayed(m.disk)))
    ensures WorkflowStatusOf(Replayed(m.disk)) == WorkflowStatus.Failed
  {
    live := RunningWithClaim();
    FailureReplays(End(live).disk, 0);
    CompleteMove(live, 0, TaskStatus.Failed);
    live := live + [MoveTask(0, TaskStatus.Failed)] + [FinishWrite];
    m := End(live);
    replayed := UninterruptedReplay(live);
  }

  lemma RunningWorkflow() returns (steps: seq<Step>)
    ensures Executable(steps) && End(steps).phase.Up?
    ensures WorkflowStatusOf(End(steps).disk) == Running
    ensures End(steps).disk.tasks == map[] && forall e :: e in End(steps).disk.history ==> e.taskId == None
  {
    var create := Create("goal", "repository");
    assert Executable([]);
    Extend([], create);
    Extend([] + [create], FinishWrite);
    steps := [] + [create] + [FinishWrite];
    CompleteOperation(steps, Transition(Compiled));
    steps := steps + [Operate(Transition(Compiled))] + [FinishWrite];
    CompleteOperation(steps, Transition(Planned));
    steps := steps + [Operate(Transition(Planned))] + [FinishWrite];
    CompleteOperation(steps, Transition(Running));
    steps := steps + [Operate(Transition(Running))] + [FinishWrite];
  }

  lemma RunningWithClaim() returns (steps: seq<Step>)
    ensures Executable(steps) && End(steps).phase.Up?
    ensures WorkflowStatusOf(End(steps).disk) == Running && TaskStatusOf(End(steps).disk, 0) == Claimed
  {
    steps := RunningWorkflow();
    Extend(steps, Register(0));
    steps := steps + [Register(0)];
    CompleteMove(steps, 0, Ready);
    steps := steps + [MoveTask(0, Ready)] + [FinishWrite];
    CompleteMove(steps, 0, Claimed);
    steps := steps + [MoveTask(0, Claimed)] + [FinishWrite];
  }

  // ---- Interrupted replays ----

  /** A crash in the middle of a replay leaves rows of any earlier state of the ledger: after `k`
      events, the status that the first `k` events give. Only a complete replay can be built on. */
  lemma InterruptedReplay(steps: seq<Step>, m: Machine, k: nat, t: TaskId) returns (run: seq<Step>, d: Disk)
    requires EndsIn(steps, m) && (m.phase.Up? || m.phase.Down?)
    requires k <= |m.disk.history| && Touched(m.disk.history, k, t)
    ensures EndsIn(run, m.(disk := d, phase := Down(true))) && d.history == m.disk.history
    ensures TaskStatusOf(d, t) == Fold(m.disk.history[..k], t)
  {
    Extend(steps, StartReplay);
    run := ReplaySome(steps + [StartReplay], m, k);
    d := ReplayPrefix(m.disk, k);
    PartialReplay(m.disk, k, t);
    Extend(run, Crash);
    run := run + [Crash];
  }

  // ---- Task ids ----

  /** The chain does not commit to task ids: there are intact ledgers that end in the same hash
      and replay to different task rows. */
  lemma TaskIdsNotCommitted(c: Crypto) returns (l1: seq<Event>, l2: seq<Event>)
    ensures Chained(c, l1) && Chained(c, l2) && l1 != [] && l2 != []
    ensures l1[|l1| - 1].eventHash == l2[|l2| - 1].eventHash
    ensures Fold(Records(l1), 0) != Fold(Records(l2), 0)
  {
    var e1, e2 := TaskRecord(0, Pending, Ready), TaskRecord(1, Pending, Ready);
    l1, l2 := [Seal(c, None, 0, e1)], [Seal(c, None, 0, e2)];
    SealedAlone(c, e1);
    SealedAlone(c, e2);
    FoldAppend([], e1, 0);
    FoldAppend([], e2, 0);
  }

  /** A ledger of one event is intact and replays as that event alone. */
  lemma SealedAlone(c: Crypto, e: Record)
    ensures Chained(c, [Seal(c, None, 0, e)]) && Records([Seal(c, None, 0, e)]) == [] + [e]
  {
    assert LinkOk(c, [Seal(c, None, 0, e)], 0);
  }
}
