/** What the workflow row says in the course of a run with any number of restarts, and when a
    replay changes it (orchestration/engine.py, recovery/replay.py). */
module WorkflowRows {
  import opened Wrappers
  import opened StateMachine
  import opened Events
  import opened Histories
  import opened Disks
  import opened CrashRuns

  /** Without events there is neither a workflow row nor an outstanding write. */
  predicate RowNeedsEvent(m: Machine) {
    m.disk.history == [] ==> m.disk.workflow == None && !m.phase.Half?
  }

  /** How many events the last complete replay saw; 0 if there was none. */
  ghost function Base(steps: seq<Step>): nat
    requires Executable(steps)
  {
    if steps == [] then 0
    else if steps[|steps| - 1].FinishReplay? then |End(steps[..|steps| - 1]).disk.history|
    else Base(steps[..|steps| - 1])
  }

  /** What the row says, or will say once the outstanding write is done. While the process is
      down or replaying, nothing is promised: the replay will overwrite the row. */
  ghost predicate RowIs(m: Machine, b: nat) {
    && RowNeedsEvent(m)
    && b <= |m.disk.history|
    && match m.phase
       case Half(StatusRow(s)) => s == LiveSince(m.disk.history, b)
       case Up => WorkflowStatusOf(m.disk) == LiveSince(m.disk.history, b)
       case Half(TaskRow(_, _)) => WorkflowStatusOf(m.disk) == LiveSince(m.disk.history, b)
       case _ => true
  }

  lemma RowIsLog(m: Machine, b: nat, step: Step)
    requires RowIs(m, b) && Enabled(m, step) && (step.Create? || step.Operate? || step.MoveTask?)
    ensures RowIs(After(m, step), b)
  {
    var h := m.disk.history;
    if step.Create? {
      LiveAppend(h, b, CreationRecord(step.goal, step.repository));
    } else if step.Operate? {
      LiveAppend(h, b, OpRecord(step.op, WorkflowStatusOf(m.disk)));
    } else {
      LiveAppend(h, b, TaskRecord(step.taskId, TaskStatusOf(m.disk, step.taskId), step.target));
    }
  }

  lemma RowIsStep(m: Machine, b: nat, step: Step)
    requires RowIs(m, b) && Enabled(m, step)
    ensures RowIs(After(m, step), if step.FinishReplay? then |m.disk.history| else b)
  {
    if step.Create? || step.Operate? || step.MoveTask? {
      RowIsLog(m, b, step);
    }
  }

  lemma {:induction false} RowIsAlways(steps: seq<Step>)
    requires Executable(steps)
    ensures RowIs(End(steps), Base(steps))
  {
    if steps != [] {
      var n := |steps| - 1;
      RowIsAlways(steps[..n]);
      RowIsStep(End(steps[..n]), Base(steps[..n]), steps[n]);
    }
  }

  /** Exact workflow replay. In every run, however often it was restarted, replaying while the
      process is up leaves the workflow status as it is exactly when no task failure or
      cancellation since the last replay overrides it. */
  lemma WorkflowReplay(steps: seq<Step>, m: Machine, b: nat)
    requires EndsIn(steps, m) && m.phase.Up? && b == Base(steps)
    ensures b <= |m.disk.history|
    ensures WorkflowStatusOf(Replayed(m.disk)) == WorkflowStatusOf(m.disk) <==> !OverriddenSince(m.disk.history, b)
  {
    RowsAlways(steps);
    RowIsAlways(steps);
    var d := m.disk;
    LegalParses(d.history);
    WorkflowReplayExact(d.history, b);
    PartialReplay(d, |d.history|, 0);
  }

  /** In a run that was never restarted, all events count. */
  lemma FirstReplay(steps: seq<Step>, m: Machine)
    requires EndsIn(steps, m) && m.phase.Up? && FinishReplay !in steps
    ensures WorkflowStatusOf(Replayed(m.disk)) == WorkflowStatusOf(m.disk) <==> !OverriddenSince(m.disk.history, 0)
  {
    NeverReplayed(steps);
    WorkflowReplay(steps, m, 0);
  }

  lemma {:induction false} NeverReplayed(steps: seq<Step>)
    requires Executable(steps) && FinishReplay !in steps
    ensures Base(steps) == 0
  {
    if steps != [] {
      assert steps[|steps| - 1] in steps;
      NeverReplayed(steps[..|steps| - 1]);
    }
  }

  // ---- Workflow events ----

  /** The event at `k`, if it gives the workflow a status, records a move that the table allows,
      from the status the row had then, whatever replay that row goes back to. */
  ghost predicate StepAt(h: History, k: nat)
    requires k < |h|
  {
    h[k].taskId == None && h[k].payload.toStatus.Some? ==>
      exists b, target ::
        && 0 <= b <= k
        && h[k].payload.toStatus == Some(WorkflowText(target))
        && h[k].payload.fromStatus == Some(WorkflowText(LiveSince(h[..k], b)))
        && WorkflowStep(LiveSince(h[..k], b), target)
  }

  ghost predicate AllSteps(h: History) {
    forall k :: 0 <= k < |h| ==> StepAt(h, k)
  }

  lemma StepsAppend(h: History, e: Record)
    requires AllSteps(h)
    requires e.taskId == None && e.payload.toStatus.Some? ==> StepAt(h + [e], |h|)
    ensures AllSteps(h + [e])
  {
    var g := h + [e];
    forall k | 0 <= k < |g| ensures StepAt(g, k) {
      if k < |h| {
        assert StepAt(h, k) && g[..k] == h[..k] && g[k] == h[k];
      }
    }
  }

  lemma StepsOperate(m: Machine, b: nat, op: WorkflowOp)
    requires RowIs(m, b) && AllSteps(m.disk.history) && Enabled(m, Operate(op))
    ensures AllSteps(After(m, Operate(op)).disk.history)
  {
    var h, e := m.disk.history, OpRecord(op, WorkflowStatusOf(m.disk));
    assert (h + [e])[..|h|] == h && (h + [e])[|h|] == e;
    StepsAppend(h, e);
  }

  lemma StepsStep(m: Machine, b: nat, step: Step)
    requires RowIs(m, b) && AllSteps(m.disk.history) && Enabled(m, step)
    ensures AllSteps(After(m, step).disk.history)
  {
    match step
    case Create(goal, repository) => StepsAppend(m.disk.history, CreationRecord(goal, repository));
    case Operate(op) => StepsOperate(m, b, op);
    case MoveTask(t, target) => StepsAppend(m.disk.history, TaskRecord(t, TaskStatusOf(m.disk, t), target));
    case _ =>
  }

  /** In every run each workflow event records an allowed move from the status of the row. */
  lemma {:induction false} WorkflowEventsAreSteps(steps: seq<Step>)
    requires Executable(steps)
    ensures AllSteps(End(steps).disk.history)
  {
    if steps != [] {
      var n := |steps| - 1;
      WorkflowEventsAreSteps(steps[..n]);
      RowIsAlways(steps[..n]);
      StepsStep(End(steps[..n]), Base(steps[..n]), steps[n]);
    }
  }
}
