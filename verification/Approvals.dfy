/** Human approvals over whole runs (orchestration/engine.py): every answer has its own request. */
module Approvals {
  import opened Wrappers
  import opened StateMachine
  import opened Events
  import opened Histories
  import opened Disks
  import opened CrashRuns
  import opened WorkflowRows

  predicate Requested(e: Record) {
    e.eventType == HumanApprovalRequested
  }

  predicate Received(e: Record) {
    e.eventType == HumanApprovalReceived
  }

  /** There is a request that has not been answered. */
  ghost predicate OpenRequest(h: History) {
    exists i :: 0 <= i < |h| && Requested(h[i]) && forall j :: i < j < |h| ==> !Received(h[j])
  }

  /** Every answer comes after a request, with no other answer in between. */
  ghost predicate Matched(h: History) {
    forall k :: 0 <= k < |h| && Received(h[k]) ==> OpenRequest(h[..k])
  }

  /** How the event types go with the status texts of the events the engine writes. */
  predicate WellTyped(e: Record) {
    && (WorkflowWritten(e) == Some(Paused) ==> Requested(e))
    && (Received(e) ==> WorkflowWritten(e) == Some(Running))
  }

  ghost predicate AllWellTyped(h: History) {
    forall k :: 0 <= k < |h| ==> WellTyped(h[k])
  }

  /** A paused workflow row goes with an open request. A replay may leave a row that no engine
      operation wrote, so while the process is down only the ledger counts. */
  ghost predicate PauseOk(m: Machine) {
    match m.phase
    case Up => WorkflowStatusOf(m.disk) == Paused ==> OpenRequest(m.disk.history)
    case Half(TaskRow(_, _)) => WorkflowStatusOf(m.disk) == Paused ==> OpenRequest(m.disk.history)
    case Half(StatusRow(s)) => s == Paused ==> OpenRequest(m.disk.history)
    case _ => true
  }

  ghost predicate ApprovalsOk(m: Machine) {
    RowNeedsEvent(m) && AllWellTyped(m.disk.history) && Matched(m.disk.history) && PauseOk(m)
  }

  lemma AppendEvent(h: History, e: Record)
    requires AllWellTyped(h) && Matched(h) && WellTyped(e)
    requires Received(e) ==> OpenRequest(h)
    ensures AllWellTyped(h + [e]) && Matched(h + [e])
    ensures Requested(e) ==> OpenRequest(h + [e])
    ensures OpenRequest(h) && !Received(e) ==> OpenRequest(h + [e])
  {
    var g := h + [e];
    forall k | 0 <= k < |g| && Received(g[k]) ensures OpenRequest(g[..k]) {
      if k < |h| {
        assert g[..k] == h[..k];
      } else {
        assert g[..k] == h;
      }
    }
    if Requested(e) {
      assert Requested(g[|h|]);
    }
    if OpenRequest(h) && !Received(e) {
      var i :| 0 <= i < |h| && Requested(h[i]) && forall j :: i < j < |h| ==> !Received(h[j]);
      assert Requested(g[i]);
    }
  }

  /** If the replayed status is PAUSED, the request behind it is still open. */
  lemma {:induction false} ReplayedPauseIsOpen(h: History)
    requires AllWellTyped(h) && ReplayedWorkflow(h) == Paused
    ensures OpenRequest(h)
  {
    var n := |h| - 1;
    assert WellTyped(h[n]);
    if WorkflowWritten(h[n]) == None {
      ReplayedPauseIsOpen(h[..n]);
      var i :| 0 <= i < n && Requested(h[..n][i]) && forall j :: i < j < n ==> !Received(h[..n][j]);
      assert Requested(h[i]);
      assert forall j :: i < j < n ==> h[j] == h[..n][j];
    }
  }

  lemma ApprovalsOperate(m: Machine, op: WorkflowOp)
    requires ApprovalsOk(m) && Enabled(m, Operate(op))
    ensures ApprovalsOk(After(m, Operate(op)))
  {
    AppendEvent(m.disk.history, OpRecord(op, WorkflowStatusOf(m.disk)));
  }

  lemma ApprovalsMoveTask(m: Machine, t: TaskId, target: TaskStatus)
    requires ApprovalsOk(m) && Enabled(m, MoveTask(t, target))
    ensures ApprovalsOk(After(m, MoveTask(t, target)))
  {
    AppendEvent(m.disk.history, TaskRecord(t, TaskStatusOf(m.disk, t), target));
  }

  lemma ApprovalsStep(m: Machine, step: Step)
    requires ApprovalsOk(m) && Enabled(m, step)
    ensures ApprovalsOk(After(m, step))
  {
    match step
    case Create(goal, repository) => AppendEvent(m.disk.history, CreationRecord(goal, repository));
    case Operate(op) => ApprovalsOperate(m, op);
    case MoveTask(t, target) => ApprovalsMoveTask(m, t, target);
    case FinishReplay =>
      if m.disk.history != [] && ReplayedWorkflow(m.disk.history) == Paused {
        ReplayedPauseIsOpen(m.disk.history);
      }
    case _ =>
  }

  lemma {:induction false} ApprovalsAlways(steps: seq<Step>)
    requires Executable(steps)
    ensures ApprovalsOk(End(steps))
  {
    if steps != [] {
      var n := |steps| - 1;
      ApprovalsAlways(steps[..n]);
      ApprovalsStep(End(steps[..n]), steps[n]);
    }
  }

  /** In every run, with crashes and replays anywhere: each HUMAN_APPROVAL_RECEIVED event has an
      earlier HUMAN_APPROVAL_REQUESTED event of its own, with no other answer between the two. */
  lemma AnswersMatchRequests(steps: seq<Step>, k: nat)
    requires Executable(steps) && k < |End(steps).disk.history| && Received(End(steps).disk.history[k])
    ensures
      var h := End(steps).disk.history;
      exists i :: 0 <= i < k && Requested(h[i]) && forall j :: i < j < k ==> !Received(h[j])
  {
    ApprovalsAlways(steps);
    var h := End(steps).disk.history;
    var g := h[..k];
    var i :| 0 <= i < k && Requested(g[i]) && forall j :: i < j < k ==> !Received(g[j]);
    assert g[i] == h[i] && forall j :: i < j < k ==> h[j] == g[j];
  }
}
