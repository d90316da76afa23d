/** What a ledger says about a task and about its workflow: the folds that
    `reconstruct_state` computes, and the paths that legal ledgers trace out. */
module Histories {
  import opened Wrappers
  import opened StateMachine
  import opened Events

  type History = seq<Record>

  /** The status text a replay reads from the event of a task: an event without one counts as "pending". */
  function RowText(e: Record): Text {
    match e.payload.toStatus
    case Some(text) => text
    case None => PendingText
  }

  /** The status a replay writes for task `t` on seeing `e`, if it writes one. */
  function Written(e: Record, t: TaskId): Option<TaskStatus> {
    if e.taskId == Some(t) then ParseTask(RowText(e)) else None
  }

  /** Ledgers that the engine did not write: an event of a task without a status resets the task to
      PENDING, and one with a text that is no task status leaves it alone. */
  lemma ForeignEvents(e: Record, t: TaskId)
    requires e.taskId == Some(t)
    ensures e.payload.toStatus == None ==> Written(e, t) == Some(Pending)
    ensures e.payload.toStatus.Some? ==>
      (Written(e, t) == None <==> forall s :: e.payload.toStatus != Some(TaskText(s)))
  {
    if e.payload.toStatus.Some? && Written(e, t) == None {
      assert ParseTask(e.payload.toStatus.value) == None;
    }
  }

  /** Event `e` moves task `t` to status `s`. */
  predicate Moves(e: Record, t: TaskId, s: TaskStatus) {
    Written(e, t) == Some(s)
  }

  /** The status of `t` after replaying `h`: the last one written, PENDING if there is none. */
  function Fold(h: History, t: TaskId): TaskStatus {
    if h == [] then Pending
    else
      match Written(h[|h| - 1], t)
      case Some(s) => s
      case None => Fold(h[..|h| - 1], t)
  }

  /** The statuses `t` goes through in `h`. */
  function Trace(h: History, t: TaskId): seq<TaskStatus> {
    if h == [] then []
    else
      var earlier := Trace(h[..|h| - 1], t);
      match Written(h[|h| - 1], t)
      case Some(s) => earlier + [s]
      case None => earlier
  }

  /** Some event of `h` is about `t`. */
  predicate Evented(h: History, t: TaskId) {
    exists e :: e in h && e.taskId == Some(t)
  }

  /** The event at `k`, if it is about a task, is a move that the task table allows from the
      status the earlier events leave the task in, and records that status. */
  ghost predicate LegalAt(h: History, k: nat)
    requires k < |h|
  {
    h[k].taskId.Some? ==>
      var t := h[k].taskId.value;
      && Written(h[k], t).Some?
      && TaskStep(Fold(h[..k], t), Written(h[k], t).value)
      && h[k].payload.fromStatus == Some(TaskText(Fold(h[..k], t)))
  }

  ghost predicate Legal(h: History) {
    forall k :: 0 <= k < |h| ==> LegalAt(h, k)
  }

  lemma FoldAppend(h: History, e: Record, t: TaskId)
    ensures Fold(h + [e], t) == match Written(e, t) case Some(s) => s case None => Fold(h, t)
    ensures Trace(h + [e], t) == match Written(e, t) case Some(s) => Trace(h, t) + [s] case None => Trace(h, t)
  {
    assert (h + [e])[..|h|] == h;
  }

  lemma FoldPrefix(h: History, k: nat, t: TaskId)
    requires k < |h|
    ensures Fold(h[..k + 1], t) == match Written(h[k], t) case Some(s) => s case None => Fold(h[..k], t)
  {
    assert h[..k + 1] == h[..k] + [h[k]];
    FoldAppend(h[..k], h[k], t);
  }

  lemma LegalAppend(h: History, e: Record)
    requires Legal(h)
    requires e.taskId.Some? ==>
      var t := e.taskId.value;
      && Written(e, t).Some?
      && TaskStep(Fold(h, t), Written(e, t).value)
      && e.payload.fromStatus == Some(TaskText(Fold(h, t)))
    ensures Legal(h + [e])
  {
    forall k | 0 <= k < |h + [e]| ensures LegalAt(h + [e], k) {
      assert (h + [e])[..k] == h[..k];
      if k < |h| {
        assert LegalAt(h, k);
      } else {
        assert h[..k] == h;
      }
    }
  }

  lemma LegalPrefix(h: History, n: nat)
    requires Legal(h) && n <= |h|
    ensures Legal(h[..n])
  {
    forall k | 0 <= k < n ensures LegalAt(h[..n], k) {
      assert LegalAt(h, k) && h[..n][..k] == h[..k];
    }
  }

  // ---- Paths through the task table ----

  ghost predicate IsPath(p: seq<TaskStatus>) {
    forall i :: 0 <= i < |p| - 1 ==> TaskStep(p[i], p[i + 1])
  }

  predicate Terminal(s: TaskStatus) {
    s == Committed || s == TaskStatus.Failed || s == TaskStatus.Cancelled
  }

  /** The terminal statuses are those without a way out. */
  lemma TerminalMeansNoExit(s: TaskStatus)
    ensures Terminal(s) <==> forall target :: !TaskStep(s, target)
  {
    if !Terminal(s) {
      assert TaskStep(s, if s == Pending then Ready else TaskStatus.Cancelled);
    }
  }

  const PREAMBLE := [Ready, Claimed, Proposing, Verifying, Executing, PostVerifying]

  /** A path from PENDING reaches COMMITTED only by one full attempt, just before it. */
  lemma CommitPreamble(p: seq<TaskStatus>, i: nat)
    requires IsPath(p) && i < |p| && p[0] == Pending && p[i] == Committed
    ensures 7 <= i && p[i - 6..i] == PREAMBLE
  {
    assert i > 0 && TaskStep(p[i - 1], p[i]);
    assert i > 1 && TaskStep(p[i - 2], p[i - 1]);
    assert i > 2 && TaskStep(p[i - 3], p[i - 2]);
    assert i > 3 && TaskStep(p[i - 4], p[i - 3]);
    assert i > 4 && TaskStep(p[i - 5], p[i - 4]);
    assert i > 5 && TaskStep(p[i - 6], p[i - 5]);
  }

  /** A path ends at its first terminal status. */
  lemma TerminalEndsPath(p: seq<TaskStatus>, i: nat)
    requires IsPath(p) && i < |p| && Terminal(p[i])
    ensures i == |p| - 1
  {
    assert i < |p| - 1 ==> TaskStep(p[i], p[i + 1]);
  }

  /** Statuses a task can be in after EXECUTING and before its next RETRY_WAIT. */
  predicate AfterExecution(s: TaskStatus) {
    s == PostVerifying || s == Rejected || Terminal(s)
  }

  lemma {:induction false} StaysAfterExecution(p: seq<TaskStatus>, i: nat, k: nat)
    requires IsPath(p) && i < k < |p| && p[i] == Executing
    requires forall m :: i < m <= k ==> p[m] != RetryWait
    ensures AfterExecution(p[k])
  {
    assert TaskStep(p[k - 1], p[k]);
    if i < k - 1 {
      StaysAfterExecution(p, i, k - 1);
    }
  }

  /** Between two EXECUTING statuses of a path there is a RETRY_WAIT. */
  lemma RetryBetweenExecutions(p: seq<TaskStatus>, i: nat, j: nat)
    requires IsPath(p) && i < j < |p| && p[i] == Executing && p[j] == Executing
    ensures exists k :: i < k < j && p[k] == RetryWait
  {
    if forall k :: i < k < j ==> p[k] != RetryWait {
      StaysAfterExecution(p, i, j);
    }
  }

  /** The statuses of every task in a legal ledger are a path from PENDING that ends in its fold. */
  lemma {:induction false} LegalTraces(h: History, t: TaskId)
    requires Legal(h)
    ensures IsPath([Pending] + Trace(h, t))
    ensures ([Pending] + Trace(h, t))[|Trace(h, t)|] == Fold(h, t)
  {
    if h != [] {
      var n := |h| - 1;
      LegalPrefix(h, n);
      LegalTraces(h[..n], t);
      assert LegalAt(h, n);
      var p := [Pending] + Trace(h[..n], t);
      match Written(h[n], t)
      case None =>
      case Some(s) =>
        assert [Pending] + Trace(h, t) == p + [s];
    }
  }

  /** Once committed, failed or cancelled in a legal ledger, always so. */
  lemma {:induction false} TerminalIsFinal(h: History, k: nat, t: TaskId)
    requires Legal(h) && k <= |h| && Terminal(Fold(h[..k], t))
    ensures Fold(h, t) == Fold(h[..k], t)
    decreases |h| - k
  {
    if k < |h| {
      FoldPrefix(h, k, t);
      assert LegalAt(h, k);
      TerminalIsFinal(h, k + 1, t);
    } else {
      assert h[..k] == h;
    }
  }

  /** The status a fold reports was written by some event. */
  lemma {:induction false} FoldWritten(h: History, t: TaskId) returns (k: nat)
    requires Fold(h, t) != Pending
    ensures k < |h| && Moves(h[k], t, Fold(h, t))
  {
    var n := |h| - 1;
    if Written(h[n], t).Some? {
      k := n;
    } else {
      k := FoldWritten(h[..n], t);
    }
  }

  lemma {:induction false} FoldUnevented(h: History, t: TaskId)
    requires !Evented(h, t)
    ensures Fold(h, t) == Pending
  {
    if h != [] {
      var n := |h| - 1;
      assert h[n] in h;
      assert forall e :: e in h[..n] ==> e in h;
      FoldUnevented(h[..n], t);
    }
  }

  /** A task that is still PENDING has no events. */
  lemma {:induction false} PendingIsUnevented(h: History, t: TaskId)
    requires Legal(h) && Fold(h, t) == Pending
    ensures !Evented(h, t)
  {
    if h != [] {
      var n := |h| - 1;
      assert LegalAt(h, n);
      LegalPrefix(h, n);
      PendingIsUnevented(h[..n], t);
      assert h == h[..n] + [h[n]];
    }
  }

  // ---- Counting ----

  /** How many events of `h` move some task to `s`. */
  function Count(h: History, s: TaskStatus): nat {
    if h == [] then 0
    else
      var e := h[|h| - 1];
      Count(h[..|h| - 1], s) + if e.taskId.Some? && Moves(e, e.taskId.value, s) then 1 else 0
  }

  lemma CountAppend(h: History, e: Record, s: TaskStatus)
    ensures Count(h + [e], s) == Count(h, s) + if e.taskId.Some? && Moves(e, e.taskId.value, s) then 1 else 0
  {
    assert (h + [e])[..|h|] == h;
  }

  // ---- Workflow status ----

  /** The workflow status a replay takes from `e`. It does not look at the task id. */
  function WorkflowWritten(e: Record): Option<WorkflowStatus> {
    match e.payload.toStatus
    case Some(text) => ParseWorkflow(text)
    case None => None
  }

  /** `wf_status` after replaying `h`. */
  function ReplayedWorkflow(h: History): WorkflowStatus {
    if h == [] then Created
    else
      match WorkflowWritten(h[|h| - 1])
      case Some(s) => s
      case None => ReplayedWorkflow(h[..|h| - 1])
  }

  lemma ReplayedNext(h: History, k: nat)
    requires k < |h|
    ensures ReplayedWorkflow(h[..k + 1]) ==
      match WorkflowWritten(h[k]) case Some(s) => s case None => ReplayedWorkflow(h[..k])
  {
    assert h[..k + 1][..k] == h[..k];
  }

  /** The workflow row of a process whose last replay saw the first `b` events: what that replay
      wrote, or the last status given to the workflow itself since. With `b == 0` it is the
      status of a process that was never restarted. */
  function LiveSince(h: History, b: nat): WorkflowStatus
    requires b <= |h|
  {
    if |h| == b then ReplayedWorkflow(h)
    else
      var e := h[|h| - 1];
      match (e.taskId, WorkflowWritten(e))
      case (None, Some(s)) => s
      case _ => LiveSince(h[..|h| - 1], b)
  }

  lemma LiveAppend(h: History, b: nat, e: Record)
    requires b <= |h|
    ensures LiveSince(h + [e], b) ==
      if e.taskId == None && WorkflowWritten(e).Some? then WorkflowWritten(e).value else LiveSince(h, b)
  {
    assert (h + [e])[..|h|] == h;
  }

  /** The event at `k` is about a task, its status text is also a workflow status ("failed" or
      "cancelled") other than `live`, and no later event carries a workflow status. */
  predicate Overrides(h: History, k: nat, live: WorkflowStatus)
    requires k < |h|
  {
    && h[k].taskId.Some?
    && (h[k].payload.toStatus == Some(FailedText) || h[k].payload.toStatus == Some(CancelledText))
    && h[k].payload.toStatus != Some(WorkflowText(live))
    && forall m :: k < m < |h| ==> WorkflowWritten(h[m]) == None
  }

  /** Every task event carries a task status. */
  ghost predicate TaskEventsParse(h: History) {
    forall k :: 0 <= k < |h| && h[k].taskId.Some? ==> Written(h[k], h[k].taskId.value).Some?
  }

  lemma LegalParses(h: History)
    requires Legal(h)
    ensures TaskEventsParse(h)
  {
    forall k | 0 <= k < |h| && h[k].taskId.Some? ensures Written(h[k], h[k].taskId.value).Some? {
      assert LegalAt(h, k);
    }
  }

  /** A task event since the last replay overrides the workflow row. */
  predicate OverriddenSince(h: History, b: nat)
    requires b <= |h|
  {
    exists k :: b <= k < |h| && Overrides(h, k, LiveSince(h, b))
  }

  lemma OverriddenByLast(h: History, b: nat)
    requires b < |h| && WorkflowWritten(h[|h| - 1]).Some?
    ensures OverriddenSince(h, b) <==> Overrides(h, |h| - 1, LiveSince(h, b))
  {
    forall k | b <= k < |h| - 1 ensures !Overrides(h, k, LiveSince(h, b)) {
      assert WorkflowWritten(h[|h| - 1]) != None;
    }
  }

  lemma OverriddenEarlier(h: History, b: nat)
    requires b < |h| && WorkflowWritten(h[|h| - 1]) == None
    ensures OverriddenSince(h, b) <==> OverriddenSince(h[..|h| - 1], b)
  {
    var n := |h| - 1;
    var p, live := h[..n], LiveSince(h, b);
    assert LiveSince(p, b) == live;
    forall k | b <= k < n ensures Overrides(h, k, live) <==> Overrides(p, k, live) {
      assert h[k] == p[k] && forall m :: k < m < n ==> p[m] == h[m];
    }
  }

  /** A replay writes the status that the row already has exactly when no task failure or
      cancellation since the last replay overrides it with a different text. */
  lemma {:induction false} WorkflowReplayExact(h: History, b: nat)
    requires b <= |h| && TaskEventsParse(h)
    ensures ReplayedWorkflow(h) == LiveSince(h, b) <==> !OverriddenSince(h, b)
  {
    if b < |h| {
      var n := |h| - 1;
      var e, p := h[n], h[..n];
      match WorkflowWritten(e)
      case Some(s) =>
        OverriddenByLast(h, b);
        assert e.taskId.Some? ==> Written(e, e.taskId.value).Some?;
      case None =>
        OverriddenEarlier(h, b);
        assert TaskEventsParse(p);
        WorkflowReplayExact(p, b);
    }
  }
}
