/** What every run of the durable runtime keeps: tasks are executed at most once with success,
    retries are on record, and no move is refused (experiments/durable.py). */
module RuntimeSafety {
  import opened Wrappers
  import opened StateMachine
  import opened Events
  import opened Histories
  import opened Disks
  import opened Plans
  import opened RuntimeRuns
  import C = CrashRuns

  /** The ledger status of the task that the process is working on. */
  ghost predicate ControlOk(h: History, c: Control) {
    match c
    case Idle => true
    case Blocking(t) => Fold(h, t) == Ready
    case Working(t, at) => Fold(h, t) == at
    case Ran(t, _) => Fold(h, t) == Executing
    case Checked(t, _) => Fold(h, t) == PostVerifying
    case Recorded(t) => Fold(h, t) == PostVerifying
  }

  /** The ledger has a RETRY_WAIT of the task after execution `x`. */
  ghost predicate Retried(h: History, x: Execution) {
    exists k :: x.at <= k < |h| && Moves(h[k], x.taskId, RetryWait)
  }

  /** The statuses a task has from its execution to the next RETRY_WAIT. */
  predicate PastExecution(s: TaskStatus) {
    s in {Executing, PostVerifying, Committed}
  }

  /** The process is not about to execute `x`'s task again, nor to take a success for a failure. */
  predicate NotAgain(c: Control, x: Execution) {
    && c != Working(x.taskId, Executing)
    && (x.success ==> c != Ran(x.taskId, false) && c != Checked(x.taskId, false))
  }

  ghost predicate ExecutionOk(h: History, c: Control, x: Execution) {
    && x.at <= |h|
    && if Retried(h, x) then !x.success else PastExecution(Fold(h, x.taskId)) && NotAgain(c, x)
  }

  ghost predicate ExecutionsOk(h: History, c: Control, xs: seq<Execution>) {
    forall i :: 0 <= i < |xs| ==> ExecutionOk(h, c, xs[i])
  }

  /** Between two executions of a task there is a RETRY_WAIT of it in the ledger. */
  ghost predicate RetryBetween(h: History, x: Execution, y: Execution) {
    exists k :: x.at <= k < y.at && k < |h| && Moves(h[k], x.taskId, RetryWait)
  }

  ghost predicate Separated(h: History, xs: seq<Execution>) {
    forall i, j :: 0 <= i < j < |xs| && xs[i].taskId == xs[j].taskId ==> RetryBetween(h, xs[i], xs[j])
  }

  /** A written key belongs to a task that is POST_VERIFYING or COMMITTED, and will not be retried. */
  ghost predicate KeysOk(h: History, c: Control, keys: map<Key, string>) {
    forall t :: TaskKey(t) in keys ==>
      (Fold(h, t) == PostVerifying || Fold(h, t) == Committed) && c != Checked(t, false) && c != Ran(t, false)
  }

  ghost predicate Safe(s: Sys) {
    var h := s.machine.disk.history;
    && (s.machine.phase.Down? || s.machine.phase.Replaying? ==> s.control == Idle)
    && ControlOk(h, s.control)
    && ExecutionsOk(h, s.control, s.executions)
    && Separated(h, s.executions)
    && KeysOk(h, s.control, s.machine.disk.keys)
  }

  // ---- The ledger grows ----

  predicate IsMove(e: Record, t: TaskId, target: TaskStatus) {
    e.taskId == Some(t) && Moves(e, t, target)
  }

  lemma SeparatedGrows(h: History, e: Record, xs: seq<Execution>)
    requires Separated(h, xs)
    ensures Separated(h + [e], xs)
  {
    forall i, j | 0 <= i < j < |xs| && xs[i].taskId == xs[j].taskId ensures RetryBetween(h + [e], xs[i], xs[j]) {
      var k :| xs[i].at <= k < xs[j].at && k < |h| && Moves(h[k], xs[i].taskId, RetryWait);
      assert Moves((h + [e])[k], xs[i].taskId, RetryWait);
    }
  }

  lemma RetriedGrows(h: History, e: Record, x: Execution)
    requires x.at <= |h|
    ensures Retried(h + [e], x) <==> Retried(h, x) || Moves(e, x.taskId, RetryWait)
  {
    var g := h + [e];
    if Retried(h, x) {
      var k :| x.at <= k < |h| && Moves(h[k], x.taskId, RetryWait);
      assert Moves(g[k], x.taskId, RetryWait);
    }
    if Moves(e, x.taskId, RetryWait) {
      assert Moves(g[|h|], x.taskId, RetryWait);
    }
  }

  /** What the moves of the process have in common, as far as executions are concerned. */
  predicate MoveShape(c: Control, m: Move) {
    && ControlTask(m.next) in {None, Some(m.taskId)}
    && (m.source == Executing ==> c.Ran? && c.t == m.taskId && m.target == PostVerifying
                                  && m.next == Checked(c.t, c.success))
    && (m.source == PostVerifying ==> m.next == Idle && m.target in {Committed, RetryWait})
    && (m.target == RetryWait ==> c == Checked(m.taskId, false))
    && m.source != Committed
    && (PastExecution(m.source) || (!m.next.Ran? && !m.next.Checked?))
  }

  function ControlTask(c: Control): Option<TaskId> {
    if c.Idle? then None else Some(c.t)
  }

  lemma MovesHaveShape(c: Control, a: Action, m: Move)
    requires MoveOf(c, a) == Some(m)
    ensures MoveShape(c, m)
  {
  }

  /** The status the ledger has for the task on which the process goes on. */
  lemma MoveControl(h: History, e: Record, c: Control, a: Action, m: Move)
    requires MoveOf(c, a) == Some(m) && IsMove(e, m.taskId, m.target)
    ensures ControlOk(h + [e], m.next)
  {
    FoldAppend(h, e, m.taskId);
  }

  lemma ExecutionMoveSame(h: History, e: Record, c: Control, m: Move, x: Execution)
    requires ExecutionOk(h, c, x) && MoveShape(c, m) && x.taskId == m.taskId
    requires IsMove(e, m.taskId, m.target) && Fold(h, m.taskId) == m.source
    ensures ExecutionOk(h + [e], m.next, x)
  {
    RetriedGrows(h, e, x);
    FoldAppend(h, e, x.taskId);
  }

  lemma ExecutionMoveOther(h: History, e: Record, c: Control, m: Move, x: Execution)
    requires ExecutionOk(h, c, x) && MoveShape(c, m) && x.taskId != m.taskId
    requires IsMove(e, m.taskId, m.target)
    ensures ExecutionOk(h + [e], m.next, x)
  {
    RetriedGrows(h, e, x);
    FoldAppend(h, e, x.taskId);
  }

  /** A task move of the process keeps the executions and the keys in order. */
  lemma SafeMove(h: History, e: Record, c: Control, m: Move, xs: seq<Execution>, keys: map<Key, string>)
    requires ExecutionsOk(h, c, xs) && KeysOk(h, c, keys)
    requires MoveShape(c, m) && IsMove(e, m.taskId, m.target) && Fold(h, m.taskId) == m.source
    ensures ExecutionsOk(h + [e], m.next, xs) && KeysOk(h + [e], m.next, keys)
  {
    forall i | 0 <= i < |xs| ensures ExecutionOk(h + [e], m.next, xs[i]) {
      if xs[i].taskId == m.taskId {
        ExecutionMoveSame(h, e, c, m, xs[i]);
      } else {
        ExecutionMoveOther(h, e, c, m, xs[i]);
      }
    }
    forall t | TaskKey(t) in keys
      ensures Fold(h + [e], t) == PostVerifying || Fold(h + [e], t) == Committed
      ensures m.next != Checked(t, false) && m.next != Ran(t, false)
    {
      FoldAppend(h, e, t);
    }
  }

  /** So does an event that is not about a task. */
  lemma SafeLog(h: History, e: Record, c: Control, xs: seq<Execution>, keys: map<Key, string>)
    requires ControlOk(h, c) && ExecutionsOk(h, c, xs) && Separated(h, xs) && KeysOk(h, c, keys)
    requires e.taskId == None && c == Idle
    ensures ControlOk(h + [e], c) && ExecutionsOk(h + [e], c, xs)
    ensures Separated(h + [e], xs) && KeysOk(h + [e], c, keys)
  {
    SeparatedGrows(h, e, xs);
    forall i | 0 <= i < |xs| ensures ExecutionOk(h + [e], c, xs[i]) {
      RetriedGrows(h, e, xs[i]);
      FoldAppend(h, e, xs[i].taskId);
    }
    forall t | TaskKey(t) in keys ensures Fold(h + [e], t) == Fold(h, t) {
      FoldAppend(h, e, t);
    }
  }

  // ---- Steps ----

  /** What the process asks for is what the table allows: the row has the status it relies on. */
  lemma AskedMoveIsValid(plan: Plan, s: Sys, a: Action)
    requires Safe(s) && C.RowsOk(s.machine) && Asks(plan, s, a)
    ensures
      var m := MoveOf(s.control, a).value;
      && TaskStatusOf(s.machine.disk, m.taskId) == m.source
      && Fold(s.machine.disk.history, m.taskId) == m.source
      && TaskStep(m.source, m.target)
  {
    var m := MoveOf(s.control, a).value;
    assert TaskStatusOf(s.machine.disk, m.taskId) == Fold(s.machine.disk.history, m.taskId);
  }

  predicate IsMoveAction(a: Action) {
    !a.RunTool? && !a.WriteKey? && !a.Other?
  }

  lemma MoveAfter(plan: Plan, s: Sys, a: Action)
    requires IsMoveAction(a) && Enabled(plan, s, a)
    ensures Asks(plan, s, a)
    ensures
      var m, s' := MoveOf(s.control, a).value, After(plan, s, a);
      && s'.machine.disk == LogTask(s.machine.disk, m.taskId, m.target)
      && s'.machine.phase.Half? && s'.control == m.next && s'.executions == s.executions && s'.torn == s.torn
  {
  }

  lemma SafeStepMove(plan: Plan, s: Sys, a: Action)
    requires Safe(s) && C.RowsOk(s.machine) && IsMoveAction(a) && Enabled(plan, s, a)
    ensures Safe(After(plan, s, a))
  {
    MoveAfter(plan, s, a);
    AskedMoveIsValid(plan, s, a);
    var m, d := MoveOf(s.control, a).value, s.machine.disk;
    var e := TaskRecord(m.taskId, TaskStatusOf(d, m.taskId), m.target);
    MovesHaveShape(s.control, a, m);
    MoveControl(d.history, e, s.control, a, m);
    SeparatedGrows(d.history, e, s.executions);
    SafeMove(d.history, e, s.control, m, s.executions, d.keys);
  }

  lemma SafeStepRunTool(plan: Plan, s: Sys, a: Action)
    requires Safe(s) && a.RunTool? && Enabled(plan, s, a)
    ensures Safe(After(plan, s, a))
  {
    var h, xs, t := s.machine.disk.history, s.executions, s.control.t;
    var s' := After(plan, s, a);
    var x := Execution(t, a.success, |h|);
    assert s'.executions == xs + [x];
    forall i | 0 <= i < |xs + [x]| ensures ExecutionOk(h, s'.control, (xs + [x])[i]) {
      if i < |xs| {
        assert ExecutionOk(h, s.control, xs[i]);
      }
    }
    forall i, j | 0 <= i < j < |xs + [x]| && (xs + [x])[i].taskId == (xs + [x])[j].taskId
      ensures RetryBetween(h, (xs + [x])[i], (xs + [x])[j])
    {
      assert ExecutionOk(h, s.control, xs[i]);
    }
  }

  lemma SafeStepWriteKey(plan: Plan, s: Sys, a: Action)
    requires Safe(s) && a.WriteKey? && Enabled(plan, s, a)
    ensures Safe(After(plan, s, a))
  {
    var h := s.machine.disk.history;
    forall i | 0 <= i < |s.executions| ensures ExecutionOk(h, Recorded(s.control.t), s.executions[i]) {
      assert ExecutionOk(h, s.control, s.executions[i]);
    }
  }

  lemma ReplayKeepsLedger(d: Disk, k: nat)
    requires k < |d.history|
    ensures ReplayOne(d, d.history[k]).history == d.history && ReplayOne(d, d.history[k]).keys == d.keys
  {
  }

  lemma SafeStepOther(plan: Plan, s: Sys, a: Action)
    requires Safe(s) && C.RowsOk(s.machine) && a.Other? && Enabled(plan, s, a)
    ensures Safe(After(plan, s, a))
  {
    var d := s.machine.disk;
    match a.step
    case Create(goal, repository) => SafeStepLog(plan, s, a, CreationRecord(goal, repository));
    case Operate(op) => SafeStepLog(plan, s, a, OpRecord(op, WorkflowStatusOf(d)));
    case Crash => SafeStepCrash(plan, s, a);
    case ReplayEvent => ReplayKeepsLedger(d, s.machine.phase.k);
    case _ =>
  }

  lemma SafeStepLog(plan: Plan, s: Sys, a: Action, e: Record)
    requires Safe(s) && a.Other? && (a.step.Create? || a.step.Operate?) && Enabled(plan, s, a)
    requires e.taskId == None && After(plan, s, a).machine.disk == Log(s.machine.disk, e)
    ensures Safe(After(plan, s, a))
  {
    SafeLog(s.machine.disk.history, e, s.control, s.executions, s.machine.disk.keys);
  }

  lemma SafeStepCrash(plan: Plan, s: Sys, a: Action)
    requires Safe(s) && a == Other(C.Crash)
    ensures Safe(After(plan, s, a))
  {
    var h := s.machine.disk.history;
    forall i | 0 <= i < |s.executions| ensures ExecutionOk(h, Idle, s.executions[i]) {
      assert ExecutionOk(h, s.control, s.executions[i]);
    }
  }

  lemma SafeStep(plan: Plan, s: Sys, a: Action)
    requires Safe(s) && C.RowsOk(s.machine) && Enabled(plan, s, a)
    ensures Safe(After(plan, s, a))
  {
    if a.RunTool? {
      SafeStepRunTool(plan, s, a);
    } else if a.WriteKey? {
      SafeStepWriteKey(plan, s, a);
    } else if a.Other? {
      SafeStepOther(plan, s, a);
    } else {
      SafeStepMove(plan, s, a);
    }
  }

  lemma {:induction false} SafeAlways(plan: Plan, run: seq<Action>)
    requires Executable(plan, run)
    ensures Safe(End(plan, run))
  {
    if run != [] {
      var n := |run| - 1;
      SafeAlways(plan, run[..n]);
      EngineFacts(plan, run[..n]);
      SafeStep(plan, End(plan, run[..n]), run[n]);
    }
  }

  // ---- Main results ----

  /** At most one success, over every interleaving of moves, crashes and replays: a successful
      execution of a task is its last one, and before each later execution of a task the ledger
      has a RETRY_WAIT since the earlier one. */
  lemma AtMostOnceSuccess(plan: Plan, run: seq<Action>, i: nat, j: nat)
    requires Executable(plan, run)
    requires i < j < |End(plan, run).executions|
    requires End(plan, run).executions[i].taskId == End(plan, run).executions[j].taskId
    ensures
      var s := End(plan, run);
      var x, y := s.executions[i], s.executions[j];
      && !x.success
      && exists k :: x.at <= k < y.at && k < |s.machine.disk.history| &&
                     Moves(s.machine.disk.history[k], x.taskId, RetryWait)
  {
    SafeAlways(plan, run);
    var s := End(plan, run);
    var h, x, y := s.machine.disk.history, s.executions[i], s.executions[j];
    assert RetryBetween(h, x, y);
    var k :| x.at <= k < y.at && k < |h| && Moves(h[k], x.taskId, RetryWait);
    assert ExecutionOk(h, s.control, x);
  }

  /** A written idempotency key implies that its task is POST_VERIFYING or COMMITTED. */
  lemma KeysMeanSuccess(plan: Plan, run: seq<Action>, t: TaskId)
    requires Executable(plan, run) && TaskKey(t) in End(plan, run).machine.disk.keys
    ensures Fold(End(plan, run).machine.disk.history, t) in {PostVerifying, Committed}
  {
    SafeAlways(plan, run);
  }

  /** The duplicate check never rejects a proposal, not even after crashes and replays. */
  lemma NoFalseDuplicates(plan: Plan, run: seq<Action>, t: TaskId)
    requires Executable(plan, run) && End(plan, run).control == Working(t, Verifying)
    ensures !IsDuplicate(End(plan, run).machine.disk, TaskKey(t))
  {
    SafeAlways(plan, run);
  }

  /** The process never asks for a move that the engine refuses. */
  lemma NoMoveRefused(plan: Plan, run: seq<Action>, a: Action)
    requires Executable(plan, run) && Asks(plan, End(plan, run), a)
    ensures
      var m := MoveOf(End(plan, run).control, a).value;
      TaskStep(TaskStatusOf(End(plan, run).machine.disk, m.taskId), m.target)
  {
    SafeAlways(plan, run);
    EngineFacts(plan, run);
    AskedMoveIsValid(plan, End(plan, run), a);
  }
}
