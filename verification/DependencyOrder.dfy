/** Tasks start only after their dependencies are committed, unless a crash tears a promotion
    apart (orchestration/scheduler.py, experiments/durable.py). */
module DependencyOrder {
  import opened Wrappers
  import opened StateMachine
  import opened Events
  import opened Histories
  import opened Disks
  import opened Journals
  import opened Plans
  import opened RuntimeRuns
  import opened RuntimeSafety
  import opened Tracking
  import C = CrashRuns

  ghost predicate DepsCommitted(task: Task, h: History) {
    forall d :: d in task.dependencies ==> Fold(h, d) == Committed
  }

  /** A task that got beyond PENDING, and is neither BLOCKED nor just being blocked, has all its
      dependencies COMMITTED. */
  ghost predicate StartedOk(task: Task, h: History, c: Control) {
    Fold(h, task.id) != Pending && Fold(h, task.id) != Blocked && c != Blocking(task.id) ==> DepsCommitted(task, h)
  }

  ghost predicate CommitBefore(h: History, k: nat, d: TaskId) {
    exists j :: 0 <= j < k && j < |h| && Moves(h[j], d, Committed)
  }

  /** Every CLAIMED event of `task` comes after the COMMITTED events of all its dependencies. */
  ghost predicate ClaimsInOrder(task: Task, h: History) {
    forall k :: 0 <= k < |h| && Moves(h[k], task.id, Claimed) ==>
      forall d :: d in task.dependencies ==> CommitBefore(h, k, d)
  }

  ghost predicate InOrder(plan: Plan, s: Sys) {
    forall i :: 0 <= i < |plan| ==>
      StartedOk(plan[i], s.machine.disk.history, s.control) && ClaimsInOrder(plan[i], s.machine.disk.history)
  }

  lemma CommittedStays(h: History, e: Record, m: Move, d: TaskId)
    requires Fold(h, d) == Committed && m.source != Committed
    requires IsMove(e, m.taskId, m.target) && Fold(h, m.taskId) == m.source
    ensures Fold(h + [e], d) == Committed
  {
    FoldAppend(h, e, d);
  }

  lemma ClaimsAppend(task: Task, h: History, e: Record)
    requires ClaimsInOrder(task, h)
    requires Moves(e, task.id, Claimed) ==> DepsCommitted(task, h)
    ensures ClaimsInOrder(task, h + [e])
  {
    var g := h + [e];
    forall k, d | 0 <= k < |g| && Moves(g[k], task.id, Claimed) && d in task.dependencies
      ensures CommitBefore(g, k, d)
    {
      if k < |h| {
        assert CommitBefore(h, k, d);
        var j :| 0 <= j < k && j < |h| && Moves(h[j], d, Committed);
        assert Moves(g[j], d, Committed);
      } else {
        var j := FoldWritten(h, d);
        assert Moves(g[j], d, Committed);
      }
    }
  }

  /** The scheduler and the attempts keep the order: a task leaves PENDING for good only when its
      dependencies are COMMITTED. */
  lemma MoveKeepsStarted(task: Task, h: History, e: Record, c: Control, a: Action, m: Move)
    requires StartedOk(task, h, c) && ControlOk(h, c)
    requires MoveOf(c, a) == Some(m) && IsMove(e, m.taskId, m.target) && Fold(h, m.taskId) == m.source
    requires a.Promote? && m.taskId == task.id ==> DepsCommitted(task, h)
    ensures StartedOk(task, h + [e], m.next)
  {
    FoldAppend(h, e, task.id);
    if DepsCommitted(task, h) {
      MovesHaveShape(c, a, m);
      forall d | d in task.dependencies ensures Fold(h + [e], d) == Committed {
        CommittedStays(h, e, m, d);
      }
    } else {
      StillWaiting(c, a, m, task, h);
    }
  }

  /** A move of a task whose dependencies are not all COMMITTED leaves it BLOCKED or being blocked. */
  lemma StillWaiting(c: Control, a: Action, m: Move, task: Task, h: History)
    requires StartedOk(task, h, c) && !DepsCommitted(task, h) && ControlOk(h, c)
    requires MoveOf(c, a) == Some(m) && Fold(h, m.taskId) == m.source
    requires a.Promote? ==> m.taskId != task.id
    ensures m.taskId == task.id ==> m.next == Blocking(task.id) || m.target == Blocked
    ensures m.taskId != task.id ==> c != Blocking(task.id)
  {
  }

  lemma MoveKeepsClaims(task: Task, h: History, e: Record, c: Control, a: Action, m: Move)
    requires StartedOk(task, h, c) && ClaimsInOrder(task, h) && MoveOf(c, a) == Some(m)
    requires IsMove(e, m.taskId, m.target) && Fold(h, m.taskId) == m.source
    ensures ClaimsInOrder(task, h + [e])
  {
    ClaimsAppend(task, h, e);
  }

  lemma OrderStepMove(plan: Plan, s: Sys, a: Action)
    requires DistinctIds(plan) && Safe(s) && C.RowsOk(s.machine) && InOrder(plan, s)
    requires IsMoveAction(a) && Enabled(plan, s, a)
    ensures InOrder(plan, After(plan, s, a))
  {
    MoveAfter(plan, s, a);
    AskedMoveIsValid(plan, s, a);
    var m, d := MoveOf(s.control, a).value, s.machine.disk;
    var e := TaskRecord(m.taskId, TaskStatusOf(d, m.taskId), m.target);
    forall i | 0 <= i < |plan|
      ensures StartedOk(plan[i], d.history + [e], m.next) && ClaimsInOrder(plan[i], d.history + [e])
    {
      if a.Promote? && m.taskId == plan[i].id {
        var j :| 0 <= j < |plan| && plan[j] == a.task;
        assert i == j;
        forall u | u in plan[i].dependencies ensures Fold(d.history, u) == Committed {
          assert TaskStatusOf(d, u) == Fold(d.history, u);
        }
      }
      MoveKeepsStarted(plan[i], d.history, e, s.control, a, m);
      MoveKeepsClaims(plan[i], d.history, e, s.control, a, m);
    }
  }

  lemma LogKeepsOrder(task: Task, h: History, e: Record, c: Control)
    requires StartedOk(task, h, c) && ClaimsInOrder(task, h) && e.taskId == None
    ensures StartedOk(task, h + [e], c) && ClaimsInOrder(task, h + [e])
  {
    FoldAppend(h, e, task.id);
    ClaimsAppend(task, h, e);
    forall d | d in task.dependencies ensures Fold(h + [e], d) == Fold(h, d) {
      FoldAppend(h, e, d);
    }
  }

  /** The other steps log at most a workflow event, or nothing. */
  lemma OtherHistory(plan: Plan, s: Sys, a: Action) returns (e: Record)
    requires !IsMoveAction(a) && Enabled(plan, s, a)
    ensures
      var h, g := s.machine.disk.history, After(plan, s, a).machine.disk.history;
      g == h || (g == h + [e] && e.taskId == None)
  {
    e := Record(None, WorkflowCreated, Payload(None, None, map[]));
    if a.Other? {
      match a.step
      case Create(goal, repository) => e := CreationRecord(goal, repository);
      case Operate(op) => e := OpRecord(op, WorkflowStatusOf(s.machine.disk));
      case ReplayEvent => ReplayKeepsLedger(s.machine.disk, s.machine.phase.k);
      case _ =>
    }
  }

  lemma OrderStepOther(plan: Plan, s: Sys, a: Action)
    requires InOrder(plan, s) && !IsMoveAction(a) && Enabled(plan, s, a) && !After(plan, s, a).torn
    ensures InOrder(plan, After(plan, s, a))
  {
    var e := OtherHistory(plan, s, a);
    var s' := After(plan, s, a);
    var h, g := s.machine.disk.history, s'.machine.disk.history;
    assert s.control.Blocking? ==> s'.control == s.control;
    forall i | 0 <= i < |plan| ensures StartedOk(plan[i], g, s'.control) && ClaimsInOrder(plan[i], g) {
      if g != h {
        LogKeepsOrder(plan[i], h, e, s.control);
      }
    }
  }

  lemma {:induction false} OrderAlways(plan: Plan, run: seq<Action>)
    requires DistinctIds(plan) && Executable(plan, run) && !End(plan, run).torn
    ensures InOrder(plan, End(plan, run))
  {
    if run != [] {
      var n := |run| - 1;
      var s := End(plan, run[..n]);
      OrderAlways(plan, run[..n]);
      SafeAlways(plan, run[..n]);
      EngineFacts(plan, run[..n]);
      if IsMoveAction(run[n]) {
        OrderStepMove(plan, s, run[n]);
      } else {
        OrderStepOther(plan, s, run[n]);
      }
    }
  }

  /** Dependency order. In every run in which no crash falls between the READY and the BLOCKED of
      a task being blocked, each CLAIMED event of a task comes after the COMMITTED events of all
      its dependencies; and outside that pair of events, every task that is READY or beyond, and
      not BLOCKED, has all its dependencies COMMITTED. */
  lemma ClaimsFollowCommits(plan: Plan, run: seq<Action>, i: nat, d: TaskId)
    requires DistinctIds(plan) && Executable(plan, run) && !End(plan, run).torn
    requires i < |plan| && d in plan[i].dependencies
    ensures
      var h := End(plan, run).machine.disk.history;
      && (forall k :: 0 <= k < |h| && Moves(h[k], plan[i].id, Claimed) ==>
            exists j :: 0 <= j < k && Moves(h[j], d, Committed))
      && (Fold(h, plan[i].id) !in {Pending, Blocked} && End(plan, run).control != Blocking(plan[i].id) ==>
            Fold(h, d) == Committed)
  {
    OrderAlways(plan, run);
    var h := End(plan, run).machine.disk.history;
    assert StartedOk(plan[i], h, End(plan, run).control) && ClaimsInOrder(plan[i], h);
    forall k | 0 <= k < |h| && Moves(h[k], plan[i].id, Claimed) ensures exists j :: 0 <= j < k && Moves(h[j], d, Committed) {
      assert CommitBefore(h, k, d);
    }
  }

  // ---- Torn promotions ----

  /** Some entry for `t` has a dependency that is FAILED. */
  ghost predicate DependsOnFailed(plan: Plan, h: History, t: TaskId, task: Task, d: TaskId) {
    task in plan && task.id == t && d in task.dependencies && Fold(h, d) == TaskStatus.Failed
  }

  /** A task that is being blocked has a FAILED dependency. */
  lemma {:induction false} BlockingHasReason(plan: Plan, run: seq<Action>) returns (task: Task, d: TaskId)
    requires Executable(plan, run) && End(plan, run).control.Blocking?
    ensures DependsOnFailed(plan, End(plan, run).machine.disk.history, End(plan, run).control.t, task, d)
  {
    var n := |run| - 1;
    var s, a := End(plan, run[..n]), run[n];
    SafeAlways(plan, run[..n]);
    EngineFacts(plan, run[..n]);
    if IsMoveAction(a) {
      task, d := BlockingStarts(plan, s, a);
    } else {
      BlockingWaits(plan, s, a);
      task, d := BlockingHasReason(plan, run[..n]);
    }
  }

  lemma BlockingStarts(plan: Plan, s: Sys, a: Action) returns (task: Task, d: TaskId)
    requires Safe(s) && C.RowsOk(s.machine) && IsMoveAction(a) && Enabled(plan, s, a)
    requires After(plan, s, a).control.Blocking?
    ensures
      var s' := After(plan, s, a);
      DependsOnFailed(plan, s'.machine.disk.history, s'.control.t, task, d)
  {
    MoveAfter(plan, s, a);
    AskedMoveIsValid(plan, s, a);
    task := a.task;
    d :| d in task.dependencies && d in s.machine.disk.tasks && s.machine.disk.tasks[d] == TaskStatus.Failed;
    assert TaskStatusOf(s.machine.disk, d) == Fold(s.machine.disk.history, d);
    FoldAppend(s.machine.disk.history, TaskRecord(task.id, TaskStatusOf(s.machine.disk, task.id), Ready), d);
  }

  lemma BlockingWaits(plan: Plan, s: Sys, a: Action)
    requires Safe(s) && !IsMoveAction(a) && Enabled(plan, s, a) && After(plan, s, a).control.Blocking?
    ensures After(plan, s, a).control == s.control
    ensures After(plan, s, a).machine.disk.history == s.machine.disk.history
  {
  }

  /** A task that is FAILED was never COMMITTED. */
  lemma FailedWasNeverCommitted(h: History, d: TaskId, k: nat)
    requires Legal(h) && k <= |h| && Fold(h, d) == TaskStatus.Failed
    ensures !CommitBefore(h, k, d)
  {
    if CommitBefore(h, k, d) {
      var j :| 0 <= j < k && j < |h| && Moves(h[j], d, Committed);
      FoldPrefix(h, j, d);
      TerminalIsFinal(h, j + 1, d);
    }
  }

  /** Without that condition the order is lost: from every state in which a task is being blocked,
      a crash and a replay lead to a state in which the task has been claimed, although one of
      its dependencies is FAILED and was never COMMITTED. */
  lemma TornPromotionClaims(plan: Plan, run: seq<Action>, s: Sys, t: TaskId)
    returns (longer: seq<Action>, after: Sys, task: Task, d: TaskId)
    requires EndsIn(plan, run, s) && s.control == Blocking(t)
    ensures run + [Other(C.Crash)] <= longer && EndsIn(plan, longer, after)
    ensures Fold(after.machine.disk.history, t) == Claimed
    ensures DependsOnFailed(plan, after.machine.disk.history, t, task, d)
    ensures !ClaimsInOrder(task, after.machine.disk.history)
  {
    task, d := BlockingHasReason(plan, run);
    var again := TornState(plan, run, t);
    ClaimReady(plan, again, t);
    longer := again + [Claim(t)];
    after := End(plan, longer);
    var h, e := s.machine.disk.history, TaskRecord(t, Ready, Claimed);
    FoldAppend(h, e, t);
    FoldAppend(h, e, d);
    EngineFacts(plan, longer);
    FailedWasNeverCommitted(after.machine.disk.history, d, |h|);
    assert Moves(after.machine.disk.history[|h|], task.id, Claimed);
  }

  lemma TornState(plan: Plan, run: seq<Action>, t: TaskId) returns (again: seq<Action>)
    requires Executable(plan, run) && End(plan, run).control == Blocking(t)
    ensures Executable(plan, again) && run + [Other(C.Crash)] <= again
    ensures
      var s := End(plan, again);
      && s.control == Idle && s.machine.phase.Up? && s.torn
      && t in s.machine.disk.tasks && s.machine.disk.tasks[t] == Ready
      && s.machine.disk.history == End(plan, run).machine.disk.history
      && Fold(s.machine.disk.history, t) == Ready
  {
    again := TrackCrash(plan, run);
    TornRow(plan, run, t);
    SafeAlways(plan, run);
    assert End(plan, again).machine.disk == Replayed(End(plan, run).machine.disk);
  }

  lemma ClaimReady(plan: Plan, run: seq<Action>, t: TaskId)
    requires Executable(plan, run)
    requires
      var s := End(plan, run);
      s.control == Idle && s.machine.phase.Up? && t in s.machine.disk.tasks && s.machine.disk.tasks[t] == Ready
    ensures Executable(plan, run + [Claim(t)])
    ensures
      var s, s' := End(plan, run), End(plan, run + [Claim(t)]);
      && s'.machine.disk == Log(s.machine.disk, TaskRecord(t, Ready, Claimed))
      && s'.torn == s.torn
  {
    Extend(plan, run, Claim(t));
  }

  /** The replayed row of a task that was being blocked says READY. */
  lemma TornRow(plan: Plan, run: seq<Action>, t: TaskId)
    requires Executable(plan, run) && End(plan, run).control == Blocking(t)
    ensures
      var d := End(plan, run).machine.disk;
      Replayed(d).history == d.history && t in Replayed(d).tasks && Replayed(d).tasks[t] == Ready
  {
    var d := End(plan, run).machine.disk;
    SafeAlways(plan, run);
    RefinesEngine(plan, run);
    C.ReplayRestores(EngineSteps(plan, run));
    PartialReplay(d, |d.history|, t);
    assert TaskStatusOf(Replayed(d), t) == Ready;
  }

  /** A run in which the first of two tasks fails. */
  lemma FirstTaskFails(plan: Plan) returns (run: seq<Action>, st: Storage)
    requires plan == [Task(0, []), Task(1, [0])]
    ensures Tracks(plan, run, st, Idle) && st.disk.tasks == map[0 := TaskStatus.Failed, 1 := Pending]
  {
    hide Tracks;
    st := EMPTY;
    TrackStart(plan);
    run := TrackRegistration(plan, [], st, [0, 1]);
    st := StoredTasks(st, [0, 1]);
    assert st == Wrote(Wrote(EMPTY, TaskWrite(0, Pending)), TaskWrite(1, Pending)) by {
      assert [0, 1][..1] == [0] && [0][..0] == [];
    }
    assert plan[0] in plan;
    run := TrackMove(plan, run, st, Idle, Promote(plan[0]));
    st := StoredMove(st, 0, Ready);
    run := TrackMove(plan, run, st, Idle, Claim(0));
    st := StoredMove(st, 0, Claimed);
    run := TrackMove(plan, run, st, Working(0, Claimed), Propose);
    st := StoredMove(st, 0, Proposing);
    run := TrackMove(plan, run, st, Working(0, Proposing), ProposalFails);
    st := StoredMove(st, 0, TaskStatus.Failed);
    assert st.disk.tasks == map[0 := TaskStatus.Failed, 1 := Pending];
  }

  /** Such a state exists: a task fails, and the scheduler starts to block the one that depends on it. */
  lemma BlockingHappens(plan: Plan) returns (run: seq<Action>, s: Sys)
    requires plan == [Task(0, []), Task(1, [0])]
    ensures EndsIn(plan, run, s) && s.control == Blocking(1)
    ensures Fold(s.machine.disk.history, 0) == TaskStatus.Failed
  {
    var st;
    run, st := FirstTaskFails(plan);
    assert plan[1] in plan && 0 in plan[1].dependencies;
    run := TrackMove(plan, run, st, Idle, StartBlocking(plan[1]));
    EngineFacts(plan, run);
    s := End(plan, run);
    assert TaskStatusOf(s.machine.disk, 0) == TaskStatus.Failed;
  }

  /** So the condition of `ClaimsFollowCommits` cannot be dropped. */
  lemma OrderLostWhenTorn() returns (plan: Plan, run: seq<Action>, s: Sys)
    ensures DistinctIds(plan) && EndsIn(plan, run, s)
    ensures |plan| == 2 && plan[0].id in plan[1].dependencies
    ensures Fold(s.machine.disk.history, plan[1].id) == Claimed
    ensures Fold(s.machine.disk.history, plan[0].id) == TaskStatus.Failed
  {
    plan := [Task(0, []), Task(1, [0])];
    run, s := BlockingHappens(plan);
    var task, d;
    run, s, task, d := TornPromotionClaims(plan, run, s, 1);
    assert task == plan[1] && d == 0;
  }
}
