/** The task scheduler (orchestration/scheduler.py). */
module Schedulers {
  import opened StateMachine
  import opened Events
  import opened Histories
  import opened Disks
  import opened Journals
  import opened Engines
  import opened Plans
  import opened Boards
  import opened Cycles
  import opened Loops
  import opened RuntimeRuns
  import opened RuntimeSafety
  import opened Tracking

  /** Attempts begun, and attempts that came to an end, according to the ledger. */
  function Starts(h: History): nat {
    Count(h, Claimed)
  }

  function Ends(h: History): nat {
    Count(h, Committed) + Count(h, TaskStatus.Failed) + Count(h, Rejected) + Count(h, RetryWait)
  }

  /** One more move to `target` is on record. */
  predicate Tallied(before: Disk, after: Disk, target: TaskStatus) {
    && Starts(after.history) == Starts(before.history) + (if target == Claimed then 1 else 0)
    && Ends(after.history) == Ends(before.history) +
       (if target in {Committed, TaskStatus.Failed, Rejected, RetryWait} then 1 else 0)
  }

  lemma TallyMove(d: Disk, t: TaskId, target: TaskStatus)
    ensures Tallied(d, Transitioned(d, t, target), target)
  {
    var e := TaskRecord(t, TaskStatusOf(d, t), target);
    CountAppend(d.history, e, Claimed);
    CountAppend(d.history, e, Committed);
    CountAppend(d.history, e, TaskStatus.Failed);
    CountAppend(d.history, e, Rejected);
    CountAppend(d.history, e, RetryWait);
  }

  /** If `run` has led to `before` at point `c`, then `longer` leads to `after` at `next`. */
  ghost predicate Follows(plan: Plan, run: seq<Action>, before: Storage, c: Control,
                          longer: seq<Action>, after: Storage, next: Control) {
    Tracks(plan, run, before, c) ==> Tracks(plan, longer, after, next)
  }

  /** Only the ledger and the task rows differ. */
  predicate TaskWritesOnly(before: Disk, after: Disk) {
    after == before.(history := after.history, tasks := after.tasks)
  }

  /** Task rows and ledger change, but no attempt begins or ends. */
  predicate NoAttempts(before: Disk, after: Disk) {
    && TaskWritesOnly(before, after)
    && Starts(after.history) == Starts(before.history)
    && Ends(after.history) == Ends(before.history)
  }

  lemma MoveWithoutAttempt(before: Disk, d: Disk, t: TaskId, target: TaskStatus)
    requires NoAttempts(before, d) && (target == Ready || target == Blocked)
    ensures NoAttempts(before, Transitioned(d, t, target))
  {
    TallyMove(d, t, target);
  }

  lemma FollowsOn(plan: Plan, run: seq<Action>, before: Storage, c: Control, middle: seq<Action>, st: Storage,
                  via: Control, longer: seq<Action>, after: Storage, next: Control)
    requires Follows(plan, run, before, c, middle, st, via) && Follows(plan, middle, st, via, longer, after, next)
    ensures Follows(plan, run, before, c, longer, after, next)
  {
  }

  /** The executor returns, in the course of an operation that began at `before`. */
  lemma ToolFollows(plan: Plan, run: seq<Action>, before: Storage, sofar: seq<Action>, st: Storage,
                    t: TaskId, success: bool)
    returns (longer: seq<Action>)
    requires Follows(plan, run, before, Idle, sofar, st, Working(t, Executing))
    ensures Follows(plan, run, before, Idle, longer, Wrote(st, ToolRun(t, success)), Ran(t, success))
  {
    longer := sofar;
    if Tracks(plan, sofar, st, Working(t, Executing)) {
      longer := TrackTool(plan, sofar, st, t, success);
    }
  }

  /** The idempotency key is written. */
  lemma KeyFollows(plan: Plan, run: seq<Action>, before: Storage, sofar: seq<Action>, st: Storage, t: TaskId)
    returns (longer: seq<Action>)
    requires Follows(plan, run, before, Idle, sofar, st, Checked(t, true))
    ensures Follows(plan, run, before, Idle, longer, Wrote(st, KeyWrite(TaskKey(t), COMMITTED)), Recorded(t))
  {
    longer := sofar;
    if Tracks(plan, sofar, st, Checked(t, true)) {
      longer := TrackKey(plan, sofar, st, t);
    }
  }

  lemma BlockedRow(rows: Rows, t: TaskId)
    ensures (rows[t := Ready])[t := Blocked] == rows[t := Blocked]
  {
  }

  /** `transition_task`, carrying the run along: `a` is the action of the process that makes the
      move. Every caller shows that the engine will not refuse it. */
  method MoveTask(engine: OrchestratorEngine, t: TaskId, target: TaskStatus,
                  ghost plan: Plan, ghost run: seq<Action>, ghost c: Control, ghost a: Action)
    returns (ghost longer: seq<Action>)
    requires engine.Valid() && TaskStep(TaskStatusOf(engine.OnDisk(), t), target)
    requires IsMoveAction(a) && MoveOf(c, a).Some? && Guard(plan, engine.OnDisk(), c, a)
    requires MoveOf(c, a).value.taskId == t && MoveOf(c, a).value.target == target
    modifies engine.events, engine.journal, engine.state`tasks
    ensures engine.Valid()
    ensures engine.Stored() == StoredMove(old(engine.Stored()), t, target)
    ensures Follows(plan, run, old(engine.Stored()), c, longer, engine.Stored(), MoveOf(c, a).value.next)
    ensures Tallied(old(engine.OnDisk()), engine.OnDisk(), target)
  {
    hide Tracks, Starts, Ends;
    ghost var before := engine.Stored();
    longer := run;
    if Tracks(plan, run, before, c) {
      longer := TrackMove(plan, run, before, c, a);
    }
    TallyMove(before.disk, t, target);
    var outcome := engine.TransitionTask(t, target);
    assert outcome.Pass?;
  }

  class TaskScheduler {
    const engine: OrchestratorEngine

    constructor (engine: OrchestratorEngine)
      ensures this.engine == engine
    {
      this.engine := engine;
    }

    /** Reports a circular dependency exactly when the plan's dependency relation, restricted to
        its own tasks, has one. Without one, `order` has every task after its dependencies. */
    method DetectCircularDeps(plan: Plan) returns (cycles: seq<seq<TaskId>>, ghost order: seq<TaskId>)
      ensures cycles == [] <==> Acyclic(DepMap(plan))
      ensures forall c :: c in cycles ==> SimpleCycle(DepMap(plan), c)
      ensures AllReported(DepMap(plan), cycles, order) && |cycles| <= Degree(DepMap(plan), order)
      ensures forall a, b :: Edge(DepMap(plan), a, b) ==> (Closes(cycles, a, b) <==> !Before(order, b, a))
      ensures Acyclic(Opened(DepMap(plan), cycles))
      ensures cycles == [] ==> Topological(DepMap(plan), order)
    {
      var taskIds := Ids(plan);
      var depMap: Graph := map[];
      for i := 0 to |plan|
        invariant depMap == DepMapPrefix(plan, i)
      {
        depMap := depMap[plan[i].id := Filter(plan[i].dependencies, taskIds)];
      }
      DepMapIsInternal(plan);
      cycles, order := FindCycles(depMap);
    }

    /** The READY tasks, each once, in no particular order. */
    method GetReady() returns (ready: seq<TaskId>)
      ensures forall t :: t in ready <==> t in engine.state.tasks && engine.state.tasks[t] == Ready
      ensures NoDuplicates(ready)
      ensures |ready| <= |engine.state.tasks|
    {
      var rows := engine.state.GetTasksByWorkflow();
      ready := [];
      for i := 0 to |rows|
        invariant |ready| <= i
        invariant forall t :: t in ready <==> t in rows[..i] && engine.state.tasks[t] == Ready
        invariant NoDuplicates(ready)
      {
        assert rows[..i + 1] == rows[..i] + [rows[i]];
        assert rows[i] !in rows[..i];
        if engine.state.tasks[rows[i]] == Ready {
          ready := ready + [rows[i]];
        }
      }
      assert rows[..|rows|] == rows;
    }

    method AreDepsSatisfied(task: Task) returns (satisfied: bool)
      ensures satisfied <==> Satisfied(task, engine.state.tasks)
    {
      for i := 0 to |task.dependencies|
        invariant forall d :: d in task.dependencies[..i] ==>
          d in engine.state.tasks && engine.state.tasks[d] == Committed
      {
        assert task.dependencies[..i + 1] == task.dependencies[..i] + [task.dependencies[i]];
        var row := engine.state.GetTask(task.dependencies[i]);
        if row.None? {
          assert task.dependencies[i] in task.dependencies;
          return false;
        }
        if row.value != Committed {
          assert task.dependencies[i] in task.dependencies;
          return false;
        }
      }
      assert task.dependencies[..|task.dependencies|] == task.dependencies;
      return true;
    }

    method HasFailedDependency(task: Task) returns (failed: bool)
      ensures failed <==> HasFailedDep(task, engine.state.tasks)
    {
      for i := 0 to |task.dependencies|
        invariant forall d :: d in task.dependencies[..i] && d in engine.state.tasks ==>
          engine.state.tasks[d] != TaskStatus.Failed
      {
        assert task.dependencies[..i + 1] == task.dependencies[..i] + [task.dependencies[i]];
        var row := engine.state.GetTask(task.dependencies[i]);
        if row.Some? && row.value == TaskStatus.Failed {
          assert task.dependencies[i] in task.dependencies;
          return true;
        }
      }
      assert task.dependencies[..|task.dependencies|] == task.dependencies;
      return false;
    }

    /** One round of `promote_pending`. */
    method PromoteTask(task: Task, ghost plan: Plan, ghost run: seq<Action>)
      returns (promoted: nat, ghost longer: seq<Action>)
      requires engine.Valid() && task in plan
      modifies engine.events, engine.journal, engine.state`tasks
      ensures engine.Valid()
      ensures promoted == if IsPending(task, old(engine.state.tasks)) && Satisfied(task, old(engine.state.tasks)) then 1 else 0
      ensures engine.state.tasks == PromoteOne(task, old(engine.state.tasks))
      ensures NoAttempts(old(engine.OnDisk()), engine.OnDisk())
      ensures Follows(plan, run, old(engine.Stored()), Idle, longer, engine.Stored(), Idle)
    {
      promoted, longer := 0, run;
      var row := engine.state.GetTask(task.id);
      if row.None? || row.value != Pending {
        return;
      }
      var satisfied := AreDepsSatisfied(task);
      if satisfied {
        longer := MoveTask(engine, task.id, Ready, plan, run, Idle, Promote(task));
        promoted := 1;
      } else {
        var failed := HasFailedDependency(task);
        if failed {
          longer := BlockTask(task, plan, run);
        }
      }
    }

    /** Blocking goes through READY, since the table has no move from PENDING to BLOCKED. */
    method BlockTask(task: Task, ghost plan: Plan, ghost run: seq<Action>)
      returns (ghost longer: seq<Action>)
      requires engine.Valid() && task in plan
      requires IsPending(task, engine.state.tasks)
      requires !Satisfied(task, engine.state.tasks) && HasFailedDep(task, engine.state.tasks)
      modifies engine.events, engine.journal, engine.state`tasks
      ensures engine.Valid()
      ensures engine.state.tasks == old(engine.state.tasks)[task.id := Blocked]
      ensures NoAttempts(old(engine.OnDisk()), engine.OnDisk())
      ensures Follows(plan, run, old(engine.Stored()), Idle, longer, engine.Stored(), Idle)
    {
      ghost var before, middle, moved;
      before := engine.Stored();
      moved := MoveTask(engine, task.id, Ready, plan, run, Idle, StartBlocking(task));
      middle := engine.Stored();
      longer := MoveTask(engine, task.id, Blocked, plan, moved, Blocking(task.id), FinishBlocking);
      FollowsOn(plan, run, before, Idle, moved, middle, Blocking(task.id), longer, engine.Stored(), Idle);
      MoveWithoutAttempt(before.disk, before.disk, task.id, Ready);
      MoveWithoutAttempt(before.disk, middle.disk, task.id, Blocked);
      BlockedRow(before.disk.tasks, task.id);
    }

    /** Leaves the rows that the rounds of `Promote` compute, and counts the promotions to READY. */
    method PromotePending(plan: Plan, ghost run: seq<Action>)
      returns (promoted: nat, ghost longer: seq<Action>)
      requires engine.Valid()
      modifies engine.events, engine.journal, engine.state`tasks
      ensures engine.Valid()
      ensures promoted == Promoted(plan, old(engine.state.tasks), |plan|)
      ensures engine.state.tasks == Boards.Promote(plan, old(engine.state.tasks), |plan|)
      ensures forall i :: 0 <= i < |plan| ==> NothingToDecide(plan[i], engine.state.tasks)
      ensures NoAttempts(old(engine.OnDisk()), engine.OnDisk())
      ensures Follows(plan, run, old(engine.Stored()), Idle, longer, engine.Stored(), Idle)
    {
      promoted, longer := 0, run;
      for i := 0 to |plan|
        invariant engine.Valid()
        invariant promoted == Promoted(plan, old(engine.state.tasks), i)
        invariant engine.state.tasks == Boards.Promote(plan, old(engine.state.tasks), i)
        invariant NoAttempts(old(engine.OnDisk()), engine.OnDisk())
        invariant Follows(plan, run, old(engine.Stored()), Idle, longer, engine.Stored(), Idle)
      {
        var round;
        round, longer := PromoteTask(plan[i], plan, longer);
        promoted := promoted + round;
      }
      PromoteSettles(plan, old(engine.state.tasks), |plan|);
    }

    /** One round of `requeue_retry_wait`. */
    method RequeueTask(t: TaskId, ghost plan: Plan, ghost run: seq<Action>)
      returns (requeued: nat, ghost longer: seq<Action>)
      requires engine.Valid() && t in engine.state.tasks
      modifies engine.events, engine.journal, engine.state`tasks
      ensures engine.Valid()
      ensures requeued == if old(engine.state.tasks)[t] == RetryWait then 1 else 0
      ensures engine.state.tasks ==
        if old(engine.state.tasks)[t] == RetryWait then old(engine.state.tasks)[t := Ready] else old(engine.state.tasks)
      ensures NoAttempts(old(engine.OnDisk()), engine.OnDisk())
      ensures Follows(plan, run, old(engine.Stored()), Idle, longer, engine.Stored(), Idle)
    {
      requeued, longer := 0, run;
      if engine.state.tasks[t] == RetryWait {
        ghost var before := engine.OnDisk();
        longer := MoveTask(engine, t, Ready, plan, longer, Idle, Requeue(t));
        MoveWithoutAttempt(before, before, t, Ready);
        requeued := 1;
      }
    }

    /** Moves every RETRY_WAIT task back to READY. */
    method RequeueRetryWait(ghost plan: Plan, ghost run: seq<Action>)
      returns (requeued: nat, ghost longer: seq<Action>)
      requires engine.Valid()
      modifies engine.events, engine.journal, engine.state`tasks
      ensures engine.Valid()
      ensures requeued == |With(old(engine.state.tasks), RetryWait)|
      ensures engine.state.tasks == Requeued(old(engine.state.tasks))
      ensures NoAttempts(old(engine.OnDisk()), engine.OnDisk())
      ensures Follows(plan, run, old(engine.Stored()), Idle, longer, engine.Stored(), Idle)
    {
      requeued, longer := 0, run;
      ghost var before: Rows := engine.state.tasks;
      var rows := engine.state.GetTasksByWorkflow();
      for i := 0 to |rows|
        invariant engine.Valid()
        invariant engine.state.tasks == RequeuedSome(before, rows[..i])
        invariant requeued == |WaitingAmong(before, rows[..i])|
        invariant NoAttempts(old(engine.OnDisk()), engine.OnDisk())
        invariant Follows(plan, run, old(engine.Stored()), Idle, longer, engine.Stored(), Idle)
      {
        assert rows[i] in rows && rows[i] !in rows[..i];
        RequeuedNext(before, rows, i);
        WaitingNext(before, rows, i);
        var round;
        round, longer := RequeueTask(rows[i], plan, longer);
        requeued := requeued + round;
      }
      RequeuedAll(before, rows);
    }
  }

  /** If the task is still PENDING, some dependency is not COMMITTED and none is FAILED. */
  predicate NothingToDecide(task: Task, rows: Rows) {
    task.id in rows && rows[task.id] == Pending ==>
      && (exists d :: d in task.dependencies && (d !in rows || rows[d] != Committed))
      && (forall d :: d in task.dependencies && d in rows ==> rows[d] != TaskStatus.Failed)
  }

  /** The rows after the requeue loop has gone through the tasks `s`. */
  function RequeuedSome(rows: Rows, s: seq<TaskId>): Rows {
    map t | t in rows :: if t in s && rows[t] == RetryWait then Ready else rows[t]
  }

  /** The tasks of `s` that wait for another attempt. */
  function WaitingAmong(rows: Rows, s: seq<TaskId>): set<TaskId> {
    set t | t in s && t in rows && rows[t] == RetryWait
  }

  lemma WaitingNext(rows: Rows, s: seq<TaskId>, i: nat)
    requires i < |s| && s[i] in rows && s[i] !in s[..i]
    ensures |WaitingAmong(rows, s[..i + 1])| == |WaitingAmong(rows, s[..i])| + if rows[s[i]] == RetryWait then 1 else 0
  {
    assert s[..i + 1] == s[..i] + [s[i]];
    assert WaitingAmong(rows, s[..i + 1]) ==
      WaitingAmong(rows, s[..i]) + if rows[s[i]] == RetryWait then {s[i]} else {};
  }

  lemma RequeuedNext(rows: Rows, s: seq<TaskId>, i: nat)
    requires i < |s| && s[i] in rows && s[i] !in s[..i]
    ensures RequeuedSome(rows, s[..i])[s[i]] == rows[s[i]]
    ensures s[..i + 1] == s[..i] + [s[i]]
    ensures RequeuedSome(rows, s[..i + 1]) ==
      if rows[s[i]] == RetryWait then RequeuedSome(rows, s[..i])[s[i] := Ready] else RequeuedSome(rows, s[..i])
  {
    assert s[..i + 1] == s[..i] + [s[i]];
  }

  lemma RequeuedAll(rows: Rows, s: seq<TaskId>)
    requires forall t :: t in s <==> t in rows
    ensures RequeuedSome(rows, s[..|s|]) == Requeued(rows) && WaitingAmong(rows, s[..|s|]) == With(rows, RetryWait)
  {
    assert s[..|s|] == s;
  }
}
