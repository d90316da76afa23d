/** The scheduling decisions as functions of the task rows (orchestration/scheduler.py). */
module Boards {
  import opened StateMachine
  import opened Events
  import opened Plans

  type Rows = map<TaskId, TaskStatus>

  /** The tasks whose rows have a status. */
  function With(rows: Rows, status: TaskStatus): set<TaskId> {
    set t | t in rows && rows[t] == status
  }

  /** All dependencies have a row that says COMMITTED. */
  predicate Satisfied(task: Task, rows: Rows) {
    forall d :: d in task.dependencies ==> d in rows && rows[d] == Committed
  }

  /** Some dependency has a row that says FAILED. */
  predicate HasFailedDep(task: Task, rows: Rows) {
    exists d :: d in task.dependencies && d in rows && rows[d] == TaskStatus.Failed
  }

  predicate IsPending(task: Task, rows: Rows) {
    task.id in rows && rows[task.id] == Pending
  }

  /** One round of the promotion loop. Blocking passes through READY. */
  function PromoteOne(task: Task, rows: Rows): Rows {
    if !IsPending(task, rows) then rows
    else if Satisfied(task, rows) then rows[task.id := Ready]
    else if HasFailedDep(task, rows) then rows[task.id := Blocked]
    else rows
  }

  /** The rows after the first `k` rounds. */
  function Promote(plan: Plan, rows: Rows, k: nat): Rows
    requires k <= |plan|
  {
    if k == 0 then rows else PromoteOne(plan[k - 1], Promote(plan, rows, k - 1))
  }

  /** How many tasks the first `k` rounds promote to READY. */
  function Promoted(plan: Plan, rows: Rows, k: nat): nat
    requires k <= |plan|
  {
    if k == 0 then 0
    else
      var before := Promote(plan, rows, k - 1);
      Promoted(plan, rows, k - 1) +
      if IsPending(plan[k - 1], before) && Satisfied(plan[k - 1], before) then 1 else 0
  }

  /** The rows agree on which tasks are COMMITTED and which are FAILED. */
  ghost predicate SameOutcomes(a: Rows, b: Rows) {
    && a.Keys == b.Keys
    && forall t :: t in a ==>
      && (a[t] == Committed <==> b[t] == Committed)
      && (a[t] == TaskStatus.Failed <==> b[t] == TaskStatus.Failed)
  }

  lemma DecisionsDependOnOutcomes(task: Task, a: Rows, b: Rows)
    requires SameOutcomes(a, b)
    ensures Satisfied(task, a) == Satisfied(task, b)
    ensures HasFailedDep(task, a) == HasFailedDep(task, b)
  {
  }

  /** Promotion moves PENDING tasks to READY or BLOCKED, and nothing else. */
  lemma {:induction false} PromoteKeepsOutcomes(plan: Plan, rows: Rows, k: nat)
    requires k <= |plan|
    ensures SameOutcomes(rows, Promote(plan, rows, k))
    ensures forall t :: t in rows ==>
      || Promote(plan, rows, k)[t] == rows[t]
      || (rows[t] == Pending && Promote(plan, rows, k)[t] in {Ready, Blocked})
  {
    if k > 0 {
      PromoteKeepsOutcomes(plan, rows, k - 1);
    }
  }

  // ---- Promotion as one simultaneous update ----

  /** What the rows at the start decide for the task with id `t`. */
  function Decision(plan: Plan, rows: Rows, t: TaskId): TaskStatus
    requires t in rows
  {
    if rows[t] == Pending && exists task :: task in plan && task.id == t && Satisfied(task, rows) then Ready
    else if rows[t] == Pending && exists task :: task in plan && task.id == t && HasFailedDep(task, rows) then Blocked
    else rows[t]
  }

  function PromoteAtOnce(plan: Plan, rows: Rows): Rows {
    map t | t in rows :: Decision(plan, rows, t)
  }

  lemma {:induction false} PromotedRow(plan: Plan, rows: Rows, k: nat, i: nat)
    requires DistinctIds(plan) && k <= |plan| && i < |plan| && plan[i].id in rows
    ensures
      var t := plan[i].id;
      t in Promote(plan, rows, k) && Promote(plan, rows, k)[t] ==
        if i < k then PromoteOne(plan[i], rows)[t] else rows[t]
  {
    if k > 0 {
      PromotedRow(plan, rows, k - 1, i);
      PromoteKeepsOutcomes(plan, rows, k - 1);
      DecisionsDependOnOutcomes(plan[k - 1], rows, Promote(plan, rows, k - 1));
    }
  }

  lemma {:induction false} ForeignRow(plan: Plan, rows: Rows, k: nat, t: TaskId)
    requires k <= |plan| && t in rows && t !in Ids(plan)
    ensures t in Promote(plan, rows, k) && Promote(plan, rows, k)[t] == rows[t]
  {
    if k > 0 {
      ForeignRow(plan, rows, k - 1, t);
      assert plan[k - 1] in plan;
    }
  }

  lemma DecisionOfTask(plan: Plan, rows: Rows, i: nat)
    requires DistinctIds(plan) && i < |plan| && plan[i].id in rows
    ensures Decision(plan, rows, plan[i].id) == PromoteOne(plan[i], rows)[plan[i].id]
  {
    assert plan[i] in plan;
    assert forall task :: task in plan && task.id == plan[i].id ==> task == plan[i];
  }

  /** The sequential loop computes the simultaneous update of the rows it started from. */
  lemma PromoteIsSimultaneous(plan: Plan, rows: Rows)
    requires DistinctIds(plan)
    ensures Promote(plan, rows, |plan|) == PromoteAtOnce(plan, rows)
  {
    PromoteKeepsOutcomes(plan, rows, |plan|);
    forall t | t in rows ensures Promote(plan, rows, |plan|)[t] == Decision(plan, rows, t) {
      if t in Ids(plan) {
        var task :| task in plan && task.id == t;
        var i :| 0 <= i < |plan| && plan[i] == task;
        PromotedRow(plan, rows, |plan|, i);
        DecisionOfTask(plan, rows, i);
      } else {
        ForeignRow(plan, rows, |plan|, t);
      }
    }
  }

  /** The order of the plan does not matter. */
  lemma PromoteOrderIndependent(plan: Plan, other: Plan, rows: Rows)
    requires DistinctIds(plan) && DistinctIds(other)
    requires forall task :: task in plan <==> task in other
    ensures Promote(plan, rows, |plan|) == Promote(other, rows, |other|)
  {
    PromoteIsSimultaneous(plan, rows);
    PromoteIsSimultaneous(other, rows);
    assert PromoteAtOnce(plan, rows) == PromoteAtOnce(other, rows);
  }

  /** The tasks whose rows allow their promotion to READY. */
  ghost function Promotable(plan: Plan, rows: Rows, k: nat): set<TaskId>
    requires k <= |plan|
  {
    set i | 0 <= i < k && IsPending(plan[i], rows) && Satisfied(plan[i], rows) :: plan[i].id
  }

  lemma PromotableGrows(plan: Plan, rows: Rows, k: nat)
    requires DistinctIds(plan) && 0 < k <= |plan|
    ensures plan[k - 1].id !in Promotable(plan, rows, k - 1)
    ensures Promotable(plan, rows, k) == Promotable(plan, rows, k - 1) +
      if IsPending(plan[k - 1], rows) && Satisfied(plan[k - 1], rows) then {plan[k - 1].id} else {}
  {
  }

  /** A task is promoted in its round exactly when the starting rows let it. */
  lemma StillPromotable(plan: Plan, rows: Rows, k: nat)
    requires DistinctIds(plan) && k < |plan|
    ensures
      var before := Promote(plan, rows, k);
      IsPending(plan[k], before) && Satisfied(plan[k], before) <==>
        IsPending(plan[k], rows) && Satisfied(plan[k], rows)
  {
    PromoteKeepsOutcomes(plan, rows, k);
    DecisionsDependOnOutcomes(plan[k], rows, Promote(plan, rows, k));
    if plan[k].id in rows {
      PromotedRow(plan, rows, k, k);
    }
  }

  /** The returned count is the number of tasks that the starting rows let become READY. */
  lemma {:induction false} PromotedCounts(plan: Plan, rows: Rows, k: nat)
    requires DistinctIds(plan) && k <= |plan|
    ensures Promoted(plan, rows, k) == |Promotable(plan, rows, k)|
  {
    if k > 0 {
      PromotedCounts(plan, rows, k - 1);
      StillPromotable(plan, rows, k - 1);
      PromotableGrows(plan, rows, k);
    }
  }

  /** After a full pass no task of the plan is left that a rule applies to. */
  ghost predicate Settled(plan: Plan, rows: Rows, k: nat)
    requires k <= |plan|
  {
    forall i :: 0 <= i < k && IsPending(plan[i], rows) ==>
      !Satisfied(plan[i], rows) && !HasFailedDep(plan[i], rows)
  }

  lemma {:induction false} PromoteSettles(plan: Plan, rows: Rows, k: nat)
    requires k <= |plan|
    ensures Settled(plan, Promote(plan, rows, k), k)
  {
    if k > 0 {
      var before, after := Promote(plan, rows, k - 1), Promote(plan, rows, k);
      PromoteSettles(plan, rows, k - 1);
      forall i | 0 <= i < k && IsPending(plan[i], after)
        ensures !Satisfied(plan[i], after) && !HasFailedDep(plan[i], after)
      {
        DecisionsDependOnOutcomes(plan[i], before, after);
        assert IsPending(plan[i], before);
      }
    }
  }

  lemma {:induction false} SettledIsFixed(plan: Plan, rows: Rows, k: nat)
    requires k <= |plan| && Settled(plan, rows, |plan|)
    ensures Promote(plan, rows, k) == rows && Promoted(plan, rows, k) == 0
  {
    if k > 0 {
      SettledIsFixed(plan, rows, k - 1);
    }
  }

  /** An immediate second promotion changes nothing and promotes nothing. */
  lemma PromoteTwice(plan: Plan, rows: Rows)
    ensures
      var once := Promote(plan, rows, |plan|);
      Promote(plan, once, |plan|) == once && Promoted(plan, once, |plan|) == 0
  {
    PromoteSettles(plan, rows, |plan|);
    SettledIsFixed(plan, Promote(plan, rows, |plan|), |plan|);
  }

  /** A promotion leaves a READY row behind. */
  lemma {:induction false} PromotedMeansReady(plan: Plan, rows: Rows, k: nat)
    requires k <= |plan| && Promoted(plan, rows, k) > 0
    ensures exists t :: t in Promote(plan, rows, k) && Promote(plan, rows, k)[t] == Ready
  {
    var before, after := Promote(plan, rows, k - 1), Promote(plan, rows, k);
    if IsPending(plan[k - 1], before) && Satisfied(plan[k - 1], before) {
      assert after[plan[k - 1].id] == Ready;
    } else {
      PromotedMeansReady(plan, rows, k - 1);
      var t :| t in before && before[t] == Ready;
      assert after[t] == Ready;
    }
  }
}
