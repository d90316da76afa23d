/** What can still be executed after a crash: the exact condition, for every run and every task
    (experiments/durable.py, orchestration/scheduler.py, recovery/replay.py). */
module Resuming {
  import opened Wrappers
  import opened StateMachine
  import opened Events
  import opened Histories
  import opened Disks
  import opened Plans
  import opened Boards
  import opened Loops
  import opened RuntimeRuns
  import opened RuntimeSafety
  import opened Tracking
  import opened DependencyOrder
  import opened Stranding
  import C = CrashRuns

  /** The status of `t` according to the ledger of `s`. */
  ghost function StatusIn(s: Sys, t: TaskId): TaskStatus {
    Fold(s.machine.disk.history, t)
  }

  /** A running process between two operations, at the end of `run`. */
  ghost predicate Steady(plan: Plan, run: seq<Action>, s: Sys) {
    EndsIn(plan, run, s) && s.machine.phase.Up? && s.control == Idle
  }

  /** From `s` to `s'` only the status of `t` has changed. */
  ghost predicate OnlyStatus(s: Sys, s': Sys, t: TaskId, target: TaskStatus) {
    forall u :: StatusIn(s', u) == if u == t then target else StatusIn(s, u)
  }

  lemma StatusSame(s: Sys, s1: Sys, s2: Sys, t: TaskId, target: TaskStatus)
    requires OnlyStatus(s, s1, t, target) && s2.machine.disk.history == s1.machine.disk.history
    ensures OnlyStatus(s, s2, t, target)
  {
  }

  lemma StatusTwice(s: Sys, s1: Sys, s2: Sys, t: TaskId, first: TaskStatus, second: TaskStatus)
    requires OnlyStatus(s, s1, t, first) && OnlyStatus(s1, s2, t, second)
    ensures OnlyStatus(s, s2, t, second)
  {
  }

  /** The process runs on from `s` to `s'`: nothing executed in between, and nothing torn. */
  predicate RunsOn(s: Sys, s': Sys, next: Control) {
    s'.machine.phase.Up? && s'.control == next && s'.executions == s.executions && s'.torn == s.torn
  }

  lemma RowsAreCurrent(plan: Plan, run: seq<Action>, s: Sys, t: TaskId)
    requires EndsIn(plan, run, s) && s.machine.phase.Up?
    ensures TaskStatusOf(s.machine.disk, t) == StatusIn(s, t)
    ensures StatusIn(s, t) != Pending ==> t in s.machine.disk.tasks
  {
    EngineFacts(plan, run);
  }

  lemma MoveOn(plan: Plan, run: seq<Action>, s: Sys, a: Action, t: TaskId, target: TaskStatus, next: Control)
    returns (longer: seq<Action>, s': Sys)
    requires EndsIn(plan, run, s) && IsMoveAction(a) && Asks(plan, s, a)
    requires
      var m := MoveOf(s.control, a).value;
      m.taskId == t && m.target == target && m.next == next
    ensures run <= longer && EndsIn(plan, longer, s') && RunsOn(s, s', next) && OnlyStatus(s, s', t, target)
  {
    var m, d := MoveOf(s.control, a).value, s.machine.disk;
    longer := MoveRun(plan, run, s, a);
    s' := Moved(s, m);
    forall u: TaskId ensures StatusIn(s', u) == if u == t then target else StatusIn(s, u) {
      FoldAppend(d.history, TaskRecord(t, TaskStatusOf(d, t), target), u);
    }
  }

  /** A crash and a full replay leave every status as the ledger has it. */
  lemma Restart(plan: Plan, run: seq<Action>) returns (longer: seq<Action>, s': Sys)
    requires Executable(plan, run)
    ensures run + [Other(C.Crash)] <= longer && Steady(plan, longer, s')
    ensures
      var s := End(plan, run);
      && s'.machine.disk.history == s.machine.disk.history && s'.executions == s.executions
      && s'.torn == (s.torn || s.control.Blocking?)
  {
    var d := End(plan, run).machine.disk;
    longer := TrackCrash(plan, run);
    s' := End(plan, longer);
    PartialReplay(d, |d.history|, 0);
  }

  lemma ClaimsAgain(plan: Plan, run: seq<Action>, s: Sys, t: TaskId) returns (longer: seq<Action>, s': Sys)
    requires Steady(plan, run, s) && StatusIn(s, t) == Ready
    ensures run <= longer && EndsIn(plan, longer, s')
    ensures RunsOn(s, s', Working(t, Claimed)) && OnlyStatus(s, s', t, Claimed)
  {
    RowsAreCurrent(plan, run, s, t);
    longer, s' := MoveOn(plan, run, s, Claim(t), t, Claimed, Working(t, Claimed));
  }

  /** From READY to the point where the proposal is verified. */
  lemma ProposesAgain(plan: Plan, run: seq<Action>, s: Sys, t: TaskId) returns (longer: seq<Action>, s': Sys)
    requires Steady(plan, run, s) && StatusIn(s, t) == Ready
    ensures run <= longer && EndsIn(plan, longer, s')
    ensures RunsOn(s, s', Working(t, Verifying)) && OnlyStatus(s, s', t, Verifying)
  {
    hide OnlyStatus, EndsIn;
    var s1, s2;
    longer, s1 := ClaimsAgain(plan, run, s, t);
    longer, s2 := MoveOn(plan, longer, s1, Propose, t, Proposing, Working(t, Proposing));
    StatusTwice(s, s1, s2, t, Claimed, Proposing);
    longer, s' := MoveOn(plan, longer, s2, Verify, t, Verifying, Working(t, Verifying));
    StatusTwice(s, s2, s', t, Proposing, Verifying);
  }

  /** From READY to the executor's return. */
  lemma Attempt(plan: Plan, run: seq<Action>, s: Sys, t: TaskId, success: bool) returns (longer: seq<Action>, s': Sys)
    requires Steady(plan, run, s) && StatusIn(s, t) == Ready
    ensures run <= longer && EndsIn(plan, longer, s') && OnlyStatus(s, s', t, Executing)
    ensures s'.machine.phase.Up? && s'.control == Ran(t, success) && s'.torn == s.torn
    ensures ExecutionsOf(s'.executions, t) == ExecutionsOf(s.executions, t) + 1
  {
    var s1, s2;
    longer, s1 := ProposesAgain(plan, run, s, t);
    NotADuplicate(plan, longer, s1, t);
    hide OnlyStatus, EndsIn;
    longer, s2 := MoveOn(plan, longer, s1, Execute, t, Executing, Working(t, Executing));
    StatusTwice(s, s1, s2, t, Verifying, Executing);
    longer, s' := Returns(plan, longer, s2, t, success);
    StatusSame(s, s2, s', t, Executing);
  }

  lemma NotADuplicate(plan: Plan, run: seq<Action>, s: Sys, t: TaskId)
    requires EndsIn(plan, run, s) && s.control == Working(t, Verifying)
    ensures !IsDuplicate(s.machine.disk, TaskKey(t))
  {
    NoFalseDuplicates(plan, run, t);
  }

  lemma Returns(plan: Plan, run: seq<Action>, s: Sys, t: TaskId, success: bool) returns (longer: seq<Action>, s': Sys)
    requires EndsIn(plan, run, s) && s.machine.phase.Up? && s.control == Working(t, Executing)
    ensures run <= longer && EndsIn(plan, longer, s')
    ensures s'.machine == s.machine && s'.control == Ran(t, success) && s'.torn == s.torn
    ensures ExecutionsOf(s'.executions, t) == ExecutionsOf(s.executions, t) + 1
  {
    Extend(plan, run, RunTool(success));
    longer := run + [RunTool(success)];
    s' := End(plan, longer);
    assert s'.executions[..|s'.executions| - 1] == s.executions;
  }

  /** After a successful execution: POST_VERIFYING, the key, COMMITTED. */
  lemma Concludes(plan: Plan, run: seq<Action>, s: Sys, t: TaskId) returns (longer: seq<Action>, s': Sys)
    requires EndsIn(plan, run, s) && s.machine.phase.Up? && s.control == Ran(t, true)
    ensures run <= longer && EndsIn(plan, longer, s') && RunsOn(s, s', Idle) && OnlyStatus(s, s', t, Committed)
  {
    hide OnlyStatus, EndsIn;
    var s1, s2;
    longer, s1 := MoveOn(plan, run, s, PostVerify, t, PostVerifying, Checked(t, true));
    longer, s2 := KeyWritten(plan, longer, s1, t);
    StatusSame(s, s1, s2, t, PostVerifying);
    longer, s' := MoveOn(plan, longer, s2, Commit, t, Committed, Idle);
    StatusTwice(s, s2, s', t, PostVerifying, Committed);
  }

  lemma KeyWritten(plan: Plan, run: seq<Action>, s: Sys, t: TaskId) returns (longer: seq<Action>, s': Sys)
    requires EndsIn(plan, run, s) && s.machine.phase.Up? && s.control == Checked(t, true)
    ensures run <= longer && EndsIn(plan, longer, s') && RunsOn(s, s', Recorded(t))
    ensures s'.machine.disk.history == s.machine.disk.history
  {
    Extend(plan, run, WriteKey);
    longer := run + [WriteKey];
    s' := End(plan, longer);
  }

  /** A READY task can be committed, and nothing else changes. */
  lemma Commits(plan: Plan, run: seq<Action>, s: Sys, t: TaskId) returns (longer: seq<Action>, s': Sys)
    requires Steady(plan, run, s) && StatusIn(s, t) == Ready
    ensures run <= longer && Steady(plan, longer, s') && s'.torn == s.torn && OnlyStatus(s, s', t, Committed)
  {
    var s1;
    longer, s1 := Attempt(plan, run, s, t, true);
    longer, s' := Concludes(plan, longer, s1, t);
    StatusTwice(s, s1, s', t, Executing, Committed);
  }

  // ---- Statuses other than PENDING ----

  /** After a crash at the end of `run`, `longer` executes `t` again, which was executed `n` times before. */
  ghost predicate ExecutesAgain(plan: Plan, run: seq<Action>, longer: seq<Action>, t: TaskId, n: nat) {
    Continues(plan, run + [Other(C.Crash)], longer) && ExecutionsOf(End(plan, longer).executions, t) > n
  }

  /** Some continuation after a crash at the end of `run` executes `t` again. */
  ghost predicate Resumes(plan: Plan, run: seq<Action>, t: TaskId, n: nat) {
    exists longer :: ExecutesAgain(plan, run, longer, t, n)
  }

  lemma Requeues(plan: Plan, run: seq<Action>, s: Sys, t: TaskId) returns (longer: seq<Action>, s': Sys)
    requires Steady(plan, run, s) && StatusIn(s, t) in {Ready, RetryWait}
    ensures run <= longer && Steady(plan, longer, s')
    ensures RunsOn(s, s', Idle) && OnlyStatus(s, s', t, Ready)
  {
    longer, s' := run, s;
    if StatusIn(s, t) == RetryWait {
      RowsAreCurrent(plan, run, s, t);
      longer, s' := MoveOn(plan, run, s, Requeue(t), t, Ready, Idle);
    }
  }

  /** A READY or RETRY_WAIT task can be executed once more. */
  lemma ExecutesOnce(plan: Plan, run: seq<Action>, s: Sys, t: TaskId) returns (longer: seq<Action>, s': Sys)
    requires Steady(plan, run, s) && StatusIn(s, t) in {Ready, RetryWait}
    ensures run <= longer && EndsIn(plan, longer, s') && s'.torn == s.torn
    ensures ExecutionsOf(s'.executions, t) == ExecutionsOf(s.executions, t) + 1
  {
    var s1;
    longer, s1 := Requeues(plan, run, s, t);
    longer, s' := Attempt(plan, longer, s1, t, true);
  }

  lemma ResumesReady(plan: Plan, run: seq<Action>, t: TaskId, n: nat) returns (longer: seq<Action>)
    requires ExecutedTimes(plan, run, t, n) && StatusIn(End(plan, run), t) in {Ready, RetryWait}
    ensures ExecutesAgain(plan, run, longer, t, n)
  {
    var restarted, s, s';
    restarted, s := Restart(plan, run);
    longer, s' := ExecutesOnce(plan, restarted, s, t);
    AgainAfter(plan, run, restarted, longer, s', t, n);
  }

  lemma AgainAfter(plan: Plan, run: seq<Action>, restarted: seq<Action>, longer: seq<Action>, s: Sys, t: TaskId, n: nat)
    requires run + [Other(C.Crash)] <= restarted <= longer && EndsIn(plan, longer, s)
    requires ExecutionsOf(s.executions, t) > n
    ensures ExecutesAgain(plan, run, longer, t, n)
  {
  }

  /** Which started tasks survive a crash, at any point of any run: a task that is not PENDING can
      be executed again exactly when the ledger has it READY or RETRY_WAIT. */
  lemma CrashSparesIff(plan: Plan, run: seq<Action>, t: TaskId, status: TaskStatus, n: nat)
    requires ExecutedTimes(plan, run, t, n) && StatusIn(End(plan, run), t) == status != Pending
    ensures Resumes(plan, run, t, n) <==> status in {Ready, RetryWait}
  {
    if status in {Ready, RetryWait} {
      var longer := ResumesReady(plan, run, t, n);
    } else {
      CrashPutsAside(plan, run, t, status, n);
      forall longer ensures !ExecutesAgain(plan, run, longer, t, n) {
        if ExecutesAgain(plan, run, longer, t, n) {
          NotExecutedAgain(plan, run + [Other(C.Crash)], longer, t, status, n);
        }
      }
    }
  }

  // ---- PENDING tasks ----

  /** The statuses from which a task can still become COMMITTED after a crash. */
  predicate Hopeful(s: TaskStatus) {
    s in {Pending, Ready, RetryWait, Committed}
  }

  /** `t` and everything it transitively depends on can still become COMMITTED. */
  ghost predicate AllHopeful(plan: Plan, s: Sys, t: TaskId) {
    forall u :: Reaches(DepMap(plan), t, u) ==> Hopeful(StatusIn(s, u))
  }

  /** From `s` to `s'` only the first `n` tasks of `order` have moved, and none has lost hope. */
  ghost predicate Kept(order: seq<TaskId>, n: nat, s: Sys, s': Sys)
    requires n <= |order|
  {
    && s'.torn == s.torn
    && forall u ::
      && (u !in order[..n] ==> StatusIn(s', u) == StatusIn(s, u))
      && (Hopeful(StatusIn(s, u)) ==> Hopeful(StatusIn(s', u)))
      && (StatusIn(s, u) == Committed ==> StatusIn(s', u) == Committed)
  }

  lemma KeptTwice(order: seq<TaskId>, m: nat, n: nat, s: Sys, s1: Sys, s2: Sys)
    requires m <= n <= |order| && Kept(order, n, s, s1) && Kept(order, m, s1, s2)
    ensures Kept(order, n, s, s2)
  {
    assert forall u :: u in order[..m] ==> u in order[..n];
  }

  lemma KeptMove(order: seq<TaskId>, p: nat, s: Sys, s': Sys, target: TaskStatus)
    requires p < |order| && OnlyStatus(s, s', order[p], target) && s'.torn == s.torn
    requires Hopeful(target) && (StatusIn(s, order[p]) == Committed ==> target == Committed)
    ensures Kept(order, p + 1, s, s')
  {
    assert order[p] in order[..p + 1];
  }

  lemma KeptHope(plan: Plan, order: seq<TaskId>, n: nat, s: Sys, s': Sys, t: TaskId, d: TaskId)
    requires n <= |order| && Kept(order, n, s, s') && AllHopeful(plan, s, t) && Edge(DepMap(plan), t, d)
    ensures AllHopeful(plan, s', d)
  {
    forall u | Reaches(DepMap(plan), d, u) ensures Hopeful(StatusIn(s', u)) {
      ReachesStep(DepMap(plan), t, d, u);
    }
  }

  /** A task without a row can be registered: the ledger has no event of it. */
  lemma HasRow(plan: Plan, run: seq<Action>, s: Sys, t: TaskId) returns (longer: seq<Action>, s': Sys)
    requires Steady(plan, run, s) && StatusIn(s, t) == Pending
    ensures run <= longer && Steady(plan, longer, s') && t in s'.machine.disk.tasks
    ensures s'.machine.disk.history == s.machine.disk.history && s'.torn == s.torn
  {
    longer, s' := run, s;
    if t !in s.machine.disk.tasks {
      EngineFacts(plan, run);
      PendingIsUnevented(s.machine.disk.history, t);
      Extend(plan, run, Other(C.Register(t)));
      longer := run + [Other(C.Register(t))];
      s' := End(plan, longer);
    }
  }

  lemma DependenciesSatisfied(plan: Plan, run: seq<Action>, s: Sys, task: Task)
    requires EndsIn(plan, run, s) && s.machine.phase.Up?
    requires forall d :: d in task.dependencies ==> StatusIn(s, d) == Committed
    ensures Satisfied(task, s.machine.disk.tasks)
  {
    forall d | d in task.dependencies
      ensures d in s.machine.disk.tasks && s.machine.disk.tasks[d] == Committed
    {
      RowsAreCurrent(plan, run, s, d);
    }
  }

  /** A PENDING task whose dependencies are COMMITTED can be promoted. */
  lemma Promotes(plan: Plan, run: seq<Action>, s: Sys, task: Task) returns (longer: seq<Action>, s': Sys)
    requires Steady(plan, run, s) && task in plan && StatusIn(s, task.id) == Pending
    requires forall d :: d in task.dependencies ==> StatusIn(s, d) == Committed
    ensures run <= longer && Steady(plan, longer, s') && s'.torn == s.torn && OnlyStatus(s, s', task.id, Ready)
  {
    var s1;
    longer, s1 := HasRow(plan, run, s, task.id);
    assert forall u :: StatusIn(s1, u) == StatusIn(s, u);
    RowsAreCurrent(plan, longer, s1, task.id);
    DependenciesSatisfied(plan, longer, s1, task);
    longer, s' := MoveOn(plan, longer, s1, Promote(task), task.id, Ready, Idle);
  }

  /** A dependency of the task at `p` comes earlier in the order. */
  lemma DependencyAt(plan: Plan, order: seq<TaskId>, p: nat, i: nat, d: TaskId) returns (q: nat)
    requires Ordered(plan, order) && p < |order| && i < |plan| && plan[i].id == order[p] && d in plan[i].dependencies
    ensures q < p && order[q] == d && Edge(DepMap(plan), order[p], d)
  {
    DepMapIsRelation(plan, i, d);
    assert d in order[..p];
    q :| 0 <= q < p && order[q] == d;
  }

  lemma {:induction false} CommitsDependencies(plan: Plan, order: seq<TaskId>, run: seq<Action>, s: Sys,
                                               p: nat, i: nat, k: nat)
    returns (longer: seq<Action>, s': Sys)
    requires Ordered(plan, order) && Steady(plan, run, s) && p < |order| && AllHopeful(plan, s, order[p])
    requires i < |plan| && plan[i].id == order[p] && k <= |plan[i].dependencies|
    ensures run <= longer && Steady(plan, longer, s') && Kept(order, p, s, s')
    ensures forall d :: d in plan[i].dependencies[..k] ==> StatusIn(s', d) == Committed
    decreases p, 0, k
  {
    hide Ordered, Steady, AllHopeful;
    longer, s' := run, s;
    if k > 0 {
      var d := plan[i].dependencies[k - 1];
      var s1;
      longer, s1 := CommitsDependencies(plan, order, run, s, p, i, k - 1);
      var q := DependencyAt(plan, order, p, i, d);
      KeptHope(plan, order, p, s, s1, order[p], d);
      longer, s' := CommitsTask(plan, order, longer, s1, q);
      KeptTwice(order, q + 1, p, s, s1, s');
      assert plan[i].dependencies[..k] == plan[i].dependencies[..k - 1] + [d];
    }
  }

  /** A task that is hopeful, with everything it depends on, can be made READY ... */
  lemma {:induction false} MakesReady(plan: Plan, order: seq<TaskId>, run: seq<Action>, s: Sys, p: nat)
    returns (longer: seq<Action>, s': Sys)
    requires Ordered(plan, order) && Steady(plan, run, s) && p < |order| && AllHopeful(plan, s, order[p])
    requires StatusIn(s, order[p]) != Committed
    ensures run <= longer && Steady(plan, longer, s') && Kept(order, p + 1, s, s') && StatusIn(s', order[p]) == Ready
    decreases p, 1, 0
  {
    var t := order[p];
    ReachesSelf(DepMap(plan), t);
    if StatusIn(s, t) == Pending {
      DepMapIsInternal(plan);
      assert t in DepMap(plan);
      var i := IndexOfTask(plan, t);
      var n := |plan[i].dependencies|;
      var s1;
      longer, s1 := CommitsDependencies(plan, order, run, s, p, i, n);
      assert plan[i].dependencies[..n] == plan[i].dependencies;
      assert t !in order[..p];
      longer, s' := Promotes(plan, longer, s1, plan[i]);
      KeptPromoted(order, p, s, s1, s');
    } else {
      longer, s' := Requeues(plan, run, s, t);
      KeptMove(order, p, s, s', Ready);
    }
  }

  lemma KeptPromoted(order: seq<TaskId>, p: nat, s: Sys, s1: Sys, s2: Sys)
    requires p < |order| && Kept(order, p, s, s1) && StatusIn(s1, order[p]) == Pending
    requires OnlyStatus(s1, s2, order[p], Ready) && s2.torn == s1.torn
    ensures Kept(order, p + 1, s, s2)
  {
    assert forall u :: u in order[..p] ==> u in order[..p + 1];
    KeptMove(order, p, s1, s2, Ready);
    KeptTwice(order, p + 1, p + 1, s, s1, s2);
  }

  /** ... and COMMITTED. */
  lemma {:induction false} CommitsTask(plan: Plan, order: seq<TaskId>, run: seq<Action>, s: Sys, p: nat)
    returns (longer: seq<Action>, s': Sys)
    requires Ordered(plan, order) && Steady(plan, run, s) && p < |order| && AllHopeful(plan, s, order[p])
    ensures run <= longer && Steady(plan, longer, s') && Kept(order, p + 1, s, s') && StatusIn(s', order[p]) == Committed
    decreases p, 2, 0
  {
    longer, s' := run, s;
    if StatusIn(s, order[p]) != Committed {
      var s1;
      longer, s1 := MakesReady(plan, order, run, s, p);
      longer, s' := Commits(plan, longer, s1, order[p]);
      KeptMove(order, p, s1, s', Committed);
      KeptTwice(order, p + 1, p + 1, s, s1, s');
    }
  }

  lemma {:induction false} ExecutionsGrow(plan: Plan, run: seq<Action>, longer: seq<Action>, t: TaskId)
    requires Executable(plan, run) && Executable(plan, longer) && run <= longer
    ensures ExecutionsOf(End(plan, run).executions, t) <= ExecutionsOf(End(plan, longer).executions, t)
    decreases |longer|
  {
    if run != longer {
      var n := |longer| - 1;
      ExecutionsGrow(plan, run, longer[..n], t);
      var xs, ys := End(plan, longer[..n]).executions, End(plan, longer).executions;
      assert ys == xs || ys[..|ys| - 1] == xs;
    }
  }

  // ---- The exact condition ----

  /** `longer` executes `t` again after a crash at the end of `run`, and nothing is torn on the way. */
  ghost predicate ExecutesUntorn(plan: Plan, run: seq<Action>, longer: seq<Action>, t: TaskId, n: nat) {
    ExecutesAgain(plan, run, longer, t, n) && !End(plan, longer).torn
  }

  /** What the ledger has to say at the crash for `t` to be executed again. */
  ghost predicate Resumable(plan: Plan, s: Sys, t: TaskId) {
    StatusIn(s, t) in {Ready, RetryWait} || (StatusIn(s, t) == Pending && AllHopeful(plan, s, t))
  }

  lemma ResumesIfHopeful(plan: Plan, order: seq<TaskId>, run: seq<Action>, t: TaskId, n: nat)
    returns (longer: seq<Action>)
    requires Ordered(plan, order) && t in Ids(plan) && ExecutedTimes(plan, run, t, n)
    requires !End(plan, run).torn && !End(plan, run).control.Blocking? && Resumable(plan, End(plan, run), t)
    ensures ExecutesUntorn(plan, run, longer, t, n)
  {
    var restarted, s0, ready, s1, s2;
    restarted, s0 := Restart(plan, run);
    ready, s1 := restarted, s0;
    if StatusIn(s0, t) == Pending {
      DepMapIsInternal(plan);
      assert t in DepMap(plan);
      var p :| 0 <= p < |order| && order[p] == t;
      HopeSurvives(plan, End(plan, run), s0, t);
      ready, s1 := MakesReady(plan, order, restarted, s0, p);
      ExecutionsGrow(plan, restarted, ready, t);
    }
    longer, s2 := ExecutesOnce(plan, ready, s1, t);
    AgainAfter(plan, run, restarted, longer, s2, t, n);
  }

  lemma HopeSurvives(plan: Plan, s: Sys, s': Sys, t: TaskId)
    requires AllHopeful(plan, s, t) && s'.machine.disk.history == s.machine.disk.history
    ensures AllHopeful(plan, s', t)
  {
  }

  /** A task that has been executed is neither PENDING nor BLOCKED, nor on the way there. */
  ghost predicate StartedIfExecuted(s: Sys, t: TaskId) {
    ExecutionsOf(s.executions, t) > 0 ==> StatusIn(s, t) !in {Pending, Blocked} && s.control != Blocking(t)
  }

  lemma StartedMove(plan: Plan, s: Sys, a: Action, t: TaskId)
    requires Safe(s) && C.RowsOk(s.machine) && IsMoveAction(a) && Enabled(plan, s, a) && StartedIfExecuted(s, t)
    ensures StartedIfExecuted(After(plan, s, a), t)
  {
    MoveAfter(plan, s, a);
    AskedMoveIsValid(plan, s, a);
    var m, d := MoveOf(s.control, a).value, s.machine.disk;
    FoldAppend(d.history, TaskRecord(m.taskId, TaskStatusOf(d, m.taskId), m.target), t);
    StartsOnlyFromPending(s.control, a, m);
  }

  lemma StartsOnlyFromPending(c: Control, a: Action, m: Move)
    requires MoveOf(c, a) == Some(m)
    ensures m.target != Pending && (m.target == Blocked ==> c == Blocking(m.taskId))
    ensures m.next.Blocking? ==> m.next.t == m.taskId && m.source == Pending
  {
  }

  lemma StartedOther(plan: Plan, s: Sys, a: Action, t: TaskId)
    requires Safe(s) && !IsMoveAction(a) && Enabled(plan, s, a) && StartedIfExecuted(s, t)
    ensures StartedIfExecuted(After(plan, s, a), t)
  {
    var e := OtherHistory(plan, s, a);
    FoldAppend(s.machine.disk.history, e, t);
    var xs, ys := s.executions, After(plan, s, a).executions;
    assert ys == xs || ys[..|ys| - 1] == xs;
  }

  lemma {:induction false} StartedAlways(plan: Plan, run: seq<Action>, t: TaskId)
    requires Executable(plan, run)
    ensures StartedIfExecuted(End(plan, run), t)
  {
    if run != [] {
      var n := |run| - 1;
      StartedAlways(plan, run[..n], t);
      SafeAlways(plan, run[..n]);
      EngineFacts(plan, run[..n]);
      if IsMoveAction(run[n]) {
        StartedMove(plan, End(plan, run[..n]), run[n], t);
      } else {
        StartedOther(plan, End(plan, run[..n]), run[n], t);
      }
    }
  }

  /** In an untorn state, the dependencies of a started task are COMMITTED ... */
  lemma CommittedNext(plan: Plan, s: Sys, t: TaskId, d: TaskId)
    requires DistinctIds(plan) && InOrder(plan, s) && Edge(DepMap(plan), t, d)
    requires StatusIn(s, t) !in {Pending, Blocked} && s.control != Blocking(t)
    ensures StatusIn(s, d) == Committed
  {
    DepMapIsInternal(plan);
    var i := IndexOfTask(plan, t);
    DepMapIsRelation(plan, i, d);
    assert StartedOk(plan[i], s.machine.disk.history, s.control);
  }

  /** ... and everything below a COMMITTED one. */
  lemma {:induction false} CommittedBelow(plan: Plan, s: Sys, w: seq<TaskId>)
    requires DistinctIds(plan) && Safe(s) && InOrder(plan, s)
    requires w != [] && Walk(DepMap(plan), w) && StatusIn(s, w[0]) == Committed
    ensures StatusIn(s, w[|w| - 1]) == Committed
  {
    if |w| > 1 {
      assert Edge(DepMap(plan), w[0], w[1]);
      CommittedNext(plan, s, w[0], w[1]);
      CommittedBelow(plan, s, w[1..]);
    }
  }

  lemma BelowExecuted(plan: Plan, s: Sys, t: TaskId, u: TaskId)
    requires DistinctIds(plan) && Safe(s) && InOrder(plan, s) && StartedIfExecuted(s, t)
    requires ExecutionsOf(s.executions, t) > 0 && Reaches(DepMap(plan), t, u) && u != t
    ensures StatusIn(s, u) == Committed
  {
    var w :| WalkBetween(DepMap(plan), w, t, u);
    assert Edge(DepMap(plan), w[0], w[1]);
    CommittedNext(plan, s, t, w[1]);
    CommittedBelow(plan, s, w[1..]);
  }

  lemma HopefulIfResumes(plan: Plan, run: seq<Action>, longer: seq<Action>, t: TaskId, n: nat, u: TaskId)
    requires DistinctIds(plan) && ExecutedTimes(plan, run, t, n) && ExecutesUntorn(plan, run, longer, t, n)
    requires Reaches(DepMap(plan), t, u) && u != t
    ensures Hopeful(StatusIn(End(plan, run), u))
  {
    var status := StatusIn(End(plan, run), u);
    if !Hopeful(status) {
      var s := End(plan, longer);
      CrashPutsAside(plan, run, u, status, ExecutionsOf(End(plan, run).executions, u));
      LeftAside(plan, run + [Other(C.Crash)], longer, u, status);
      SafeAlways(plan, longer);
      OrderAlways(plan, longer);
      StartedAlways(plan, longer, t);
      BelowExecuted(plan, s, t, u);
    }
  }

  /** The exact condition. On a sound plan, after a crash at which no promotion was torn, task `t`
      can be executed once more without tearing one exactly when the ledger has it READY or
      RETRY_WAIT, or has it PENDING and everything it transitively depends on PENDING, READY,
      RETRY_WAIT or COMMITTED. */
  lemma ExecutableAgainIff(plan: Plan, order: seq<TaskId>, run: seq<Action>, t: TaskId, n: nat)
    requires Ordered(plan, order) && t in Ids(plan) && ExecutedTimes(plan, run, t, n)
    requires !End(plan, run).torn && !End(plan, run).control.Blocking?
    ensures (exists longer :: ExecutesUntorn(plan, run, longer, t, n)) <==> Resumable(plan, End(plan, run), t)
  {
    var s := End(plan, run);
    if Resumable(plan, s, t) {
      var longer := ResumesIfHopeful(plan, order, run, t, n);
    } else {
      forall longer ensures !ExecutesUntorn(plan, run, longer, t, n) {
        if ExecutesUntorn(plan, run, longer, t, n) {
          ResumableIfResumes(plan, run, longer, t, n);
        }
      }
    }
  }

  lemma ResumableIfResumes(plan: Plan, run: seq<Action>, longer: seq<Action>, t: TaskId, n: nat)
    requires DistinctIds(plan) && ExecutedTimes(plan, run, t, n) && ExecutesUntorn(plan, run, longer, t, n)
    ensures Resumable(plan, End(plan, run), t)
  {
    var s := End(plan, run);
    if StatusIn(s, t) == Pending {
      forall u | Reaches(DepMap(plan), t, u) ensures Hopeful(StatusIn(s, u)) {
        if u != t {
          HopefulIfResumes(plan, run, longer, t, n, u);
        }
      }
    } else {
      CrashSparesIff(plan, run, t, StatusIn(s, t), n);
    }
  }
}
