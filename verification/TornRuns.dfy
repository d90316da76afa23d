/** What can be executed after a crash if later crashes may tear promotions apart: the exact
    condition without any restriction on the run or on what follows it
    (orchestration/scheduler.py, experiments/durable.py). */
module TornRuns {
  import opened StateMachine
  import opened Events
  import opened Histories
  import opened Disks
  import opened Plans
  import opened Boards
  import opened RuntimeRuns
  import opened RuntimeSafety
  import opened Tracking
  import opened Stranding
  import opened Resuming
  import C = CrashRuns

  /** Whether the task at position `p` of the order can get to READY. A PENDING one can if all its
      dependencies are COMMITTED; but also if one is FAILED, or can get to READY and then fail,
      since a crash can then tear the blocking of the task apart. */
  ghost predicate CanStart(plan: Plan, order: seq<TaskId>, s: Sys, p: nat)
    requires p < |order|
    decreases p
  {
    || StatusIn(s, order[p]) in {Ready, RetryWait}
    || (StatusIn(s, order[p]) == Pending && (
        || (forall d :: Edge(DepMap(plan), order[p], d) ==> StatusIn(s, d) == Committed)
        || (exists d :: Edge(DepMap(plan), order[p], d) && StatusIn(s, d) == TaskStatus.Failed)
        || (exists q :: 0 <= q < p && Edge(DepMap(plan), order[p], order[q]) && CanStart(plan, order, s, q))))
  }

  /** From `s` to `s'` only the first `n` tasks of the order have moved. */
  ghost predicate OthersStay(order: seq<TaskId>, n: nat, s: Sys, s': Sys)
    requires n <= |order|
  {
    forall u :: u !in order[..n] ==> StatusIn(s', u) == StatusIn(s, u)
  }

  // ---- Whatever can start does so in some continuation ----

  /** A PENDING task with a FAILED dependency becomes READY if a crash tears its blocking apart. */
  lemma TearsLoose(plan: Plan, run: seq<Action>, s: Sys, task: Task, d: TaskId) returns (longer: seq<Action>, s': Sys)
    requires Steady(plan, run, s) && task in plan && StatusIn(s, task.id) == Pending
    requires d in task.dependencies && StatusIn(s, d) == TaskStatus.Failed
    ensures run <= longer && Steady(plan, longer, s') && OnlyStatus(s, s', task.id, Ready)
  {
    var s1, s2;
    longer, s1 := HasRow(plan, run, s, task.id);
    RowsAreCurrent(plan, longer, s1, task.id);
    RowsAreCurrent(plan, longer, s1, d);
    longer, s2 := MoveOn(plan, longer, s1, StartBlocking(task), task.id, Ready, Blocking(task.id));
    StatusFrom(s, s1, s2, task.id, Ready);
    longer, s' := RestartFrom(plan, longer, s2);
    StatusSame(s, s2, s', task.id, Ready);
  }

  lemma StatusFrom(s: Sys, s1: Sys, s2: Sys, t: TaskId, target: TaskStatus)
    requires s1.machine.disk.history == s.machine.disk.history && OnlyStatus(s1, s2, t, target)
    ensures OnlyStatus(s, s2, t, target)
  {
  }

  lemma RestartFrom(plan: Plan, run: seq<Action>, s: Sys) returns (longer: seq<Action>, s': Sys)
    requires EndsIn(plan, run, s)
    ensures run <= longer && Steady(plan, longer, s') && s'.machine.disk.history == s.machine.disk.history
  {
    longer, s' := Restart(plan, run);
  }

  /** A READY task can fail: the model makes no proposal. */
  lemma Fails(plan: Plan, run: seq<Action>, s: Sys, t: TaskId) returns (longer: seq<Action>, s': Sys)
    requires Steady(plan, run, s) && StatusIn(s, t) == Ready
    ensures run <= longer && Steady(plan, longer, s') && OnlyStatus(s, s', t, TaskStatus.Failed)
  {
    hide OnlyStatus, EndsIn;
    var s1, s2;
    longer, s1 := ClaimsAgain(plan, run, s, t);
    longer, s2 := MoveOn(plan, longer, s1, Propose, t, Proposing, Working(t, Proposing));
    StatusTwice(s, s1, s2, t, Claimed, Proposing);
    longer, s' := MoveOn(plan, longer, s2, ProposalFails, t, TaskStatus.Failed, Idle);
    StatusTwice(s, s2, s', t, Proposing, TaskStatus.Failed);
  }

  lemma StartStays(order: seq<TaskId>, p: nat, s: Sys, s': Sys, target: TaskStatus)
    requires p < |order| && OnlyStatus(s, s', order[p], target)
    ensures OthersStay(order, p + 1, s, s')
  {
    assert order[p] in order[..p + 1];
  }

  lemma StayTwice(order: seq<TaskId>, m: nat, n: nat, s: Sys, s1: Sys, s2: Sys)
    requires m <= n <= |order| && OthersStay(order, m, s, s1) && OthersStay(order, n, s1, s2)
    ensures OthersStay(order, n, s, s2)
  {
    assert forall u :: u in order[..m] ==> u in order[..n];
  }

  lemma {:induction false} StartsTask(plan: Plan, order: seq<TaskId>, run: seq<Action>, s: Sys, p: nat)
    returns (longer: seq<Action>, s': Sys)
    requires Ordered(plan, order) && Steady(plan, run, s) && p < |order| && CanStart(plan, order, s, p)
    ensures run <= longer && Steady(plan, longer, s')
    ensures StatusIn(s', order[p]) == Ready && OthersStay(order, p + 1, s, s')
    decreases p
  {
    var t := order[p];
    if StatusIn(s, t) != Pending {
      longer, s' := Requeues(plan, run, s, t);
      StartStays(order, p, s, s', Ready);
    } else {
      DepMapIsInternal(plan);
      assert t in DepMap(plan);
      var i := IndexOfTask(plan, t);
      longer, s' := StartsPending(plan, order, run, s, p, i);
    }
  }

  lemma {:induction false} StartsPending(plan: Plan, order: seq<TaskId>, run: seq<Action>, s: Sys, p: nat, i: nat)
    returns (longer: seq<Action>, s': Sys)
    requires Ordered(plan, order) && Steady(plan, run, s) && p < |order| && CanStart(plan, order, s, p)
    requires i < |plan| && plan[i].id == order[p] && StatusIn(s, order[p]) == Pending
    ensures run <= longer && Steady(plan, longer, s')
    ensures StatusIn(s', order[p]) == Ready && OthersStay(order, p + 1, s, s')
    decreases p, 0
  {
    var g, t := DepMap(plan), order[p];
    EdgesAreDependencies(plan, i);
    if forall d :: Edge(g, t, d) ==> StatusIn(s, d) == Committed {
      longer, s' := Promotes(plan, run, s, plan[i]);
      StartStays(order, p, s, s', Ready);
    } else if d :| Edge(g, t, d) && StatusIn(s, d) == TaskStatus.Failed {
      longer, s' := TearsLoose(plan, run, s, plan[i], d);
      StartStays(order, p, s, s', Ready);
    } else {
      var q :| 0 <= q < p && Edge(g, t, order[q]) && CanStart(plan, order, s, q);
      var s1, s2;
      longer, s1 := StartsTask(plan, order, run, s, q);
      longer, s2 := Fails(plan, longer, s1, order[q]);
      StartStays(order, q, s1, s2, TaskStatus.Failed);
      StayTwice(order, q + 1, q + 1, s, s1, s2);
      StillPending(order, p, q, s, s2);
      longer, s' := TearsLoose(plan, longer, s2, plan[i], order[q]);
      StartStays(order, p, s2, s', Ready);
      StayTwice(order, q + 1, p + 1, s, s2, s');
    }
  }

  lemma StillPending(order: seq<TaskId>, p: nat, q: nat, s: Sys, s': Sys)
    requires NoDuplicates(order) && q < p < |order| && OthersStay(order, q + 1, s, s')
    ensures StatusIn(s', order[p]) == StatusIn(s, order[p])
  {
    assert order[p] !in order[..q + 1];
  }

  /** On a sound plan the dependencies of a task are the edges out of it. */
  lemma EdgesAreDependencies(plan: Plan, i: nat)
    requires DistinctIds(plan) && Closed(plan) && i < |plan|
    ensures forall d :: Edge(DepMap(plan), plan[i].id, d) <==> d in plan[i].dependencies
  {
    forall d: TaskId ensures Edge(DepMap(plan), plan[i].id, d) <==> d in plan[i].dependencies {
      DepMapIsRelation(plan, i, d);
    }
  }

  // ---- Whatever cannot start never moves ----

  /** The tasks that cannot start in `s` have in `s'` the status they have in `s`, and the process
      is not working on them. */
  ghost predicate StuckStay(plan: Plan, order: seq<TaskId>, s: Sys, s': Sys) {
    forall p :: 0 <= p < |order| && !CanStart(plan, order, s, p) ==> Aside(s', order[p], StatusIn(s, order[p]))
  }

  lemma StuckMove(plan: Plan, order: seq<TaskId>, s: Sys, s': Sys, a: Action, p: nat)
    requires Ordered(plan, order) && StuckStay(plan, order, s, s') && p < |order| && !CanStart(plan, order, s, p)
    requires Safe(s') && C.RowsOk(s'.machine) && IsMoveAction(a) && Enabled(plan, s', a)
    ensures Aside(After(plan, s', a), order[p], StatusIn(s, order[p]))
  {
    var t, status := order[p], StatusIn(s, order[p]);
    assert Aside(s', t, status);
    if !TakenUp(status) {
      AsideMove(plan, s', a, t, status);
    } else {
      MoveAfter(plan, s', a);
      AskedMoveIsValid(plan, s', a);
      var m, d := MoveOf(s'.control, a).value, s'.machine.disk;
      MovesHaveShape(s'.control, a, m);
      if m.taskId == t {
        NeverPromoted(plan, order, s, s', a, p);
      }
      FoldAppend(d.history, TaskRecord(m.taskId, TaskStatusOf(d, m.taskId), m.target), t);
    }
  }

  /** No promotion rule applies to a PENDING task that cannot start. */
  lemma NeverPromoted(plan: Plan, order: seq<TaskId>, s: Sys, s': Sys, a: Action, p: nat)
    requires Ordered(plan, order) && StuckStay(plan, order, s, s') && p < |order| && !CanStart(plan, order, s, p)
    requires C.RowsOk(s'.machine) && Asks(plan, s', a) && StatusIn(s, order[p]) == Pending
    ensures MoveOf(s'.control, a).value.source == Pending ==> MoveOf(s'.control, a).value.taskId != order[p]
  {
    var m := MoveOf(s'.control, a).value;
    if m.source == Pending && m.taskId == order[p] {
      assert a.Promote? || a.StartBlocking?;
      var i :| 0 <= i < |plan| && plan[i] == a.task;
      EdgesAreDependencies(plan, i);
      NotBothWays(plan, order, s, s', p, i);
    }
  }

  lemma NotBothWays(plan: Plan, order: seq<TaskId>, s: Sys, s': Sys, p: nat, i: nat)
    requires Ordered(plan, order) && StuckStay(plan, order, s, s') && p < |order| && !CanStart(plan, order, s, p)
    requires C.RowsOk(s'.machine) && s'.machine.phase.Up? && StatusIn(s, order[p]) == Pending
    requires i < |plan| && plan[i].id == order[p]
    ensures !Satisfied(plan[i], s'.machine.disk.tasks) && !HasFailedDep(plan[i], s'.machine.disk.tasks)
  {
    var g, t := DepMap(plan), order[p];
    EdgesAreDependencies(plan, i);
    forall d | Edge(g, t, d)
      ensures StatusIn(s', d) == StatusIn(s, d) && TaskStatusOf(s'.machine.disk, d) == StatusIn(s', d)
    {
      var q := DependencyAt(plan, order, p, i, d);
      assert Aside(s', order[q], StatusIn(s, order[q]));
    }
    assert exists d :: Edge(g, t, d) && StatusIn(s, d) != Committed;
  }

  lemma {:induction false} StuckForGood(plan: Plan, order: seq<TaskId>, s: Sys, run: seq<Action>, longer: seq<Action>)
    requires Ordered(plan, order) && Continues(plan, run, longer) && Executable(plan, run)
    requires StuckStay(plan, order, s, End(plan, run))
    ensures StuckStay(plan, order, s, End(plan, longer))
    decreases |longer|
  {
    if run != longer {
      var earlier, a := longer[..|longer| - 1], longer[|longer| - 1];
      StuckForGood(plan, order, s, run, earlier);
      SafeAlways(plan, earlier);
      EngineFacts(plan, earlier);
      StuckStep(plan, order, s, End(plan, earlier), a);
    }
  }

  lemma StuckStep(plan: Plan, order: seq<TaskId>, s: Sys, s': Sys, a: Action)
    requires Ordered(plan, order) && StuckStay(plan, order, s, s')
    requires Safe(s') && C.RowsOk(s'.machine) && Enabled(plan, s', a)
    ensures StuckStay(plan, order, s, After(plan, s', a))
  {
    forall p | 0 <= p < |order| && !CanStart(plan, order, s, p)
      ensures Aside(After(plan, s', a), order[p], StatusIn(s, order[p]))
    {
      if IsMoveAction(a) {
        StuckMove(plan, order, s, s', a, p);
      } else {
        AsideOther(plan, s', a, order[p], StatusIn(s, order[p]));
      }
    }
  }

  // ---- The exact condition ----

  lemma ResumesIfCanStart(plan: Plan, order: seq<TaskId>, run: seq<Action>, p: nat, n: nat) returns (longer: seq<Action>)
    requires Ordered(plan, order) && p < |order| && ExecutedTimes(plan, run, order[p], n)
    requires CanStart(plan, order, End(plan, run), p)
    ensures ExecutesAgain(plan, run, longer, order[p], n)
  {
    var restarted, ready, s0, s1, s2;
    restarted, s0 := Restart(plan, run);
    SameStart(plan, order, End(plan, run), s0, p);
    ready, s1 := StartsTask(plan, order, restarted, s0, p);
    ExecutionsGrow(plan, restarted, ready, order[p]);
    longer, s2 := ExecutesOnce(plan, ready, s1, order[p]);
    AgainAfter(plan, run, restarted, longer, s2, order[p], n);
  }

  lemma {:induction false} SameStart(plan: Plan, order: seq<TaskId>, s: Sys, s': Sys, p: nat)
    requires p < |order| && s'.machine.disk.history == s.machine.disk.history
    ensures CanStart(plan, order, s, p) <==> CanStart(plan, order, s', p)
    decreases p
  {
    forall q | 0 <= q < p ensures CanStart(plan, order, s, q) <==> CanStart(plan, order, s', q) {
      SameStart(plan, order, s, s', q);
    }
  }

  /** The exact condition with no restriction at all: on a sound plan, after a crash at any point of
      any run, a task can be executed again in some continuation exactly when it can start. */
  lemma ExecutableAgainAnyhowIff(plan: Plan, order: seq<TaskId>, run: seq<Action>, s: Sys, p: nat, n: nat)
    requires Ordered(plan, order) && p < |order| && EndsIn(plan, run, s)
    requires n == ExecutionsOf(s.executions, order[p])
    ensures Resumes(plan, run, order[p], n) <==> CanStart(plan, order, s, p)
  {
    if CanStart(plan, order, s, p) {
      var longer := ResumesIfCanStart(plan, order, run, p, n);
    } else {
      forall longer ensures !ExecutesAgain(plan, run, longer, order[p], n) {
        if ExecutesAgain(plan, run, longer, order[p], n) {
          NotExecutedIfStuck(plan, order, run, longer, p, n);
        }
      }
    }
  }

  lemma NotExecutedIfStuck(plan: Plan, order: seq<TaskId>, run: seq<Action>, longer: seq<Action>, p: nat, n: nat)
    requires Ordered(plan, order) && p < |order| && ExecutedTimes(plan, run, order[p], n)
    requires Continues(plan, run + [Other(C.Crash)], longer) && !CanStart(plan, order, End(plan, run), p)
    ensures ExecutionsOf(End(plan, longer).executions, order[p]) <= n
  {
    var s, t := End(plan, run), order[p];
    var status := StatusIn(s, t);
    CrashPutsAside(plan, run, t, status, n);
    if status == Pending {
      CrashSticks(plan, order, run);
      StuckForGood(plan, order, s, run + [Other(C.Crash)], longer);
      assert Aside(End(plan, longer), t, Pending);
      StartedAlways(plan, longer, t);
    } else {
      NotExecutedAgain(plan, run + [Other(C.Crash)], longer, t, status, n);
    }
  }

  lemma CrashSticks(plan: Plan, order: seq<TaskId>, run: seq<Action>)
    requires Executable(plan, run)
    ensures Executable(plan, run + [Other(C.Crash)])
    ensures StuckStay(plan, order, End(plan, run), End(plan, run + [Other(C.Crash)]))
  {
    Extend(plan, run, Other(C.Crash));
  }
}
