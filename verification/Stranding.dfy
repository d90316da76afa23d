/** What a crash in the middle of an attempt costs: recovery lists the task as incomplete, but
    nothing in the runtime takes it up again (experiments/durable.py, orchestration/scheduler.py,
    recovery/replay.py). */
module Stranding {
  import opened Wrappers
  import opened StateMachine
  import opened Events
  import opened Histories
  import opened Disks
  import opened Plans
  import opened RuntimeRuns
  import opened RuntimeSafety
  import opened Tracking
  import opened DependencyOrder
  import C = CrashRuns

  /** The statuses from which the scheduler or a claim takes a task on. */
  predicate TakenUp(s: TaskStatus) {
    s in {Pending, Ready, RetryWait}
  }

  /** `t` has status `status` in the ledger, and the process is not working on it. */
  ghost predicate Aside(s: Sys, t: TaskId, status: TaskStatus) {
    Fold(s.machine.disk.history, t) == status && ControlTask(s.control) != Some(t)
  }

  /** How many of the executions are executions of `t`. */
  function ExecutionsOf(xs: seq<Execution>, t: TaskId): nat {
    if xs == [] then 0
    else ExecutionsOf(xs[..|xs| - 1], t) + if xs[|xs| - 1].taskId == t then 1 else 0
  }

  /** After `run` the task has status `status` and stands aside. */
  ghost predicate StandsAside(plan: Plan, run: seq<Action>, t: TaskId, status: TaskStatus) {
    Executable(plan, run) && Aside(End(plan, run), t, status)
  }

  /** In the course of `run` the task was executed `n` times. */
  ghost predicate ExecutedTimes(plan: Plan, run: seq<Action>, t: TaskId, n: nat) {
    Executable(plan, run) && ExecutionsOf(End(plan, run).executions, t) == n
  }

  /** `longer` goes on from where `run` ends. */
  ghost predicate Continues(plan: Plan, run: seq<Action>, longer: seq<Action>) {
    run <= longer && Executable(plan, longer)
  }

  /** After `run` the process is in the middle of an attempt at `t`. */
  ghost predicate InAttempt(plan: Plan, run: seq<Action>, t: TaskId, status: TaskStatus) {
    && Executable(plan, run)
    && ControlTask(End(plan, run).control) == Some(t) && !End(plan, run).control.Blocking?
    && Fold(End(plan, run).machine.disk.history, t) == status
  }

  lemma MovesElsewhere(c: Control, a: Action, m: Move, t: TaskId)
    requires MoveOf(c, a) == Some(m) && ControlTask(c) != Some(t) && !TakenUp(m.source)
    ensures m.taskId != t && ControlTask(m.next) != Some(t)
  {
  }

  lemma AsideMove(plan: Plan, s: Sys, a: Action, t: TaskId, status: TaskStatus)
    requires Safe(s) && C.RowsOk(s.machine) && IsMoveAction(a) && Enabled(plan, s, a)
    requires Aside(s, t, status) && !TakenUp(status)
    ensures Aside(After(plan, s, a), t, status) && After(plan, s, a).executions == s.executions
  {
    MoveAfter(plan, s, a);
    AskedMoveIsValid(plan, s, a);
    var m, d := MoveOf(s.control, a).value, s.machine.disk;
    if !TakenUp(m.source) {
      MovesElsewhere(s.control, a, m, t);
    } else {
      assert m.taskId != t;
      MovesHaveShape(s.control, a, m);
    }
    FoldAppend(d.history, TaskRecord(m.taskId, TaskStatusOf(d, m.taskId), m.target), t);
  }

  lemma AsideOther(plan: Plan, s: Sys, a: Action, t: TaskId, status: TaskStatus)
    requires !IsMoveAction(a) && Enabled(plan, s, a) && Aside(s, t, status)
    ensures Aside(After(plan, s, a), t, status) && ExecutionsOf(After(plan, s, a).executions, t) == ExecutionsOf(s.executions, t)
  {
    var e := OtherHistory(plan, s, a);
    FoldAppend(s.machine.disk.history, e, t);
    var xs := After(plan, s, a).executions;
    assert xs == s.executions || xs[..|xs| - 1] == s.executions;
  }

  /** A task that is neither PENDING, READY nor RETRY_WAIT, and that the process is not working on,
      keeps its status however the run goes on. */
  lemma {:induction false} LeftAside(plan: Plan, run: seq<Action>, longer: seq<Action>, t: TaskId, status: TaskStatus)
    requires StandsAside(plan, run, t, status) && !TakenUp(status)
    requires Continues(plan, run, longer)
    ensures StandsAside(plan, longer, t, status)
    decreases |longer|
  {
    if run != longer {
      LeftAside(plan, run, longer[..|longer| - 1], t, status);
      AsideStep(plan, longer, t, status);
    }
  }

  lemma AsideStep(plan: Plan, longer: seq<Action>, t: TaskId, status: TaskStatus)
    requires longer != [] && Executable(plan, longer)
    requires StandsAside(plan, longer[..|longer| - 1], t, status) && !TakenUp(status)
    ensures StandsAside(plan, longer, t, status)
    ensures ExecutionsOf(End(plan, longer).executions, t) == ExecutionsOf(End(plan, longer[..|longer| - 1]).executions, t)
  {
    var earlier, a := longer[..|longer| - 1], longer[|longer| - 1];
    SafeAlways(plan, earlier);
    EngineFacts(plan, earlier);
    if IsMoveAction(a) {
      AsideMove(plan, End(plan, earlier), a, t, status);
    } else {
      AsideOther(plan, End(plan, earlier), a, t, status);
    }
  }

  /** Nor is it ever executed again. */
  lemma {:induction false} NotExecutedAgain(plan: Plan, run: seq<Action>, longer: seq<Action>,
                                            t: TaskId, status: TaskStatus, n: nat)
    requires StandsAside(plan, run, t, status) && !TakenUp(status) && ExecutedTimes(plan, run, t, n)
    requires Continues(plan, run, longer)
    ensures ExecutedTimes(plan, longer, t, n)
    decreases |longer|
  {
    if run != longer {
      NotExecutedAgain(plan, run, longer[..|longer| - 1], t, status, n);
      LeftAside(plan, run, longer[..|longer| - 1], t, status);
      AsideStep(plan, longer, t, status);
    }
  }

  /** In the course of an attempt the ledger has the task between CLAIMED and POST_VERIFYING. */
  lemma AttemptStatuses(plan: Plan, run: seq<Action>, t: TaskId, status: TaskStatus)
    requires InAttempt(plan, run, t, status)
    ensures status in {Claimed, Proposing, Verifying, Executing, PostVerifying}
  {
    SafeAlways(plan, run);
    WorkingAt(plan, run);
  }

  lemma MovesWorkAt(c: Control, a: Action)
    requires MoveOf(c, a).Some? && MoveOf(c, a).value.next.Working?
    ensures MoveOf(c, a).value.next.at in {Claimed, Proposing, Verifying, Executing}
  {
  }

  lemma OthersWorkAt(plan: Plan, s: Sys, a: Action)
    requires !IsMoveAction(a) && Enabled(plan, s, a) && After(plan, s, a).control.Working?
    ensures After(plan, s, a).control == s.control
  {
  }

  lemma {:induction false} WorkingAt(plan: Plan, run: seq<Action>)
    requires Executable(plan, run)
    ensures
      var c := End(plan, run).control;
      c.Working? ==> c.at in {Claimed, Proposing, Verifying, Executing}
  {
    if run != [] {
      var n := |run| - 1;
      WorkingAt(plan, run[..n]);
      if IsMoveAction(run[n]) {
        MoveAfter(plan, End(plan, run[..n]), run[n]);
        if End(plan, run).control.Working? {
          MovesWorkAt(End(plan, run[..n]).control, run[n]);
        }
      } else if End(plan, run).control.Working? {
        OthersWorkAt(plan, End(plan, run[..n]), run[n]);
      }
    }
  }

  /** A crash leaves no task in the process's hands. */
  lemma CrashPutsAside(plan: Plan, run: seq<Action>, t: TaskId, status: TaskStatus, n: nat)
    requires ExecutedTimes(plan, run, t, n) && Fold(End(plan, run).machine.disk.history, t) == status
    ensures StandsAside(plan, run + [Other(C.Crash)], t, status)
    ensures ExecutedTimes(plan, run + [Other(C.Crash)], t, n)
  {
    Extend(plan, run, Other(C.Crash));
  }

  /** Recovery lists `t` as incomplete whenever the process is up. */
  ghost predicate ListedIncomplete(s: Sys, t: TaskId) {
    s.machine.phase.Up? ==> t in s.machine.disk.tasks && !Terminal(s.machine.disk.tasks[t])
  }

  /** `t` is in the hands of nobody, has not come to an end, and recovery lists it. */
  ghost predicate Stranded(plan: Plan, run: seq<Action>, t: TaskId, status: TaskStatus) {
    StandsAside(plan, run, t, status) && !Terminal(status) && ListedIncomplete(End(plan, run), t)
  }

  /** A crash in the middle of an attempt at `t` strands the task: whatever replays and rounds
      follow, its status stays what it was, which is not terminal, and its row says so. */
  lemma CrashStrandsAttempt(plan: Plan, run: seq<Action>, longer: seq<Action>, t: TaskId, status: TaskStatus)
    requires InAttempt(plan, run, t, status)
    requires Continues(plan, run + [Other(C.Crash)], longer)
    ensures Stranded(plan, longer, t, status)
  {
    AttemptStatuses(plan, run, t, status);
    CrashPutsAside(plan, run, t, status, ExecutionsOf(End(plan, run).executions, t));
    LeftAside(plan, run + [Other(C.Crash)], longer, t, status);
    RowsListIncomplete(plan, longer, t, status);
  }

  lemma RowsListIncomplete(plan: Plan, run: seq<Action>, t: TaskId, status: TaskStatus)
    requires StandsAside(plan, run, t, status) && !Terminal(status) && status != Pending
    ensures ListedIncomplete(End(plan, run), t)
  {
    EngineFacts(plan, run);
    var d := End(plan, run).machine.disk;
    assert End(plan, run).machine.phase.Up? ==> TaskStatusOf(d, t) == Fold(d.history, t);
  }
}
