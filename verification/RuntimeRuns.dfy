/** All runs of the durable runtime: the scheduler and the task attempts, one durable write at a
    time, with crashes and replays anywhere (experiments/durable.py, orchestration/scheduler.py). */
module RuntimeRuns {
  import opened Wrappers
  import opened StateMachine
  import opened Events
  import opened Histories
  import opened Disks
  import opened Journals
  import opened Plans
  import opened Boards
  import C = CrashRuns

  /** Where the process is. `Working(t, at)`: in the attempt at `t`, after its move to `at`.
      `Ran`, `Checked` and `Recorded` follow the execution: the executor has returned, the task is
      POST_VERIFYING, the idempotency key is written. */
  datatype Control =
    | Idle
    | Blocking(t: TaskId)
    | Working(t: TaskId, at: TaskStatus)
    | Ran(t: TaskId, success: bool)
    | Checked(t: TaskId, success: bool)
    | Recorded(t: TaskId)

  /** One return of the executor, with the number of events logged by then. */
  datatype Execution = Execution(taskId: TaskId, success: bool, at: nat)

  /** `executions` are effects on the outside world, so a crash does not undo them. `torn` tells
      whether a crash ever fell between the READY and the BLOCKED of a task being blocked.
      `journal` lists everything written and executed so far, in order. */
  datatype Sys = Sys(
    machine: C.Machine,
    control: Control,
    executions: seq<Execution>,
    torn: bool,
    journal: seq<Entry>)

  datatype Action =
    | Promote(task: Task)
    | StartBlocking(task: Task)
    | FinishBlocking
    | Requeue(t: TaskId)
    | Claim(t: TaskId)
    | Propose
    | ProposalFails
    | Verify
    | Refuse
    | Execute
    | RunTool(success: bool)
    | PostVerify
    | WriteKey
    | Commit
    | Retry
    | Other(step: C.Step)

  const START := Sys(C.FRESH, Idle, [], false, [])

  /** The constant idempotency key of a task: the attempt number is never passed on. */
  function TaskKey(t: TaskId): Key {
    Key(t, 1)
  }

  /** A move of one task, from a status to a status, and where the process goes on. */
  datatype Move = Move(taskId: TaskId, source: TaskStatus, target: TaskStatus, next: Control)

  function FromIdle(c: Control, m: Move): Option<Move> {
    if c == Idle then Some(m) else None
  }

  /** The move of an attempt from `source` to `target`, after which the attempt goes on or is over. */
  function FromWork(c: Control, source: TaskStatus, target: TaskStatus, goesOn: bool): Option<Move> {
    if c.Working? && c.at == source then
      Some(Move(c.t, source, target, if goesOn then Working(c.t, target) else Idle))
    else None
  }

  /** The task move that an action makes at a given point of the process, if it makes one there. */
  function MoveOf(c: Control, a: Action): Option<Move> {
    match a
    case Promote(task) => FromIdle(c, Move(task.id, Pending, Ready, Idle))
    case StartBlocking(task) => FromIdle(c, Move(task.id, Pending, Ready, Blocking(task.id)))
    case FinishBlocking => if c.Blocking? then Some(Move(c.t, Ready, Blocked, Idle)) else None
    case Requeue(t) => FromIdle(c, Move(t, RetryWait, Ready, Idle))
    case Claim(t) => FromIdle(c, Move(t, Ready, Claimed, Working(t, Claimed)))
    case Propose => FromWork(c, Claimed, Proposing, true)
    case ProposalFails => FromWork(c, Proposing, TaskStatus.Failed, false)
    case Verify => FromWork(c, Proposing, Verifying, true)
    case Refuse => FromWork(c, Verifying, Rejected, false)
    case Execute => FromWork(c, Verifying, Executing, true)
    case PostVerify => if c.Ran? then Some(Move(c.t, Executing, PostVerifying, Checked(c.t, c.success))) else None
    case Commit => if c.Recorded? then Some(Move(c.t, PostVerifying, Committed, Idle)) else None
    case Retry => if c.Checked? && !c.success then Some(Move(c.t, PostVerifying, RetryWait, Idle)) else None
    case _ => None
  }

  /** What the code has checked when it makes the move. It looks at the row of the task only
      where the scheduler picks the task, not in the course of an attempt. */
  predicate Guard(plan: Plan, d: Disk, c: Control, a: Action) {
    match a
    case Promote(task) => task in plan && IsPending(task, d.tasks) && Satisfied(task, d.tasks)
    case StartBlocking(task) =>
      && task in plan && IsPending(task, d.tasks)
      && !Satisfied(task, d.tasks) && HasFailedDep(task, d.tasks)
    case Requeue(t) => t in d.tasks && d.tasks[t] == RetryWait
    case Claim(t) => t in d.tasks && d.tasks[t] == Ready
    case Execute => c.Working? && !IsDuplicate(d, TaskKey(c.t))
    case _ => true
  }

  /** The code is about to ask the engine for the move `a`. */
  predicate Asks(plan: Plan, s: Sys, a: Action) {
    s.machine.phase.Up? && MoveOf(s.control, a).Some? && Guard(plan, s.machine.disk, s.control, a)
  }

  /** Steps that are not task moves or attempts: they do not occur in the middle of those,
      except for the completion of a write, a crash, and what follows a crash. */
  predicate OtherEnabled(s: Sys, step: C.Step) {
    && C.Enabled(s.machine, step)
    && match step
       case FinishWrite => true
       case Crash => true
       case ReplayEvent => true
       case FinishReplay => true
       case MoveTask(_, _) => false
       case RecordKey(_, _) => false
       case _ => s.control == Idle
  }

  /** A move that the engine refuses is not an action: the process would abort. */
  predicate Enabled(plan: Plan, s: Sys, a: Action) {
    if a.RunTool? then
      s.machine.phase.Up? && s.control.Working? && s.control.at == Executing
    else if a.WriteKey? then
      s.machine.phase.Up? && s.control.Checked? && s.control.success
    else if a.Other? then
      OtherEnabled(s, a.step)
    else
      Asks(plan, s, a) && C.Enabled(s.machine, MoveStep(MoveOf(s.control, a).value))
  }

  function MoveStep(m: Move): C.Step {
    C.MoveTask(m.taskId, m.target)
  }

  function KeyStep(t: TaskId): C.Step {
    C.RecordKey(TaskKey(t), COMMITTED)
  }

  function After(plan: Plan, s: Sys, a: Action): Sys
    requires Enabled(plan, s, a)
  {
    if a.RunTool? then
      s.(control := Ran(s.control.t, a.success),
         executions := s.executions + [Execution(s.control.t, a.success, |s.machine.disk.history|)],
         journal := s.journal + [ToolRun(s.control.t, a.success)])
    else if a.WriteKey? then
      s.(machine := C.After(s.machine, KeyStep(s.control.t)),
         control := Recorded(s.control.t),
         journal := s.journal + C.StepEntries(s.machine, KeyStep(s.control.t)))
    else if a.Other? then
      s.(machine := C.After(s.machine, a.step),
         control := if a.step.Crash? then Idle else s.control,
         torn := s.torn || (a.step.Crash? && s.control.Blocking?),
         journal := s.journal + C.StepEntries(s.machine, a.step))
    else
      var m := MoveOf(s.control, a).value;
      s.(machine := C.After(s.machine, MoveStep(m)),
         control := m.next,
         journal := s.journal + C.StepEntries(s.machine, MoveStep(m)))
  }

  ghost predicate Executable(plan: Plan, run: seq<Action>)
    decreases |run|, 0
  {
    run != [] ==>
      var earlier := run[..|run| - 1];
      Executable(plan, earlier) && Enabled(plan, End(plan, earlier), run[|run| - 1])
  }

  ghost function End(plan: Plan, run: seq<Action>): Sys
    requires Executable(plan, run)
    decreases |run|, 1
  {
    if run == [] then START else After(plan, End(plan, run[..|run| - 1]), run[|run| - 1])
  }

  ghost predicate EndsIn(plan: Plan, run: seq<Action>, s: Sys) {
    Executable(plan, run) && End(plan, run) == s
  }

  // ---- The journal ----

  /** The durable state of `s`, and how it came about. */
  function Stored(s: Sys): Storage {
    Storage(s.machine.disk, s.journal)
  }

  /** Every step makes at most one entry, and changes the disk as the entry says. */
  lemma ActionWrites(plan: Plan, s: Sys, a: Action)
    requires Enabled(plan, s, a)
    ensures
      || Stored(After(plan, s, a)) == Stored(s)
      || exists e :: Stored(After(plan, s, a)) == Wrote(Stored(s), e)
  {
    EngineStepMatches(plan, s, a);
    if a.RunTool? {
      assert Stored(After(plan, s, a)) == Wrote(Stored(s), ToolRun(s.control.t, a.success));
    } else {
      var entries := C.StepEntries(s.machine, EngineStep(s, a).value);
      C.StepWrites(s.machine, EngineStep(s, a).value);
      if entries != [] {
        assert Stored(After(plan, s, a)) == Wrote(Stored(s), entries[0]);
      }
    }
  }

  /** `run` has made exactly the entries `journal`, and its disk is what they add up to. */
  ghost predicate Writes(plan: Plan, run: seq<Action>, journal: seq<Entry>) {
    && Executable(plan, run)
    && Stored(End(plan, run)) == Storage(ApplyAll(EMPTY.disk, journal), journal)
  }

  /** A crash between any two writes of a run is a crash of a run: each prefix of the journal is
      the journal of a prefix of the run, and the disk is what that prefix has written. */
  lemma {:induction false} JournalPrefix(plan: Plan, run: seq<Action>, k: nat) returns (n: nat)
    requires Executable(plan, run) && k <= |End(plan, run).journal|
    ensures n <= |run| && Writes(plan, run[..n], End(plan, run).journal[..k])
  {
    var journal := End(plan, run).journal;
    if run == [] {
      n := 0;
    } else {
      var m := |run| - 1;
      var s := End(plan, run[..m]);
      ActionWrites(plan, s, run[m]);
      if k <= |s.journal| {
        n := JournalPrefix(plan, run[..m], k);
        assert journal[..k] == s.journal[..k] && run[..m][..n] == run[..n];
      } else {
        n := |run|;
        JournalAdds(plan, run);
        assert journal[..k] == journal && run[..n] == run;
      }
    }
  }

  lemma {:induction false} JournalAdds(plan: Plan, run: seq<Action>)
    requires Executable(plan, run)
    ensures Writes(plan, run, End(plan, run).journal)
  {
    if run != [] {
      var m := |run| - 1;
      JournalAdds(plan, run[..m]);
      var s := End(plan, run[..m]);
      ActionWrites(plan, s, run[m]);
      if Stored(End(plan, run)) != Stored(s) {
        var e :| Stored(End(plan, run)) == Wrote(Stored(s), e);
        ApplyNext(EMPTY.disk, s.journal, e);
      }
    }
  }

  // ---- Runs of the runtime are runs of the engine ----

  function EngineStep(s: Sys, a: Action): Option<C.Step> {
    if a.RunTool? then None
    else if a.WriteKey? then (if s.control.Checked? then Some(KeyStep(s.control.t)) else None)
    else if a.Other? then Some(a.step)
    else
      match MoveOf(s.control, a)
      case Some(m) => Some(MoveStep(m))
      case None => None
  }

  ghost function EngineSteps(plan: Plan, run: seq<Action>): seq<C.Step>
    requires Executable(plan, run)
  {
    if run == [] then []
    else
      var earlier := run[..|run| - 1];
      match EngineStep(End(plan, earlier), run[|run| - 1])
      case Some(step) => EngineSteps(plan, earlier) + [step]
      case None => EngineSteps(plan, earlier)
  }

  lemma EngineStepMatches(plan: Plan, s: Sys, a: Action)
    requires Enabled(plan, s, a)
    ensures match EngineStep(s, a)
      case Some(step) => C.Enabled(s.machine, step) && After(plan, s, a).machine == C.After(s.machine, step)
      case None => After(plan, s, a).machine == s.machine
  {
  }

  lemma {:induction false} RefinesEngine(plan: Plan, run: seq<Action>)
    requires Executable(plan, run)
    ensures C.Executable(EngineSteps(plan, run))
    ensures C.End(EngineSteps(plan, run)) == End(plan, run).machine
  {
    if run != [] {
      var n := |run| - 1;
      RefinesEngine(plan, run[..n]);
      var s := End(plan, run[..n]);
      var steps := EngineSteps(plan, run[..n]);
      EngineStepMatches(plan, s, run[n]);
      match EngineStep(s, run[n])
      case Some(step) => C.Extend(steps, step);
      case None =>
    }
  }

  lemma EngineFacts(plan: Plan, run: seq<Action>)
    requires Executable(plan, run)
    ensures Legal(End(plan, run).machine.disk.history) && C.RowsOk(End(plan, run).machine)
  {
    RefinesEngine(plan, run);
    C.RowsAlways(EngineSteps(plan, run));
  }
}
