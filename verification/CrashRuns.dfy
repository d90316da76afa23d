/** All runs of the engine, one durable write at a time, with a crash possible after any write
    and a replay after any crash (orchestration/engine.py, recovery/replay.py). */
module CrashRuns {
  import opened Wrappers
  import opened StateMachine
  import opened Events
  import opened Histories
  import opened Disks
  import opened Journals

  /** The row write that completes an operation whose event is already in the ledger. */
  datatype RowWrite = TaskRow(taskId: TaskId, taskStatus: TaskStatus) | StatusRow(status: WorkflowStatus)

  /** `Half`: an event is logged, its row write is outstanding. `Down`: the process is gone.
      `Replaying(k)`: a replay has processed the first `k` events. */
  datatype Phase = Up | Half(write: RowWrite) | Down(inReplay: bool) | Replaying(k: nat)

  datatype Call = ModelCall(inputTokens: int, outputTokens: int) | ToolCall

  /** `calls` lists the budget calls recorded so far; it is not part of the durable state. */
  datatype Machine = Machine(disk: Disk, phase: Phase, calls: seq<Call>)

  datatype Step =
    | Create(goal: string, repository: string)
    | Operate(op: WorkflowOp)
    | MoveTask(taskId: TaskId, target: TaskStatus)
    | Register(newTask: TaskId)
    | RecordKey(key: Key, status: string)
    | Spend(call: Call)
    | FinishWrite
    | Crash
    | StartReplay
    | ReplayEvent
    | FinishReplay

  const FRESH := Machine(Disk([], None, map[], map[]), Up, [])

  /** Task ids are registered before anything happens to them. */
  predicate Enabled(m: Machine, step: Step) {
    match step
    case Create(_, _) => m.phase.Up? && m.disk.workflow == None && m.disk.history == []
    case Operate(op) => m.phase.Up? && OpAllowed(op, WorkflowStatusOf(m.disk))
    case MoveTask(t, target) => m.phase.Up? && TaskStep(TaskStatusOf(m.disk, t), target)
    case Register(t) => m.phase.Up? && !Evented(m.disk.history, t)
    case RecordKey(_, _) => m.phase.Up?
    case Spend(_) => m.phase.Up?
    case FinishWrite => m.phase.Half?
    case Crash => true
    case StartReplay => m.phase.Up? || m.phase.Down?
    case ReplayEvent => m.phase.Replaying? && m.phase.k < |m.disk.history|
    case FinishReplay => m.phase == Replaying(|m.disk.history|)
  }

  function CallEffect(d: Disk, call: Call): Disk {
    match call
    case ModelCall(input, output) => ModelCalled(d, input, output)
    case ToolCall => ToolCalled(d)
  }

  function Finish(d: Disk, write: RowWrite): Disk {
    match write
    case TaskRow(t, s) => PutTask(d, t, s)
    case StatusRow(s) => PutWorkflow(d, s, StatusOnly)
  }

  function After(m: Machine, step: Step): Machine
    requires Enabled(m, step)
  {
    match step
    case Create(goal, repository) =>
      m.(disk := Log(m.disk, CreationRecord(goal, repository)), phase := Half(StatusRow(Created)))
    case Operate(op) => m.(disk := LogOp(m.disk, op), phase := Half(StatusRow(OpTarget(op))))
    case MoveTask(t, target) => m.(disk := LogTask(m.disk, t, target), phase := Half(TaskRow(t, target)))
    case Register(t) => m.(disk := PutTask(m.disk, t, Pending))
    case RecordKey(k, status) => m.(disk := PutKey(m.disk, k, status))
    case Spend(call) =>
      m.(disk := CallEffect(m.disk, call), calls := if m.disk.workflow.Some? then m.calls + [call] else m.calls)
    case FinishWrite => m.(disk := Finish(m.disk, m.phase.write), phase := Up)
    case Crash => m.(phase := Down(m.phase.Replaying? || (m.phase.Down? && m.phase.inReplay)))
    case StartReplay => m.(phase := Replaying(0))
    case ReplayEvent =>
      m.(disk := ReplayOne(m.disk, m.disk.history[m.phase.k]), phase := Replaying(m.phase.k + 1))
    case FinishReplay =>
      m.(disk := if m.disk.history == [] then m.disk else ReplayEnd(m.disk), phase := Up)
  }

  ghost predicate Executable(steps: seq<Step>)
    decreases |steps|, 0
  {
    steps != [] ==>
      var earlier := steps[..|steps| - 1];
      Executable(earlier) && Enabled(End(earlier), steps[|steps| - 1])
  }

  /** The machine after a run from the fresh state. */
  ghost function End(steps: seq<Step>): Machine
    requires Executable(steps)
    decreases |steps|, 1
  {
    if steps == [] then FRESH else After(End(steps[..|steps| - 1]), steps[|steps| - 1])
  }

  // ---- The journal of a run ----

  /** What a step writes: one entry at most, since a crash may follow every write. */
  function StepEntries(m: Machine, step: Step): seq<Entry>
    requires Enabled(m, step)
  {
    match step
    case Create(goal, repository) => [EventWrite(CreationRecord(goal, repository))]
    case Operate(op) => [EventWrite(OpRecord(op, WorkflowStatusOf(m.disk)))]
    case MoveTask(t, target) => [EventWrite(TaskRecord(t, TaskStatusOf(m.disk, t), target))]
    case Register(t) => [TaskWrite(t, Pending)]
    case RecordKey(k, status) => [KeyWrite(k, status)]
    case Spend(call) => if m.disk.workflow.Some? then [SpendEntry(m.disk.workflow.value, call)] else []
    case FinishWrite => [RowEntry(m.phase.write)]
    case Crash => []
    case StartReplay => []
    case ReplayEvent => ReplayEntries(m.disk.history[m.phase.k])
    case FinishReplay => if m.disk.history == [] then [] else [ReplayEndEntry(m.disk.history)]
  }

  function SpendEntry(row: WorkflowRow, call: Call): Entry {
    match call
    case ModelCall(input, output) =>
      WorkflowWrite(row.status, ModelUsage(row.tokensUsed + input + output, row.modelCalls + 1))
    case ToolCall => WorkflowWrite(row.status, ToolUsage(row.toolCalls + 1))
  }

  function RowEntry(write: RowWrite): Entry {
    match write
    case TaskRow(t, s) => TaskWrite(t, s)
    case StatusRow(s) => WorkflowWrite(s, StatusOnly)
  }

  function ReplayEntries(e: Record): seq<Entry> {
    if e.taskId.Some? && Written(e, e.taskId.value).Some? then
      [TaskWrite(e.taskId.value, Written(e, e.taskId.value).value)]
    else []
  }

  function ReplayEndEntry(h: History): Entry {
    WorkflowWrite(ReplayedWorkflow(h), LastSequence(|h| - 1))
  }

  /** The disk changes by what is written, and by nothing else. */
  lemma StepWrites(m: Machine, step: Step)
    requires Enabled(m, step)
    ensures StepEntries(m, step) == [] ==> After(m, step).disk == m.disk
    ensures StepEntries(m, step) != [] ==>
      |StepEntries(m, step)| == 1 && After(m, step).disk == Apply(m.disk, StepEntries(m, step)[0])
  {
  }

  ghost predicate EndsIn(steps: seq<Step>, m: Machine) {
    Executable(steps) && End(steps) == m
  }

  // ---- Rows against ledger ----

  /** The row of `t` holds the ledger's status for it, or the one before the last event. */
  ghost predicate LastOrPrevious(d: Disk, t: TaskId) {
    || TaskStatusOf(d, t) == Fold(d.history, t)
    || (d.history != [] && TaskStatusOf(d, t) == Fold(d.history[..|d.history| - 1], t))
  }

  /** Some earlier state of the ledger justifies status `s` of `t`. */
  ghost predicate SomePrefix(h: History, t: TaskId, s: TaskStatus) {
    exists j :: 0 <= j <= |h| && Fold(h[..j], t) == s
  }

  ghost predicate Behind(d: Disk, u: TaskId, s: TaskStatus) {
    && d.history != []
    && Fold(d.history, u) == s
    && TaskStatusOf(d, u) == Fold(d.history[..|d.history| - 1], u)
    && forall t :: t != u ==> TaskStatusOf(d, t) == Fold(d.history, t)
  }

  /** What holds of the task rows in each phase. */
  ghost predicate RowsOk(m: Machine) {
    match m.phase
    case Up => Agrees(m.disk)
    case Half(TaskRow(t, s)) => Behind(m.disk, t, s)
    case Half(StatusRow(_)) => Agrees(m.disk)
    case Down(false) => forall t :: LastOrPrevious(m.disk, t)
    case Down(true) => forall t :: SomePrefix(m.disk.history, t, TaskStatusOf(m.disk, t))
    case Replaying(k) =>
      && k <= |m.disk.history|
      && forall t ::
        if Touched(m.disk.history, k, t) then TaskStatusOf(m.disk, t) == Fold(m.disk.history[..k], t)
        else SomePrefix(m.disk.history, t, TaskStatusOf(m.disk, t))
  }

  lemma LastIsSomePrefix(d: Disk, t: TaskId)
    requires LastOrPrevious(d, t)
    ensures SomePrefix(d.history, t, TaskStatusOf(d, t))
  {
    assert d.history[..|d.history|] == d.history;
    if TaskStatusOf(d, t) == Fold(d.history, t) {
      assert Fold(d.history[..|d.history|], t) == TaskStatusOf(d, t);
    } else {
      assert Fold(d.history[..|d.history| - 1], t) == TaskStatusOf(d, t);
    }
  }

  lemma {:induction false} UntouchedIsPending(h: History, t: TaskId)
    requires Legal(h) && !Touched(h, |h|, t)
    ensures forall j :: 0 <= j <= |h| ==> Fold(h[..j], t) == Pending
  {
    forall j | 0 <= j <= |h| ensures Fold(h[..j], t) == Pending {
      UntouchedPrefix(h, j, t);
    }
  }

  lemma {:induction false} UntouchedPrefix(h: History, j: nat, t: TaskId)
    requires j <= |h| && !Touched(h, |h|, t)
    ensures Fold(h[..j], t) == Pending
  {
    if j > 0 {
      UntouchedPrefix(h, j - 1, t);
      FoldPrefix(h, j - 1, t);
    }
  }

  lemma RowsMoveTask(m: Machine, t: TaskId, target: TaskStatus)
    requires RowsOk(m) && Legal(m.disk.history) && Enabled(m, MoveTask(t, target))
    ensures Legal(After(m, MoveTask(t, target)).disk.history)
    ensures RowsOk(After(m, MoveTask(t, target)))
  {
    var e := TaskRecord(t, TaskStatusOf(m.disk, t), target);
    var h := m.disk.history;
    LegalAppend(h, e);
    assert (h + [e])[..|h|] == h;
    forall u: TaskId {
      FoldAppend(h, e, u);
    }
  }

  lemma RowsLogged(d: Disk, e: Record)
    requires Agrees(d) && Legal(d.history) && e.taskId == None
    ensures Legal(Log(d, e).history) && Agrees(Log(d, e))
  {
    LegalAppend(d.history, e);
    forall t: TaskId ensures TaskStatusOf(Log(d, e), t) == Fold(Log(d, e).history, t) {
      FoldAppend(d.history, e, t);
    }
  }

  lemma RowsCrash(m: Machine)
    requires RowsOk(m)
    ensures RowsOk(After(m, Crash))
  {
    match m.phase
    case Replaying(k) =>
      forall t: TaskId ensures SomePrefix(m.disk.history, t, TaskStatusOf(m.disk, t)) {
        if Touched(m.disk.history, k, t) {
          assert Fold(m.disk.history[..k], t) == TaskStatusOf(m.disk, t);
        }
      }
    case Half(w) =>
    case _ =>
  }

  lemma RowsStartReplay(m: Machine)
    requires RowsOk(m) && Enabled(m, StartReplay)
    ensures RowsOk(After(m, StartReplay))
  {
    forall t: TaskId ensures SomePrefix(m.disk.history, t, TaskStatusOf(m.disk, t)) {
      if m.phase != Down(true) {
        assert LastOrPrevious(m.disk, t);
        LastIsSomePrefix(m.disk, t);
      }
    }
    assert forall t :: !Touched(m.disk.history, 0, t);
  }

  lemma RowsReplayEvent(m: Machine)
    requires RowsOk(m) && Enabled(m, ReplayEvent)
    ensures RowsOk(After(m, ReplayEvent))
  {
    var h, m' := m.disk.history, After(m, ReplayEvent);
    var k: nat := m.phase.k;
    forall t: TaskId ensures
      if Touched(h, k + 1, t) then TaskStatusOf(m'.disk, t) == Fold(h[..k + 1], t)
      else SomePrefix(h, t, TaskStatusOf(m'.disk, t))
    {
      FoldPrefix(h, k, t);
      assert Touched(h, k + 1, t) <==> Touched(h, k, t) || Written(h[k], t).Some?;
      assert h[k].taskId != Some(t) ==> TaskStatusOf(m'.disk, t) == TaskStatusOf(m.disk, t);
    }
  }

  lemma RowsFinishReplay(m: Machine)
    requires RowsOk(m) && Legal(m.disk.history) && Enabled(m, FinishReplay)
    ensures RowsOk(After(m, FinishReplay))
  {
    var h := m.disk.history;
    assert h[..|h|] == h;
    forall t: TaskId ensures TaskStatusOf(m.disk, t) == Fold(h, t) {
      if !Touched(h, |h|, t) {
        UntouchedIsPending(h, t);
      }
    }
  }

  lemma RowsRegister(m: Machine, t: TaskId)
    requires RowsOk(m) && Enabled(m, Register(t))
    ensures RowsOk(After(m, Register(t)))
  {
    FoldUnevented(m.disk.history, t);
  }

  /** Every step keeps the ledger legal and the rows consistent with it. */
  lemma RowsStep(m: Machine, step: Step)
    requires RowsOk(m) && Legal(m.disk.history) && Enabled(m, step)
    ensures Legal(After(m, step).disk.history) && RowsOk(After(m, step))
  {
    match step
    case Create(goal, repository) => RowsLogged(m.disk, CreationRecord(goal, repository));
    case Operate(op) => RowsLogged(m.disk, OpRecord(op, WorkflowStatusOf(m.disk)));
    case MoveTask(t, target) => RowsMoveTask(m, t, target);
    case Register(t) => RowsRegister(m, t);
    case RecordKey(_, _) =>
    case Spend(_) =>
    case FinishWrite =>
    case Crash => RowsCrash(m);
    case StartReplay => RowsStartReplay(m);
    case ReplayEvent => RowsReplayEvent(m);
    case FinishReplay => RowsFinishReplay(m);
  }

  lemma {:induction false} RowsAlways(steps: seq<Step>)
    requires Executable(steps)
    ensures Legal(End(steps).disk.history) && RowsOk(End(steps))
  {
    if steps != [] {
      var n := |steps| - 1;
      RowsAlways(steps[..n]);
      RowsStep(End(steps[..n]), steps[n]);
    }
  }

  /** Crash consistency, in every state of every run. Unless a replay is under way or was cut
      short, a row holds the status of the ledger or of the ledger without its last event; while
      the process is up, that of the ledger. */
  lemma CrashConsistency(steps: seq<Step>, m: Machine, t: TaskId)
    requires EndsIn(steps, m)
    ensures !m.phase.Replaying? && m.phase != Down(true) ==> LastOrPrevious(m.disk, t)
    ensures m.phase.Up? ==> TaskStatusOf(m.disk, t) == Fold(m.disk.history, t)
  {
    RowsAlways(steps);
    RowConsistent(m, t);
  }

  /** In every state of every run a row holds a status that the ledger has reached. */
  lemma RowsAreJustified(steps: seq<Step>, t: TaskId)
    requires Executable(steps)
    ensures SomePrefix(End(steps).disk.history, t, TaskStatusOf(End(steps).disk, t))
  {
    RowsAlways(steps);
    RowConsistent(End(steps), t);
  }

  lemma RowConsistent(m: Machine, t: TaskId)
    requires RowsOk(m)
    ensures SomePrefix(m.disk.history, t, TaskStatusOf(m.disk, t))
    ensures !m.phase.Replaying? && m.phase != Down(true) ==> LastOrPrevious(m.disk, t)
  {
    if m.phase.Replaying? {
      if Touched(m.disk.history, m.phase.k, t) {
        assert Fold(m.disk.history[..m.phase.k], t) == TaskStatusOf(m.disk, t);
      }
    } else if m.phase != Down(true) {
      assert LastOrPrevious(m.disk, t);
      LastIsSomePrefix(m.disk, t);
    }
  }

  /** From any state of any run, a full replay restores agreement, and a second one changes nothing. */
  lemma ReplayRestores(steps: seq<Step>)
    requires Executable(steps)
    ensures Agrees(Replayed(End(steps).disk))
    ensures Replayed(Replayed(End(steps).disk)) == Replayed(End(steps).disk)
  {
    RowsAlways(steps);
    var m := End(steps);
    forall t: TaskId ensures SomePrefix(m.disk.history, t, TaskStatusOf(m.disk, t)) {
      RowConsistent(m, t);
    }
    ReplayAgrees(m.disk);
    ReplayIdempotent(m.disk);
  }

  /** A replay over rows that lag behind a legal ledger, however far, brings them up to date. */
  lemma ReplayAgrees(d: Disk)
    requires Legal(d.history) && forall t :: SomePrefix(d.history, t, TaskStatusOf(d, t))
    ensures Agrees(Replayed(d)) && Replayed(d).history == d.history && Replayed(d).keys == d.keys
  {
    var h := d.history;
    assert h[..|h|] == h;
    forall t: TaskId ensures TaskStatusOf(Replayed(d), t) == Fold(h, t) {
      PartialReplay(d, |h|, t);
      if !Touched(h, |h|, t) {
        UntouchedIsPending(h, t);
        var j :| 0 <= j <= |h| && Fold(h[..j], t) == TaskStatusOf(d, t);
        assert Fold(h[..|h|], t) == Pending;
        assert TaskStatusOf(Replayed(d), t) == TaskStatusOf(d, t);
      } else {
        assert t in Replayed(d).tasks && Replayed(d).tasks[t] == Fold(h, t);
      }
    }
    PartialReplay(d, |h|, 0);
  }

  /** In every run the ledger takes each task along a path of the task table, from PENDING to the
      status it folds to. */
  lemma TracesArePaths(steps: seq<Step>, m: Machine, t: TaskId)
    requires EndsIn(steps, m)
    ensures IsPath([Pending] + Trace(m.disk.history, t))
    ensures ([Pending] + Trace(m.disk.history, t))[|Trace(m.disk.history, t)|] == Fold(m.disk.history, t)
  {
    RowsAlways(steps);
    LegalTraces(m.disk.history, t);
  }

  /** On that path nothing comes after a terminal status. */
  lemma TerminalEndsTrace(steps: seq<Step>, t: TaskId, i: nat)
    requires Executable(steps) && i < |Trace(End(steps).disk.history, t)|
    requires Terminal(Trace(End(steps).disk.history, t)[i])
    ensures i == |Trace(End(steps).disk.history, t)| - 1
  {
    RowsAlways(steps);
    LegalTraces(End(steps).disk.history, t);
    TerminalEndsPath([Pending] + Trace(End(steps).disk.history, t), i + 1);
  }

  /** On that path a COMMITTED comes right after one full attempt. */
  lemma CommitsAreEarned(steps: seq<Step>, m: Machine, t: TaskId, i: nat)
    requires EndsIn(steps, m)
    requires i < |Trace(m.disk.history, t)| && Trace(m.disk.history, t)[i] == Committed
    ensures 6 <= i && Trace(m.disk.history, t)[i - 6..i] == PREAMBLE
  {
    RowsAlways(steps);
    CommitInTrace(m.disk.history, t, i);
  }

  lemma CommitInTrace(h: History, t: TaskId, i: nat)
    requires Legal(h) && i < |Trace(h, t)| && Trace(h, t)[i] == Committed
    ensures 6 <= i && Trace(h, t)[i - 6..i] == PREAMBLE
  {
    var trace := Trace(h, t);
    LegalTraces(h, t);
    CommitPreamble([Pending] + trace, i + 1);
    assert ([Pending] + trace)[i - 5..i + 1] == trace[i - 6..i];
  }

  // ---- Extending runs ----

  lemma Extend(steps: seq<Step>, step: Step)
    requires Executable(steps) && Enabled(End(steps), step)
    ensures Executable(steps + [step]) && End(steps + [step]) == After(End(steps), step)
  {
    assert (steps + [step])[..|steps|] == steps;
  }

  /** `m` with a replay under way that has processed `k` events. */
  function InReplay(m: Machine, k: nat): Machine
    requires k <= |m.disk.history|
  {
    m.(disk := ReplayPrefix(m.disk, k), phase := Replaying(k))
  }

  lemma ReplayNext(m: Machine, k: nat)
    requires k < |m.disk.history|
    ensures Enabled(InReplay(m, k), ReplayEvent) && After(InReplay(m, k), ReplayEvent) == InReplay(m, k + 1)
  {
    PartialReplay(m.disk, k, 0);
  }

  lemma ReplayDone(m: Machine)
    ensures
      var last := InReplay(m, |m.disk.history|);
      Enabled(last, FinishReplay) && After(last, FinishReplay) == m.(disk := Replayed(m.disk), phase := Up)
  {
    PartialReplay(m.disk, |m.disk.history|, 0);
  }

  lemma {:induction false} ReplaySome(steps: seq<Step>, m: Machine, k: nat) returns (run: seq<Step>)
    requires k <= |m.disk.history| && EndsIn(steps, InReplay(m, 0))
    ensures steps <= run && EndsIn(run, InReplay(m, k))
  {
    run := steps;
    if k > 0 {
      run := ReplaySome(steps, m, k - 1);
      ReplayNext(m, k - 1);
      Extend(run, ReplayEvent);
      run := run + [ReplayEvent];
    }
  }

  /** A replay that is not interrupted is `reconstruct_state`. */
  lemma UninterruptedReplay(steps: seq<Step>) returns (run: seq<Step>)
    requires Executable(steps) && (End(steps).phase.Up? || End(steps).phase.Down?)
    ensures steps <= run && EndsIn(run, End(steps).(disk := Replayed(End(steps).disk), phase := Up))
  {
    var m := End(steps);
    Extend(steps, StartReplay);
    run := ReplaySome(steps + [StartReplay], m, |m.disk.history|);
    ReplayDone(m);
    Extend(run, FinishReplay);
    run := run + [FinishReplay];
  }
}
