/** Extending runs of the durable runtime by whole operations. The imperative code carries such a
    run along, which shows that each of its writes is a step of a run (experiments/durable.py). */
module Tracking {
  import opened Wrappers
  import opened StateMachine
  import opened Events
  import opened Histories
  import opened Disks
  import opened Journals
  import opened Plans
  import opened RuntimeRuns
  import opened RuntimeSafety
  import C = CrashRuns

  /** `run` has led, without a restart or a torn promotion, to the durable state and the journal
      of `st`, and to point `c` of a running process. */
  ghost predicate Tracks(plan: Plan, run: seq<Action>, st: Storage, c: Control) {
    && Executable(plan, run)
    && Other(C.StartReplay) !in run
    && var s := End(plan, run);
       Stored(s) == st && s.machine.phase.Up? && s.control == c && !s.torn
  }

  lemma Extend(plan: Plan, run: seq<Action>, a: Action)
    requires Executable(plan, run) && Enabled(plan, End(plan, run), a)
    ensures Executable(plan, run + [a]) && End(plan, run + [a]) == After(plan, End(plan, run), a)
  {
    assert (run + [a])[..|run|] == run;
  }

  lemma TrackStart(plan: Plan)
    ensures Tracks(plan, [], EMPTY, Idle)
  {
  }

  /** The state after a whole move, ledger and row. */
  ghost function Moved(s: Sys, m: Move): Sys {
    var st := StoredMove(Stored(s), m.taskId, m.target);
    s.(machine := s.machine.(disk := st.disk), control := m.next, journal := st.journal)
  }

  lemma FinishMove(plan: Plan, run: seq<Action>, s: Sys, a: Action)
    requires EndsIn(plan, run, s) && IsMoveAction(a) && Asks(plan, s, a) && Enabled(plan, s, a)
    ensures EndsIn(plan, run + [a] + [Other(C.FinishWrite)], Moved(s, MoveOf(s.control, a).value))
  {
    Extend(plan, run, a);
    Extend(plan, run + [a], Other(C.FinishWrite));
  }

  lemma AskedIsValid(plan: Plan, run: seq<Action>, a: Action)
    requires Executable(plan, run) && Asks(plan, End(plan, run), a)
    ensures
      var m, d := MoveOf(End(plan, run).control, a).value, End(plan, run).machine.disk;
      TaskStep(TaskStatusOf(d, m.taskId), m.target) && TaskStatusOf(d, m.taskId) == m.source
  {
    SafeAlways(plan, run);
    EngineFacts(plan, run);
    AskedMoveIsValid(plan, End(plan, run), a);
  }

  /** A move the process asks for is valid, and its two writes are two steps. */
  lemma MoveRun(plan: Plan, run: seq<Action>, s: Sys, a: Action) returns (longer: seq<Action>)
    requires EndsIn(plan, run, s) && IsMoveAction(a) && Asks(plan, s, a)
    ensures longer == run + [a] + [Other(C.FinishWrite)]
    ensures EndsIn(plan, longer, Moved(s, MoveOf(s.control, a).value))
  {
    AskedIsValid(plan, run, a);
    FinishMove(plan, run, s, a);
    longer := run + [a] + [Other(C.FinishWrite)];
  }

  lemma TrackMove(plan: Plan, run: seq<Action>, st: Storage, c: Control, a: Action) returns (longer: seq<Action>)
    requires Tracks(plan, run, st, c) && IsMoveAction(a) && MoveOf(c, a).Some? && Guard(plan, st.disk, c, a)
    ensures
      var m := MoveOf(c, a).value;
      && TaskStep(TaskStatusOf(st.disk, m.taskId), m.target) && TaskStatusOf(st.disk, m.taskId) == m.source
      && Tracks(plan, longer, StoredMove(st, m.taskId, m.target), m.next)
  {
    AskedIsValid(plan, run, a);
    longer := MoveRun(plan, run, End(plan, run), a);
  }

  lemma TrackTool(plan: Plan, run: seq<Action>, st: Storage, t: TaskId, success: bool) returns (longer: seq<Action>)
    requires Tracks(plan, run, st, Working(t, Executing))
    ensures Tracks(plan, longer, Wrote(st, ToolRun(t, success)), Ran(t, success))
  {
    Extend(plan, run, RunTool(success));
    longer := run + [RunTool(success)];
  }

  lemma TrackKey(plan: Plan, run: seq<Action>, st: Storage, t: TaskId) returns (longer: seq<Action>)
    requires Tracks(plan, run, st, Checked(t, true))
    ensures Tracks(plan, longer, Wrote(st, KeyWrite(TaskKey(t), COMMITTED)), Recorded(t))
  {
    Extend(plan, run, WriteKey);
    longer := run + [WriteKey];
  }

  lemma TrackRegister(plan: Plan, run: seq<Action>, st: Storage, t: TaskId) returns (longer: seq<Action>)
    requires Tracks(plan, run, st, Idle) && !Evented(st.disk.history, t)
    ensures Tracks(plan, longer, Wrote(st, TaskWrite(t, Pending)), Idle)
  {
    Extend(plan, run, Other(C.Register(t)));
    longer := run + [Other(C.Register(t))];
  }

  /** Registration, one row after the other. */
  lemma {:induction false} TrackRegistration(plan: Plan, run: seq<Action>, st: Storage, ids: seq<TaskId>)
    returns (longer: seq<Action>)
    requires Tracks(plan, run, st, Idle) && forall t: TaskId :: !Evented(st.disk.history, t)
    ensures Tracks(plan, longer, StoredTasks(st, ids), Idle)
    ensures StoredTasks(st, ids).disk.history == st.disk.history
  {
    hide Tracks;
    longer := run;
    if ids != [] {
      var n := |ids| - 1;
      longer := TrackRegistration(plan, run, st, ids[..n]);
      longer := TrackRegister(plan, longer, StoredTasks(st, ids[..n]), ids[n]);
    }
  }

  lemma TrackCreate(plan: Plan, run: seq<Action>, st: Storage, goal: string, repository: string)
    returns (longer: seq<Action>)
    requires Tracks(plan, run, st, Idle) && st.disk.history == [] && st.disk.workflow == None
    ensures Tracks(plan, longer, StoredCreation(st, goal, repository), Idle)
  {
    var a := Other(C.Create(goal, repository));
    Extend(plan, run, a);
    Extend(plan, run + [a], Other(C.FinishWrite));
    longer := run + [a] + [Other(C.FinishWrite)];
  }

  lemma TrackOperate(plan: Plan, run: seq<Action>, st: Storage, op: WorkflowOp) returns (longer: seq<Action>)
    requires Tracks(plan, run, st, Idle) && OpAllowed(op, WorkflowStatusOf(st.disk))
    ensures Tracks(plan, longer, StoredOp(st, op), Idle)
  {
    var a := Other(C.Operate(op));
    Extend(plan, run, a);
    Extend(plan, run + [a], Other(C.FinishWrite));
    longer := run + [a] + [Other(C.FinishWrite)];
  }

  /** A READY task of a running process has no committed idempotency key. */
  lemma TrackNoDuplicate(plan: Plan, run: seq<Action>, st: Storage, t: TaskId)
    requires Tracks(plan, run, st, Idle) && TaskStatusOf(st.disk, t) == Ready
    ensures !IsDuplicate(st.disk, TaskKey(t))
  {
    EngineFacts(plan, run);
    if TaskKey(t) in st.disk.keys {
      KeysMeanSuccess(plan, run, t);
    }
  }

  /** A crash leaves the disk and the executions, and loses the point the process was at. */
  ghost function Crashed(s: Sys): Sys {
    s.(control := Idle, torn := s.torn || s.control.Blocking?)
  }

  lemma CrashAndStart(plan: Plan, run: seq<Action>) returns (longer: seq<Action>)
    requires Executable(plan, run)
    ensures run + [Other(C.Crash)] <= longer && EndsIn(plan, longer, Replaying(Crashed(End(plan, run)), 0))
  {
    Extend(plan, run, Other(C.Crash));
    Extend(plan, run + [Other(C.Crash)], Other(C.StartReplay));
    longer := run + [Other(C.Crash)] + [Other(C.StartReplay)];
  }

  /** State `s` with a replay under way that has processed `k` events. */
  ghost function Replaying(s: Sys, k: nat): Sys
    requires k <= |s.machine.disk.history|
  {
    s.(machine := C.InReplay(s.machine, k), journal := StoredReplay(Stored(s), k).journal)
  }

  /** State `s` after a full replay. */
  ghost function Recovered(s: Sys): Sys {
    var st := StoredRecovery(Stored(s));
    s.(machine := s.machine.(disk := st.disk, phase := C.Up), journal := st.journal)
  }

  lemma NextReplayed(plan: Plan, run: seq<Action>, s: Sys, k: nat)
    requires k < |s.machine.disk.history| && EndsIn(plan, run, Replaying(s, k))
    ensures EndsIn(plan, run + [Other(C.ReplayEvent)], Replaying(s, k + 1))
  {
    C.ReplayNext(s.machine, k);
    PartialReplay(s.machine.disk, k, 0);
    Extend(plan, run, Other(C.ReplayEvent));
  }

  lemma {:induction false} ReplaySome(plan: Plan, run: seq<Action>, s: Sys, k: nat) returns (longer: seq<Action>)
    requires k <= |s.machine.disk.history| && EndsIn(plan, run, Replaying(s, 0))
    ensures run <= longer && EndsIn(plan, longer, Replaying(s, k))
  {
    longer := run;
    if k > 0 {
      longer := ReplaySome(plan, run, s, k - 1);
      NextReplayed(plan, longer, s, k - 1);
      longer := longer + [Other(C.ReplayEvent)];
    }
  }

  lemma LastReplayed(plan: Plan, run: seq<Action>, s: Sys)
    requires EndsIn(plan, run, Replaying(s, |s.machine.disk.history|))
    ensures EndsIn(plan, run + [Other(C.FinishReplay)], Recovered(s))
  {
    C.ReplayDone(s.machine);
    RecoveryStored(Stored(s));
    PartialReplay(s.machine.disk, |s.machine.disk.history|, 0);
    Extend(plan, run, Other(C.FinishReplay));
  }

  /** From any state, a crash and a full replay lead back to a running process with replayed rows. */
  lemma TrackCrash(plan: Plan, run: seq<Action>) returns (longer: seq<Action>)
    requires Executable(plan, run)
    ensures run + [Other(C.Crash)] <= longer && EndsIn(plan, longer, Recovered(Crashed(End(plan, run))))
    ensures End(plan, longer).machine.disk == Replayed(End(plan, run).machine.disk)
  {
    var s := Crashed(End(plan, run));
    longer := CrashAndStart(plan, run);
    longer := ReplaySome(plan, longer, s, |s.machine.disk.history|);
    LastReplayed(plan, longer, s);
    RecoveryStored(Stored(s));
    longer := longer + [Other(C.FinishReplay)];
  }

  // ---- Crashes between writes ----

  /** No replay is under way, and none was cut short. */
  predicate NoReplay(m: C.Machine) {
    !m.phase.Replaying? && m.phase != C.Down(true)
  }

  lemma NoReplayStep(plan: Plan, s: Sys, a: Action)
    requires Enabled(plan, s, a) && a != Other(C.StartReplay) && NoReplay(s.machine)
    ensures NoReplay(After(plan, s, a).machine)
  {
  }

  lemma {:induction false} NeverReplaying(plan: Plan, run: seq<Action>)
    requires Executable(plan, run) && Other(C.StartReplay) !in run
    ensures NoReplay(End(plan, run).machine)
  {
    if run != [] {
      var n := |run| - 1;
      assert run[n] in run && forall a :: a in run[..n] ==> a in run;
      NeverReplaying(plan, run[..n]);
      NoReplayStep(plan, End(plan, run[..n]), run[n]);
    }
  }

  /** Wherever a crash falls between the writes of a journal, each row is the fold of the ledger or
      of the ledger without its last event, and a replay brings all rows up to date. */
  ghost predicate CrashSafe(journal: seq<Entry>) {
    forall k :: 0 <= k <= |journal| ==> Repairable(ApplyAll(EMPTY.disk, journal[..k]))
  }

  ghost predicate Repairable(d: Disk) {
    Agrees(Replayed(d)) && forall t :: C.LastOrPrevious(d, t)
  }

  /** The journal that a process without restarts has written is safe. */
  lemma TrackedIsCrashSafe(plan: Plan, run: seq<Action>, st: Storage, c: Control)
    requires Tracks(plan, run, st, c)
    ensures CrashSafe(st.journal)
  {
    forall k | 0 <= k <= |st.journal| ensures Repairable(ApplyAll(EMPTY.disk, st.journal[..k])) {
      var n := JournalPrefix(plan, run, k);
      assert forall a :: a in run[..n] ==> a in run;
      EndIsRepairable(plan, run[..n]);
    }
  }

  lemma EndIsRepairable(plan: Plan, run: seq<Action>)
    requires Executable(plan, run) && Other(C.StartReplay) !in run
    ensures Repairable(End(plan, run).machine.disk)
  {
    var s := End(plan, run);
    NeverReplaying(plan, run);
    RefinesEngine(plan, run);
    C.ReplayRestores(EngineSteps(plan, run));
    forall t: TaskId ensures C.LastOrPrevious(s.machine.disk, t) {
      C.CrashConsistency(EngineSteps(plan, run), s.machine, t);
    }
  }
}
