/** Which idempotency keys are on record, in every run (experiments/durable.py,
    persistence/state_store.py): those of the tasks that have succeeded, and no others. */
module IdempotencyKeys {
  import opened Wrappers
  import opened StateMachine
  import opened Events
  import opened Histories
  import opened Disks
  import opened Plans
  import opened RuntimeRuns
  import opened RuntimeSafety
  import opened DependencyOrder
  import C = CrashRuns

  /** "task-{t}-attempt-1" is on record as "committed". */
  predicate Keyed(keys: map<Key, string>, t: TaskId) {
    Key(t, 1) in keys && keys[Key(t, 1)] == "committed"
  }

  /** Success has its key, and there is no other kind of key. */
  ghost predicate SuccessKeyed(s: Sys) {
    && (forall t :: Fold(s.machine.disk.history, t) == Committed || s.control == Recorded(t) ==>
          Keyed(s.machine.disk.keys, t))
    && (forall k :: k in s.machine.disk.keys ==> k.attempt == 1 && s.machine.disk.keys[k] == "committed")
  }

  lemma CommitsOnlyRecorded(c: Control, a: Action, m: Move)
    requires MoveOf(c, a) == Some(m)
    ensures m.target == Committed ==> c == Recorded(m.taskId)
    ensures !m.next.Recorded?
  {
  }

  lemma KeyedMove(plan: Plan, s: Sys, a: Action)
    requires SuccessKeyed(s) && IsMoveAction(a) && Enabled(plan, s, a)
    ensures SuccessKeyed(After(plan, s, a))
  {
    MoveAfter(plan, s, a);
    var m, d := MoveOf(s.control, a).value, s.machine.disk;
    CommitsOnlyRecorded(s.control, a, m);
    var s' := After(plan, s, a);
    forall t: TaskId | Fold(s'.machine.disk.history, t) == Committed ensures Keyed(s'.machine.disk.keys, t) {
      FoldAppend(d.history, TaskRecord(m.taskId, TaskStatusOf(d, m.taskId), m.target), t);
    }
  }

  lemma KeyedOther(plan: Plan, s: Sys, a: Action)
    requires SuccessKeyed(s) && !IsMoveAction(a) && Enabled(plan, s, a)
    ensures SuccessKeyed(After(plan, s, a))
  {
    var e := OtherHistory(plan, s, a);
    var s' := After(plan, s, a);
    KeysGrow(plan, s, a);
    forall t: TaskId | Fold(s'.machine.disk.history, t) == Committed ensures Keyed(s'.machine.disk.keys, t) {
      FoldAppend(s.machine.disk.history, e, t);
    }
  }

  lemma KeysGrow(plan: Plan, s: Sys, a: Action)
    requires !IsMoveAction(a) && Enabled(plan, s, a)
    ensures
      var s' := After(plan, s, a);
      && s'.machine.disk.keys ==
         (if a.WriteKey? then s.machine.disk.keys[Key(s.control.t, 1) := "committed"] else s.machine.disk.keys)
      && (s'.control.Recorded? ==> s'.control == if a.WriteKey? then Recorded(s.control.t) else s.control)
  {
    if a.Other? && a.step.ReplayEvent? {
      ReplayKeepsLedger(s.machine.disk, s.machine.phase.k);
    }
  }

  lemma {:induction false} KeyedAlways(plan: Plan, run: seq<Action>)
    requires Executable(plan, run)
    ensures SuccessKeyed(End(plan, run))
  {
    if run != [] {
      var n := |run| - 1;
      KeyedAlways(plan, run[..n]);
      if IsMoveAction(run[n]) {
        KeyedMove(plan, End(plan, run[..n]), run[n]);
      } else {
        KeyedOther(plan, End(plan, run[..n]), run[n]);
      }
    }
  }

  /** A committed task has its key, in every run, crashes and replays included: the duplicate check
      would answer yes. */
  lemma SuccessMeansKey(plan: Plan, run: seq<Action>, s: Sys, t: TaskId)
    requires EndsIn(plan, run, s) && Fold(s.machine.disk.history, t) == Committed
    ensures Key(t, 1) in s.machine.disk.keys && s.machine.disk.keys[Key(t, 1)] == "committed"
    ensures IsDuplicate(s.machine.disk, TaskKey(t))
  {
    KeyedAlways(plan, run);
  }

  /** The keys that belong to the COMMITTED rows. */
  function KeysOf(rows: map<TaskId, TaskStatus>): map<Key, string> {
    map t | t in rows && rows[t] == Committed :: Key(t, 1) := "committed"
  }

  /** When the process is up and no task is POST_VERIFYING, the keys are exactly those of the
      COMMITTED tasks. */
  lemma KeysAreSuccesses(plan: Plan, run: seq<Action>, s: Sys)
    requires EndsIn(plan, run, s) && s.machine.phase.Up?
    requires forall t :: t in s.machine.disk.tasks ==> s.machine.disk.tasks[t] != PostVerifying
    ensures s.machine.disk.keys == KeysOf(s.machine.disk.tasks)
  {
    var d := s.machine.disk;
    KeyedAlways(plan, run);
    EngineFacts(plan, run);
    forall k ensures k in d.keys <==> k in KeysOf(d.tasks) {
      assert TaskStatusOf(d, k.taskId) == Fold(d.history, k.taskId);
      if k in d.keys {
        KeysMeanSuccess(plan, run, k.taskId);
      }
      if k in KeysOf(d.tasks) {
        assert Keyed(d.keys, k.taskId);
      }
    }
  }
}
