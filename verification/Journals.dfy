/** The single durable writes, in the order in which they happen. Every store appends what it
    writes to one shared journal, so the journal tells which state a crash between any two writes
    leaves behind (persistence/event_store.py, persistence/state_store.py). */
module Journals {
  import opened Wrappers
  import opened StateMachine
  import opened Events
  import opened Histories
  import opened Disks

  /** One line appended to the ledger, or one committed row. `ToolRun` is not a write: it records
      that the executor returned, which no crash undoes. */
  datatype Entry =
    | EventWrite(record: Record)
    | TaskWrite(taskId: TaskId, status: TaskStatus)
    | WorkflowWrite(workflowStatus: WorkflowStatus, change: Change)
    | KeyWrite(key: Key, text: string)
    | ToolRun(task: TaskId, success: bool)

  class Journal {
    ghost var entries: seq<Entry>

    constructor ()
      ensures entries == []
    {
      entries := [];
    }
  }

  function Apply(d: Disk, e: Entry): Disk {
    match e
    case EventWrite(record) => Log(d, record)
    case TaskWrite(t, status) => PutTask(d, t, status)
    case WorkflowWrite(status, change) => PutWorkflow(d, status, change)
    case KeyWrite(k, text) => PutKey(d, k, text)
    case ToolRun(_, _) => d
  }

  /** What is on disk after the writes of `entries`. */
  function ApplyAll(d: Disk, entries: seq<Entry>): Disk {
    if entries == [] then d else Apply(ApplyAll(d, entries[..|entries| - 1]), entries[|entries| - 1])
  }

  lemma ApplyNext(d: Disk, entries: seq<Entry>, e: Entry)
    ensures ApplyAll(d, entries + [e]) == Apply(ApplyAll(d, entries), e)
  {
    assert (entries + [e])[..|entries|] == entries;
  }

  /** A durable state together with how it came about. */
  datatype Storage = Storage(disk: Disk, journal: seq<Entry>)

  const EMPTY := Storage(Disk([], None, map[], map[]), [])

  function Wrote(st: Storage, e: Entry): Storage {
    Storage(Apply(st.disk, e), st.journal + [e])
  }

  // ---- Operations: the event first, then the row ----

  /** `transition_task`. */
  function StoredMove(st: Storage, t: TaskId, target: TaskStatus): Storage {
    Wrote(Wrote(st, EventWrite(TaskRecord(t, TaskStatusOf(st.disk, t), target))), TaskWrite(t, target))
  }

  /** The workflow operations. */
  function StoredOp(st: Storage, op: WorkflowOp): Storage {
    Wrote(Wrote(st, EventWrite(OpRecord(op, WorkflowStatusOf(st.disk)))), WorkflowWrite(OpTarget(op), StatusOnly))
  }

  function StoredCreation(st: Storage, goal: string, repository: string): Storage {
    Wrote(Wrote(st, EventWrite(CreationRecord(goal, repository))), WorkflowWrite(Created, StatusOnly))
  }

  /** Registration: one PENDING row after the other. */
  function StoredTasks(st: Storage, ids: seq<TaskId>): Storage {
    if ids == [] then st else Wrote(StoredTasks(st, ids[..|ids| - 1]), TaskWrite(ids[|ids| - 1], Pending))
  }

  lemma StoredNext(st: Storage, ids: seq<TaskId>, i: nat)
    requires i <= |ids|
    ensures StoredTasks(st, []) == st
    ensures i < |ids| ==> StoredTasks(st, ids[..i + 1]) == Wrote(StoredTasks(st, ids[..i]), TaskWrite(ids[i], Pending))
  {
    if i < |ids| {
      assert ids[..i + 1][..i] == ids[..i];
    }
  }

  /** A replay up to its `k`-th event. */
  function StoredReplay(st: Storage, k: nat): Storage
    requires k <= |st.disk.history|
  {
    if k == 0 then st
    else
      var earlier, e := StoredReplay(st, k - 1), st.disk.history[k - 1];
      if e.taskId.Some? && Written(e, e.taskId.value).Some? then
        Wrote(earlier, TaskWrite(e.taskId.value, Written(e, e.taskId.value).value))
      else earlier
  }

  /** `reconstruct_state`: the task rows in the order of their events, and the workflow row last. */
  function StoredRecovery(st: Storage): Storage {
    var h := st.disk.history;
    if h == [] then st
    else Wrote(StoredReplay(st, |h|), WorkflowWrite(ReplayedWorkflow(h), LastSequence(|h| - 1)))
  }

  lemma {:induction false} ReplayStored(st: Storage, k: nat)
    requires k <= |st.disk.history|
    ensures StoredReplay(st, k).disk == ReplayPrefix(st.disk, k)
  {
    if k > 0 {
      ReplayStored(st, k - 1);
    }
  }

  /** Written out, recovery is the replay of the ledger. */
  lemma RecoveryStored(st: Storage)
    ensures StoredRecovery(st).disk == Replayed(st.disk)
  {
    if st.disk.history != [] {
      ReplayStored(st, |st.disk.history|);
      PartialReplay(st.disk, |st.disk.history|, 0);
    }
  }
}
