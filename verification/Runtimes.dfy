/** The durable runtime (experiments/durable.py). */
module Runtimes {
  import opened Wrappers
  import opened StateMachine
  import opened Events
  import opened Histories
  import opened Disks
  import opened Journals
  import opened Engines
  import opened Plans
  import opened Boards
  import opened Loops
  import opened Rounds
  import opened Outcomes
  import opened Cycles
  import opened RuntimeRuns
  import opened RuntimeSafety
  import opened Tracking
  import opened IdempotencyKeys
  import opened Schedulers

  /** The model provider, the boundary checks other than the duplicate check, and the executor:
      foreign code that answers the n-th attempt at a task as `script` says. */
  class World {
    const script: Script
    const journal: Journal
    var asked: map<TaskId, nat>

    constructor (script: Script, journal: Journal)
      ensures this.script == script && this.journal == journal && asked == map[]
    {
      this.script, this.journal, this.asked := script, journal, map[];
    }

    method Propose(t: TaskId) returns (answer: Answer)
      modifies this
      ensures answer == script(t, CountIn(old(asked), t))
      ensures asked == old(asked)[t := CountIn(old(asked), t) + 1]
    {
      answer := script(t, CountIn(asked, t));
      asked := asked[t := CountIn(asked, t) + 1];
    }

    /** The executor runs the proposed action. */
    method Execute(t: TaskId, answer: Answer) returns (success: bool)
      requires answer.Proposal?
      modifies journal
      ensures success == answer.succeeds
      ensures journal.entries == old(journal.entries) + [ToolRun(t, success)]
    {
      success := answer.succeeds;
      journal.entries := journal.entries + [ToolRun(t, success)];
    }
  }

  /** The status in which one attempt leaves its task. */
  function AttemptStatus(a: Answer, duplicate: bool): TaskStatus {
    if a.Proposal? && duplicate then Rejected else AfterAttempt(a)
  }

  /** Exactly one attempt at `t` has begun and ended since `before`, and left it in `status`. Only
      success has left a key. */
  ghost predicate OneAttempt(before: Disk, d: Disk, t: TaskId, status: TaskStatus) {
    && d.workflow == before.workflow
    && d.tasks == before.tasks[t := status]
    && d.keys == (if status == Committed then before.keys[Key(t, 1) := "committed"] else before.keys)
    && Starts(d.history) == Starts(before.history) + 1
    && Ends(d.history) == Ends(before.history) + 1
  }

  /** An attempt at `t` has begun since `before`, and has got to `status`. */
  ghost predicate Attempting(before: Disk, d: Disk, t: TaskId, status: TaskStatus) {
    && d.workflow == before.workflow
    && d.tasks == before.tasks[t := status]
    && d.keys == before.keys
    && Starts(d.history) == Starts(before.history) + 1
    && Ends(d.history) == Ends(before.history)
  }

  predicate EndsAttempt(s: TaskStatus) {
    s in {Committed, TaskStatus.Failed, Rejected, RetryWait}
  }

  lemma ClaimBegins(before: Disk, t: TaskId)
    ensures Attempting(before, Transitioned(before, t, Claimed), t, Claimed)
  {
    TallyMove(before, t, Claimed);
  }

  lemma AttemptMoves(before: Disk, d: Disk, t: TaskId, s: TaskStatus, target: TaskStatus)
    requires Attempting(before, d, t, s) && target != Claimed
    ensures !EndsAttempt(target) ==> Attempting(before, Transitioned(d, t, target), t, target)
    ensures EndsAttempt(target) && target != Committed ==> OneAttempt(before, Transitioned(d, t, target), t, target)
  {
    TallyMove(d, t, target);
    assert (before.tasks[t := s])[t := target] == before.tasks[t := target];
  }

  lemma AttemptCommits(before: Disk, d: Disk, t: TaskId)
    requires Attempting(before, d, t, PostVerifying)
    ensures OneAttempt(before, Transitioned(PutKey(d, Key(t, 1), "committed"), t, Committed), t, Committed)
  {
    TallyMove(PutKey(d, Key(t, 1), "committed"), t, Committed);
    assert (before.tasks[t := PostVerifying])[t := Committed] == before.tasks[t := Committed];
  }

  class DurableRuntime {
    const engine: OrchestratorEngine
    const scheduler: TaskScheduler
    const world: World

    constructor (engine: OrchestratorEngine, world: World)
      ensures this.engine == engine && this.world == world && this.scheduler.engine == engine
    {
      this.engine, this.world := engine, world;
      this.scheduler := new TaskScheduler(engine);
    }

    /** The scheduler works on this runtime's engine, and the executor enters its runs in the same journal. */
    ghost predicate Valid()
      reads this, scheduler, engine, engine.events
    {
      scheduler.engine == engine && engine.Valid() && world.journal == engine.journal
    }

    ghost function Current(): Board
      reads this, engine, engine.state, world
    {
      Board(engine.state.tasks, world.asked)
    }

    /** One move in the course of an attempt at `t` that began at `before`. */
    method Advance(t: TaskId, target: TaskStatus, ghost before: Storage, ghost s: TaskStatus,
                   ghost plan: Plan, ghost run: seq<Action>, ghost sofar: seq<Action>, ghost c: Control, ghost a: Action)
      returns (ghost longer: seq<Action>)
      requires Valid() && Attempting(before.disk, engine.OnDisk(), t, s) && TaskStep(s, target) && target !in {Claimed, Committed}
      requires Follows(plan, run, before, Idle, sofar, engine.Stored(), c)
      requires IsMoveAction(a) && MoveOf(c, a).Some? && Guard(plan, engine.OnDisk(), c, a)
      requires MoveOf(c, a).value.taskId == t && MoveOf(c, a).value.target == target
      modifies engine.events, engine.journal, engine.state`tasks
      ensures Valid()
      ensures !EndsAttempt(target) ==> Attempting(before.disk, engine.OnDisk(), t, target)
      ensures EndsAttempt(target) ==> OneAttempt(before.disk, engine.OnDisk(), t, target)
      ensures Follows(plan, run, before, Idle, longer, engine.Stored(), MoveOf(c, a).value.next)
    {
      hide Starts, Ends, Tracks, OneAttempt;
      ghost var st := engine.Stored();
      AttemptMoves(before.disk, st.disk, t, s, target);
      longer := MoveTask(engine, t, target, plan, sofar, c, a);
      FollowsOn(plan, run, before, Idle, sofar, st, c, longer, engine.Stored(), MoveOf(c, a).value.next);
    }

    /** READY to CLAIMED to PROPOSING. */
    method Begin(t: TaskId, ghost plan: Plan, ghost run: seq<Action>) returns (ghost longer: seq<Action>)
      requires Valid() && t in engine.state.tasks && engine.state.tasks[t] == Ready
      modifies engine.events, engine.journal, engine.state`tasks
      ensures Valid() && Attempting(old(engine.OnDisk()), engine.OnDisk(), t, Proposing)
      ensures Follows(plan, run, old(engine.Stored()), Idle, longer, engine.Stored(), Working(t, Proposing))
    {
      hide Starts, Ends, Tracks, Attempting;
      ghost var before := engine.Stored();
      ClaimBegins(before.disk, t);
      longer := MoveTask(engine, t, Claimed, plan, run, Idle, Claim(t));
      longer := Advance(t, Proposing, before, Claimed, plan, run, longer, Working(t, Claimed), Action.Propose);
    }

    /** From EXECUTING on: the executor runs, and its result decides between commit and retry. */
    method Conclude(t: TaskId, answer: Answer, ghost before: Storage,
                    ghost plan: Plan, ghost run: seq<Action>, ghost sofar: seq<Action>)
      returns (success: bool, ghost longer: seq<Action>)
      requires Valid() && Attempting(before.disk, engine.OnDisk(), t, Executing) && answer.Proposal?
      requires Follows(plan, run, before, Idle, sofar, engine.Stored(), Working(t, Executing))
      modifies engine.events, engine.journal, engine.state`tasks, engine.state`idempotency
      ensures Valid() && success == answer.succeeds
      ensures OneAttempt(before.disk, engine.OnDisk(), t, if success then Committed else RetryWait)
      ensures Follows(plan, run, before, Idle, longer, engine.Stored(), Idle)
    {
      hide Starts, Ends, Tracks, Attempting, OneAttempt;
      longer := ToolFollows(plan, run, before, sofar, engine.Stored(), t, answer.succeeds);
      success := world.Execute(t, answer);
      longer := Advance(t, PostVerifying, before, Executing, plan, run, longer, Ran(t, success), PostVerify);
      if success {
        longer := CommitSuccess(t, before, plan, run, longer);
      } else {
        longer := Advance(t, RetryWait, before, PostVerifying, plan, run, longer, Checked(t, false), Retry);
      }
    }

    /** The idempotency key, and then COMMITTED. */
    method CommitSuccess(t: TaskId, ghost before: Storage, ghost plan: Plan, ghost run: seq<Action>, ghost sofar: seq<Action>)
      returns (ghost longer: seq<Action>)
      requires Valid() && Attempting(before.disk, engine.OnDisk(), t, PostVerifying)
      requires Follows(plan, run, before, Idle, sofar, engine.Stored(), Checked(t, true))
      modifies engine.events, engine.journal, engine.state`tasks, engine.state`idempotency
      ensures Valid() && OneAttempt(before.disk, engine.OnDisk(), t, Committed)
      ensures Follows(plan, run, before, Idle, longer, engine.Stored(), Idle)
    {
      hide Starts, Ends, Tracks, OneAttempt;
      AttemptCommits(before.disk, engine.OnDisk(), t);
      ghost var written := KeyFollows(plan, run, before, sofar, engine.Stored(), t);
      engine.state.RecordIdempotency(TaskKey(t), COMMITTED);
      ghost var st := engine.Stored();
      longer := MoveTask(engine, t, Committed, plan, written, Recorded(t), Commit);
      FollowsOn(plan, run, before, Idle, written, st, Recorded(t), longer, engine.Stored(), Idle);
    }

    /** The rest of an attempt once there is a proposal. */
    method VerifyAndExecute(t: TaskId, answer: Answer, ghost before: Storage,
                            ghost plan: Plan, ghost run: seq<Action>, ghost sofar: seq<Action>)
      returns (success: bool, ghost longer: seq<Action>)
      requires Valid() && Attempting(before.disk, engine.OnDisk(), t, Proposing) && answer.Proposal?
      requires Follows(plan, run, before, Idle, sofar, engine.Stored(), Working(t, Proposing))
      modifies engine.events, engine.journal, engine.state`tasks, engine.state`idempotency
      ensures Valid()
      ensures
        var status := AttemptStatus(answer, IsDuplicate(old(engine.OnDisk()), TaskKey(t)));
        OneAttempt(before.disk, engine.OnDisk(), t, status) && success == (status == Committed)
      ensures Follows(plan, run, before, Idle, longer, engine.Stored(), Idle)
    {
      hide Starts, Ends, Tracks;
      longer := Advance(t, Verifying, before, Proposing, plan, run, sofar, Working(t, Proposing), Verify);
      var duplicate := engine.state.IsDuplicate(TaskKey(t));
      if !answer.acceptable || duplicate {
        longer := Advance(t, Rejected, before, Verifying, plan, run, longer, Working(t, Verifying), Refuse);
        success := false;
      } else {
        longer := Advance(t, Executing, before, Verifying, plan, run, longer, Working(t, Verifying), Execute);
        success, longer := Conclude(t, answer, before, plan, run, longer);
      }
    }

    /** Claim, propose, verify, execute, and commit or retry. The task has to be READY. Without a
        proposal it FAILED, a refused or duplicate one leaves it REJECTED, a failed execution in
        RETRY_WAIT and a successful one COMMITTED, with its key. */
    method ExecuteTask(t: TaskId, ghost plan: Plan, ghost run: seq<Action>)
      returns (success: bool, ghost longer: seq<Action>)
      requires Valid() && t in engine.state.tasks && engine.state.tasks[t] == Ready
      modifies engine.events, engine.journal, engine.state`tasks, engine.state`idempotency, world
      ensures Valid()
      ensures t in engine.state.tasks
      ensures
        var answer := world.script(t, CountIn(old(world.asked), t));
        var status := engine.state.tasks[t];
        && OneAttempt(old(engine.OnDisk()), engine.OnDisk(), t, status) && success == (status == Committed)
        && (answer.NoProposal? ==> status == TaskStatus.Failed)
        && (answer.Proposal? && (!answer.acceptable || old(KeyCommitted(engine.state.idempotency, Key(t, 1)))) ==>
              status == Rejected)
        && (answer.Proposal? && answer.acceptable && !old(KeyCommitted(engine.state.idempotency, Key(t, 1))) ==>
              status == if answer.succeeds then Committed else RetryWait)
      ensures world.asked == old(world.asked)[t := CountIn(old(world.asked), t) + 1]
      ensures Follows(plan, run, old(engine.Stored()), Idle, longer, engine.Stored(), Idle)
    {
      hide Starts, Ends, Tracks;
      ghost var before := engine.Stored();
      longer := Begin(t, plan, run);
      var answer := world.Propose(t);
      if answer.NoProposal? {
        longer := Advance(t, TaskStatus.Failed, before, Proposing, plan, run, longer, Working(t, Proposing), ProposalFails);
        success := false;
      } else {
        success, longer := VerifyAndExecute(t, answer, before, plan, run, longer);
      }
    }

    /** In the course of a run the duplicate check never rejects: an attempt ends as the world has it. */
    method ExecuteTracked(t: TaskId, ghost plan: Plan, ghost run: seq<Action>)
      returns (ghost longer: seq<Action>)
      requires Valid() && Tracks(plan, run, engine.Stored(), Idle)
      requires t in engine.state.tasks && engine.state.tasks[t] == Ready
      modifies engine.events, engine.journal, engine.state`tasks, engine.state`idempotency, world
      ensures Valid() && Tracks(plan, longer, engine.Stored(), Idle)
      ensures Current() == AttemptOne(world.script, old(Current()), t)
      ensures Attempted(old(engine.OnDisk()), engine.OnDisk(), 1)
    {
      hide Tracks, Starts, Ends;
      TrackNoDuplicate(plan, run, engine.Stored(), t);
      var success;
      success, longer := ExecuteTask(t, plan, run);
    }

    /** One attempt at every READY task, in whatever order the rows came in. */
    method ExecuteReady(ready: seq<TaskId>, ghost plan: Plan, ghost run: seq<Action>)
      returns (ghost longer: seq<Action>)
      requires Valid() && Tracks(plan, run, engine.Stored(), Idle) && NoDuplicates(ready)
      requires forall t :: t in ready <==> t in engine.state.tasks && engine.state.tasks[t] == Ready
      requires world.asked.Keys <= engine.state.tasks.Keys
      modifies engine.events, engine.journal, engine.state`tasks, engine.state`idempotency, world
      ensures Valid() && Tracks(plan, longer, engine.Stored(), Idle)
      ensures Current() == Executed(world.script, old(Current()))
      ensures Attempted(old(engine.OnDisk()), engine.OnDisk(), |ready|)
    {
      longer := run;
      ghost var board, before := Current(), engine.OnDisk();
      for i := 0 to |ready|
        invariant Valid() && Tracks(plan, longer, engine.Stored(), Idle)
        invariant Current() == AttemptSome(world.script, board, ready, i)
        invariant Attempted(before, engine.OnDisk(), i)
      {
        ReadyAt(board.rows, ready, i);
        AttemptSomeAt(world.script, board, ready, i, ready[i]);
        longer := ExecuteTracked(ready[i], plan, longer);
      }
      AttemptAll(world.script, board, ready);
    }

    /** Promotion and requeue, and the tasks that are READY then. */
    method Prepare(plan: Plan, ghost run: seq<Action>)
      returns (promoted: nat, retried: nat, ready: seq<TaskId>, ghost longer: seq<Action>)
      requires Valid()
      modifies engine.events, engine.journal, engine.state`tasks
      ensures Valid() && engine.state.tasks == Dispatch(plan, old(engine.state.tasks))
      ensures NoAttempts(old(engine.OnDisk()), engine.OnDisk())
      ensures Follows(plan, run, old(engine.Stored()), Idle, longer, engine.Stored(), Idle)
      ensures NoDuplicates(ready) && |ready| <= |engine.state.tasks|
      ensures forall t :: t in ready <==> t in engine.state.tasks && engine.state.tasks[t] == Ready
      ensures |ready| == 0 <==> NoneReady(engine.state.tasks)
      ensures |ready| == 0 ==> promoted == 0 && retried == 0
    {
      ghost var rows: Rows := engine.state.tasks;
      promoted, longer := scheduler.PromotePending(plan, run);
      retried, longer := scheduler.RequeueRetryWait(plan, longer);
      ready := scheduler.GetReady();
      ReadyList(engine.state.tasks, ready);
      if |ready| == 0 {
        ProgressMeansReady(plan, rows);
      }
    }

    /** One iteration of the execution loop. */
    method Iterate(plan: Plan, ghost run: seq<Action>)
      returns (progress: bool, calls: nat, ghost longer: seq<Action>)
      requires Valid() && Tracks(plan, run, engine.Stored(), Idle)
      requires world.asked.Keys <= engine.state.tasks.Keys
      modifies engine.events, engine.journal, engine.state`tasks, engine.state`idempotency, world
      ensures Valid() && Tracks(plan, longer, engine.Stored(), Idle)
      ensures progress <==> !Idles(plan, old(Current()))
      ensures Current() ==
        if progress then Next(plan, world.script, old(Current()))
        else Board(Dispatch(plan, old(Current()).rows), old(Current()).asked)
      ensures Attempted(old(engine.OnDisk()), engine.OnDisk(), calls) && calls <= |engine.state.tasks|
      ensures world.asked.Keys <= engine.state.tasks.Keys
    {
      ghost var board := Current();
      DispatchKeys(plan, board.rows);
      var promoted, retried, ready;
      promoted, retried, ready, longer := Prepare(plan, run);
      if |ready| == 0 && promoted == 0 && retried == 0 {
        progress, calls := false, 0;
      } else {
        ghost var dispatched := Current();
        longer := ExecuteReady(ready, plan, longer);
        ExecutedKeys(world.script, dispatched);
        progress, calls := true, |ready|;
      }
    }

    /** One iteration of a loop that has `fuel` iterations left and will end on board `end`. */
    method Round(plan: Plan, ghost fuel: nat, ghost end: Board, ghost run: seq<Action>)
      returns (progress: bool, calls: nat, ghost longer: seq<Action>)
      requires Valid() && Tracks(plan, run, engine.Stored(), Idle)
      requires fuel > 0 && EndsOn(plan, world.script, Current(), fuel, end)
      modifies engine.events, engine.journal, engine.state`tasks, engine.state`idempotency, world
      ensures Valid() && Tracks(plan, longer, engine.Stored(), Idle)
      ensures if progress then EndsOn(plan, world.script, Current(), fuel - 1, end) else Current() == end
      ensures Attempted(old(engine.OnDisk()), engine.OnDisk(), calls) && calls <= |plan|
    {
      ghost var board := Current();
      IdsBound(plan);
      RoundKeys(plan, world.script, board);
      progress, calls, longer := Iterate(plan, run);
      assert |engine.state.tasks| == |engine.state.tasks.Keys|;
      if progress {
        LoopGoesOn(plan, world.script, board, fuel, end);
      } else {
        LoopStops(plan, world.script, board, fuel);
      }
    }

    /** The execution loop: at most 10 iterations for each entry of the plan. */
    method RunLoop(plan: Plan, ghost run: seq<Action>) returns (modelCalls: nat, ghost longer: seq<Action>)
      requires Valid() && Tracks(plan, run, engine.Stored(), Idle)
      requires Current() == Registered(plan)
      modifies engine.events, engine.journal, engine.state`tasks, engine.state`idempotency, world
      ensures Valid() && Tracks(plan, longer, engine.Stored(), Idle)
      ensures Current() == FinalBoard(plan, world.script)
      ensures Attempted(old(engine.OnDisk()), engine.OnDisk(), modelCalls)
      ensures modelCalls <= CallLimit(|plan| * MAX_ROUNDS, |plan|)
    {
      hide Starts, Ends, Tracks, Loop;
      modelCalls, longer := 0, run;
      var maxIterations := |plan| * MAX_ROUNDS;
      var iteration := 0;
      ghost var before := engine.OnDisk();
      ghost var end := Loop(plan, world.script, Registered(plan), maxIterations);
      RegisteredKeys(plan);
      ghost var fuel: nat := maxIterations;
      while iteration < maxIterations
        invariant 0 <= iteration <= maxIterations && fuel == maxIterations - iteration
        invariant Valid() && Tracks(plan, longer, engine.Stored(), Idle)
        invariant EndsOn(plan, world.script, Current(), fuel, end)
        invariant Attempted(before, engine.OnDisk(), modelCalls)
        invariant modelCalls <= CallLimit(iteration, |plan|)
      {
        var progress, calls;
        progress, calls, longer := Round(plan, fuel, end, longer);
        fuel := fuel - 1;
        iteration := iteration + 1;
        CallLimitGrows(iteration, maxIterations, |plan|);
        modelCalls := modelCalls + calls;
        if !progress {
          return;
        }
      }
      LoopDone(plan, world.script, Current());
    }

    /** A workflow transition that the table allows, carrying the run along. */
    method MoveWorkflow(target: WorkflowStatus, ghost plan: Plan, ghost run: seq<Action>)
      returns (ghost longer: seq<Action>)
      requires Valid() && Tracks(plan, run, engine.Stored(), Idle)
      requires WorkflowStep(WorkflowStatusOf(engine.OnDisk()), target)
      modifies engine.events, engine.journal, engine.state`workflow
      ensures Valid() && Tracks(plan, longer, engine.Stored(), Idle)
      ensures WorkflowMoved(old(engine.OnDisk()), engine.OnDisk(), target)
    {
      ghost var st := engine.Stored();
      longer := TrackOperate(plan, run, st, Transition(target));
      WorkflowMoves(st.disk, target);
      var outcome := engine.TransitionWorkflow(target);
      assert outcome.Pass?;
    }

    /** Creation and compilation, before there are task rows. */
    method CreateAndCompile(goal: string, repository: string, ghost plan: Plan) returns (ghost run: seq<Action>)
      requires Valid() && engine.Stored() == EMPTY
      modifies engine.events, engine.journal, engine.state`workflow
      ensures Valid() && Tracks(plan, run, engine.Stored(), Idle)
      ensures WorkflowStatusOf(engine.OnDisk()) == Compiled
      ensures engine.OnDisk().tasks == map[] && NoTaskEvents(engine.OnDisk().history)
    {
      TrackStart(plan);
      run := TrackCreate(plan, [], engine.Stored(), goal, repository);
      engine.CreateWorkflow(goal, repository);
      assert NoTaskEvents(engine.OnDisk().history);
      run := MoveWorkflow(Compiled, plan, run);
    }

    /** The task rows of a compiled workflow. */
    method Register(plan: Plan, ghost run: seq<Action>) returns (ghost longer: seq<Action>)
      requires Valid() && Tracks(plan, run, engine.Stored(), Idle)
      requires engine.OnDisk().tasks == map[] && NoTaskEvents(engine.OnDisk().history)
      modifies engine.journal, engine.state`tasks
      ensures Valid() && Tracks(plan, longer, engine.Stored(), Idle)
      ensures engine.OnDisk() == old(engine.OnDisk()).(tasks := Registered(plan).rows)
    {
      hide Tracks;
      NothingEvented(engine.OnDisk().history);
      longer := TrackRegistration(plan, run, engine.Stored(), IdList(plan));
      engine.RegisterTasks(IdList(plan));
      assert engine.state.tasks == Registered(plan).rows;
    }

    /** Everything up to the execution loop. */
    method Setup(goal: string, repository: string, plan: Plan) returns (ghost run: seq<Action>)
      requires Valid() && engine.Stored() == EMPTY
      modifies engine.events, engine.journal, engine.state`workflow, engine.state`tasks
      ensures Valid() && Tracks(plan, run, engine.Stored(), Idle)
      ensures WorkflowStatusOf(engine.OnDisk()) == Running
      ensures engine.state.tasks == Registered(plan).rows
      ensures Starts(engine.OnDisk().history) == 0 && Ends(engine.OnDisk().history) == 0
    {
      hide Starts, Ends, Tracks;
      run := CreateAndCompile(goal, repository, plan);
      run := Register(plan, run);
      run := MoveWorkflow(Planned, plan, run);
      run := MoveWorkflow(Running, plan, run);
      NoAttemptsYet(engine.OnDisk().history);
    }

    /** How many task rows have a status. */
    method CountRows(status: TaskStatus) returns (n: nat)
      ensures n == |With(engine.state.tasks, status)|
    {
      n := 0;
      var rows := engine.state.GetTasksByWorkflow();
      ghost var counted: set<TaskId> := {};
      for i := 0 to |rows|
        invariant n == |counted|
        invariant forall t :: t in counted <==> t in rows[..i] && engine.state.tasks[t] == status
      {
        assert rows[..i + 1] == rows[..i] + [rows[i]];
        assert rows[i] !in rows[..i];
        if engine.state.tasks[rows[i]] == status {
          n := n + 1;
          counted := counted + {rows[i]};
        }
      }
      assert rows[..|rows|] == rows;
      assert counted == With(engine.state.tasks, status);
    }

    /** The final status and the report. */
    method Finish(plan: Plan, modelCalls: nat, ghost run: seq<Action>)
      returns (report: Report, ghost longer: seq<Action>)
      requires Valid() && Tracks(plan, run, engine.Stored(), Idle)
      requires WorkflowStatusOf(engine.OnDisk()) == Running && engine.state.tasks.Keys == Ids(plan)
      modifies engine.events, engine.journal, engine.state`workflow
      ensures Valid() && Tracks(plan, longer, engine.Stored(), Idle)
      ensures WorkflowMoved(old(engine.OnDisk()), engine.OnDisk(), if report.success then Completed else WorkflowStatus.Failed)
      ensures report.success <==> DistinctIds(plan) && AllCommitted(plan, engine.state.tasks)
      ensures Summarises(report, |plan|, engine.state.tasks, modelCalls)
    {
      var committed := CountRows(Committed);
      var failed := CountRows(TaskStatus.Failed);
      var blocked := CountRows(Blocked);
      AllDone(plan, engine.state.tasks);
      if committed == |plan| {
        longer := MoveWorkflow(Completed, plan, run);
        report := Report(true, NoError, |plan|, committed, failed, blocked, modelCalls);
      } else {
        longer := MoveWorkflow(WorkflowStatus.Failed, plan, run);
        var error := if failed + blocked == |plan| then Unrecoverable else Incomplete;
        report := Report(false, error, |plan|, committed, failed, blocked, modelCalls);
      }
    }

    /** Loop and final status, for a plan that has a topological order. */
    method RunPlan(plan: Plan, ghost order: seq<TaskId>, ghost run: seq<Action>)
      returns (report: Report, ghost longer: seq<Action>)
      requires Valid() && Tracks(plan, run, engine.Stored(), Idle)
      requires Current() == Registered(plan) && WorkflowStatusOf(engine.OnDisk()) == Running
      requires Starts(engine.OnDisk().history) == 0 && Ends(engine.OnDisk().history) == 0
      requires Topological(DepMap(plan), order)
      modifies engine.events, engine.journal, engine.state, world
      ensures Valid() && Tracks(plan, longer, engine.Stored(), Idle)
      ensures !report.error.Circular? && Current() == FinalBoard(plan, world.script)
      ensures report.success <==> DistinctIds(plan) && AllCommitted(plan, engine.state.tasks)
      ensures Summarises(report, |plan|, engine.state.tasks, Starts(engine.OnDisk().history))
      ensures Starts(engine.OnDisk().history) == Ends(engine.OnDisk().history) <= 10 * |plan| * |plan|
      ensures WorkflowStatusOf(engine.OnDisk()) == if report.success then Completed else WorkflowStatus.Failed
      ensures ReplayedWorkflow(engine.OnDisk().history) == WorkflowStatusOf(engine.OnDisk())
      ensures AtRest(engine.state.tasks)
      ensures Promises(plan, world.script, engine.state.tasks, report.success)
    {
      hide Starts, Ends, Tracks, Loop, Promises, Summarises, AllCommitted, AtRest;
      var modelCalls;
      WholeLoop(plan, world.script, order);
      CallsBound(|plan|);
      modelCalls, longer := RunLoop(plan, run);
      report, longer := Finish(plan, modelCalls, longer);
    }

    /** Runs a plan to its end. Whatever the model and the executor answer, no transition is
        refused, every write is a step of a run in the sense of `RuntimeRuns`, wherever a crash
        falls between two writes a replay can repair the rows, and the rows end up as the loop
        function has them. Success is reported exactly when the plan's ids are distinct and all its
        tasks are COMMITTED. A circular plan is reported with all its cycles. */
    method RunGoal(goal: string, repository: string, plan: Plan)
      returns (report: Report, ghost run: seq<Action>)
      requires Valid() && engine.Stored() == EMPTY && world.asked == map[]
      modifies engine.events, engine.journal, engine.state, world
      ensures Valid() && Tracks(plan, run, engine.Stored(), Idle)
      ensures CrashSafe(engine.journal.entries)
      ensures report.error.Circular? <==> !Acyclic(DepMap(plan))
      ensures report.error.Circular? ==>
        !report.success && Current() == Registered(plan) && TellsCycles(DepMap(plan), report.error.cycles)
      ensures !report.error.Circular? ==>
        && Current() == FinalBoard(plan, world.script)
        && (report.success <==> DistinctIds(plan) && AllCommitted(plan, engine.state.tasks))
        && Summarises(report, |plan|, engine.state.tasks, Starts(engine.OnDisk().history))
        && Starts(engine.OnDisk().history) == Ends(engine.OnDisk().history) <= 10 * |plan| * |plan|
      ensures WorkflowStatusOf(engine.OnDisk()) == if report.success then Completed else WorkflowStatus.Failed
      ensures ReplayedWorkflow(engine.OnDisk().history) == WorkflowStatusOf(engine.OnDisk())
      ensures AtRest(engine.state.tasks) && EndsAsTold(world.script, Current())
      ensures engine.state.idempotency == KeysOf(engine.state.tasks)
      ensures !report.error.Circular? ==> Promises(plan, world.script, engine.state.tasks, report.success)
    {
      hide Starts, Ends, Tracks, Loop, Promises, Summarises, AllCommitted, AtRest, EndsAsTold, CrashSafe, AllReported, Acyclic;
      run := Setup(goal, repository, plan);
      var cycles;
      ghost var order;
      cycles, order := scheduler.DetectCircularDeps(plan);
      if |cycles| > 0 {
        run := MoveWorkflow(WorkflowStatus.Failed, plan, run);
        report := Report(false, Circular(cycles), |plan|, 0, 0, 0, 0);
        RegisteredTold(plan, world.script);
      } else {
        report, run := RunPlan(plan, order, run);
        FinalBoardTold(plan, world.script);
      }
      TrackedFacts(plan, run, engine.Stored());
    }
  }

  /** Every reported list is a cycle, the reports are complete with respect to some order of the
      tasks, and without the edges that close them no cycle is left. */
  ghost predicate TellsCycles(g: Graph, cycles: seq<seq<TaskId>>) {
    && cycles != []
    && (forall c :: c in cycles ==> SimpleCycle(g, c))
    && (exists order :: AllReported(g, cycles, order))
    && Acyclic(Opened(g, cycles))
  }

  /** What the run says about the journal and the keys of a process at rest. */
  lemma TrackedFacts(plan: Plan, run: seq<Action>, st: Storage)
    requires Tracks(plan, run, st, Idle) && AtRest(st.disk.tasks)
    ensures CrashSafe(st.journal) && st.disk.keys == KeysOf(st.disk.tasks)
  {
    TrackedIsCrashSafe(plan, run, st, Idle);
    KeysAreSuccesses(plan, run, End(plan, run));
  }

  lemma RegisteredTold(plan: Plan, script: Script)
    ensures AtRest(Registered(plan).rows) && EndsAsTold(script, Registered(plan))
  {
  }

  lemma CallsBound(n: nat)
    ensures CallLimit(n * MAX_ROUNDS, n) == 10 * n * n
  {
    CallLimitIsProduct(n * MAX_ROUNDS, n);
  }

  datatype RunError = NoError | Circular(cycles: seq<seq<TaskId>>) | Unrecoverable | Incomplete

  datatype Report = Report(
    success: bool,
    error: RunError,
    total: nat,
    committed: nat,
    failed: nat,
    blocked: nat,
    modelCalls: nat)

  /** The figures of a report on rows `rows`. */
  ghost predicate Summarises(r: Report, total: nat, rows: Rows, modelCalls: nat) {
    && r.total == total
    && r.committed == |With(rows, Committed)|
    && r.failed == |With(rows, TaskStatus.Failed)|
    && r.blocked == |With(rows, Blocked)|
    && r.modelCalls == modelCalls
    && r.error == (if r.success then NoError else if r.failed + r.blocked == total then Unrecoverable else Incomplete)
  }

  /** As many COMMITTED rows as plan entries: all tasks are done, and no id is repeated. */
  lemma AllDone(plan: Plan, rows: Rows)
    requires rows.Keys == Ids(plan)
    ensures |With(rows, Committed)| == |plan| <==> DistinctIds(plan) && AllCommitted(plan, rows)
  {
    var done := With(rows, Committed);
    IdsBound(plan);
    assert done <= Ids(plan);
    SubsetSize(done, Ids(plan));
    if AllCommitted(plan, rows) {
      assert done == Ids(plan);
    } else {
      assert done != Ids(plan);
    }
  }

  lemma {:induction false} SubsetSize(a: set<TaskId>, b: set<TaskId>)
    requires a <= b
    ensures |a| <= |b| && (|a| == |b| <==> a == b)
  {
    if a != {} {
      var x :| x in a;
      SubsetSize(a - {x}, b - {x});
      assert a == (a - {x}) + {x} && b == (b - {x}) + {x};
    } else if b != {} {
      assert |b| > 0;
    }
  }

  ghost predicate NoTaskEvents(h: History) {
    forall k :: 0 <= k < |h| ==> h[k].taskId == None
  }

  /** One workflow event was logged and the workflow row has status `target`; nothing else changed. */
  ghost predicate WorkflowMoved(before: Disk, d: Disk, target: WorkflowStatus) {
    && d.tasks == before.tasks && d.keys == before.keys
    && WorkflowStatusOf(d) == target == ReplayedWorkflow(d.history)
    && Starts(d.history) == Starts(before.history) && Ends(d.history) == Ends(before.history)
    && (NoTaskEvents(before.history) ==> NoTaskEvents(d.history))
  }

  lemma WorkflowMoves(d: Disk, target: WorkflowStatus)
    ensures WorkflowMoved(d, Operated(d, Transition(target)), target)
  {
    var e := OpRecord(Transition(target), WorkflowStatusOf(d));
    assert (d.history + [e])[..|d.history|] == d.history;
    CountAppend(d.history, e, Claimed);
    CountAppend(d.history, e, Committed);
    CountAppend(d.history, e, TaskStatus.Failed);
    CountAppend(d.history, e, Rejected);
    CountAppend(d.history, e, RetryWait);
  }

  lemma NothingEvented(h: History)
    requires NoTaskEvents(h)
    ensures forall t: TaskId :: !Evented(h, t)
  {
  }

  lemma {:induction false} NothingCounted(h: History, s: TaskStatus)
    requires NoTaskEvents(h)
    ensures Count(h, s) == 0
  {
    if h != [] {
      NothingCounted(h[..|h| - 1], s);
    }
  }

  lemma NoAttemptsYet(h: History)
    requires NoTaskEvents(h)
    ensures Starts(h) == 0 && Ends(h) == 0
  {
    NothingCounted(h, Claimed);
    NothingCounted(h, Committed);
    NothingCounted(h, TaskStatus.Failed);
    NothingCounted(h, Rejected);
    NothingCounted(h, RetryWait);
  }

  /** `n` calls in each of `iterations` iterations. */
  function CallLimit(iterations: nat, n: nat): nat {
    if iterations == 0 then 0 else CallLimit(iterations - 1, n) + n
  }

  lemma {:induction false} CallLimitIsProduct(iterations: nat, n: nat)
    ensures CallLimit(iterations, n) == iterations * n
  {
    if iterations > 0 {
      CallLimitIsProduct(iterations - 1, n);
    }
  }

  lemma {:induction false} CallLimitGrows(i: nat, j: nat, n: nat)
    requires i <= j
    ensures CallLimit(i, n) <= CallLimit(j, n)
  {
    if i < j {
      CallLimitGrows(i, j - 1, n);
    }
  }

  /** What a sound plan can rely on: success if every task succeeds in time, success exactly if
      the schedule fits into the iteration bound, and isolation of failures if the loop stalls. */
  ghost predicate Promises(plan: Plan, script: Script, rows: Rows, success: bool) {
    && (forall wins, finish :: Premises(plan, script, wins, finish) ==> (success <==> FitsBound(plan, finish)))
    && (Sound(plan) && AllSucceedInTime(plan, script) ==> success)
    && (Sound(plan) && EndsStalled(plan, script, Registered(plan), 10 * |plan|) ==> Isolated(plan, rows))
  }

  lemma LoopKeepsPromises(plan: Plan, script: Script, order: seq<TaskId>)
    requires Topological(DepMap(plan), order)
    ensures
      var rows := FinalBoard(plan, script).rows;
      Promises(plan, script, rows, DistinctIds(plan) && AllCommitted(plan, rows))
  {
    var fuel := 10 * |plan|;
    var end := Loop(plan, script, Registered(plan), fuel);
    forall wins, finish | Premises(plan, script, wins, finish)
      ensures DistinctIds(plan) && AllCommitted(plan, end.rows) <==> FitsBound(plan, finish)
    {
      BoundSufficesIff(plan, script, wins, finish);
    }
    if Sound(plan) {
      if AllSucceedInTime(plan, script) {
        RetryBoundSuffices(plan, script, order);
        assert AllCommitted(plan, end.rows);
      }
      if EndsStalled(plan, script, Registered(plan), fuel) {
        StalledLoopIsolates(plan, script, fuel, order);
        assert Isolated(plan, end.rows);
      }
    }
  }

  /** What the loop leaves behind when it starts on a registered plan. */
  lemma WholeLoop(plan: Plan, script: Script, order: seq<TaskId>)
    requires Topological(DepMap(plan), order)
    ensures
      var rows := FinalBoard(plan, script).rows;
      && Promises(plan, script, rows, DistinctIds(plan) && AllCommitted(plan, rows))
      && AtRest(rows) && rows.Keys == Ids(plan)
  {
    LoopKeepsPromises(plan, script, order);
    RegisteredOk(plan);
    LoopComesToRest(plan, script, Registered(plan), |plan| * MAX_ROUNDS);
  }

  /** `n` attempts have begun and ended since `before`. */
  predicate Attempted(before: Disk, d: Disk, n: nat) {
    && d.workflow == before.workflow
    && Starts(d.history) == Starts(before.history) + n
    && Ends(d.history) == Ends(before.history) + n
  }
}
