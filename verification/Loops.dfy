/** The DAG execution loop as a function of the task rows and of what the model and the
    executor answer (experiments/durable.py). */
module Loops {
  import opened StateMachine
  import opened Events
  import opened Plans
  import opened Boards

  /** What one attempt at a task meets: no proposal (an exception), or a proposal that the
      boundary checks other than the duplicate check accept or not, and whose execution
      succeeds or not. */
  datatype Answer = NoProposal | Proposal(acceptable: bool, succeeds: bool)

  /** The answer to the n-th attempt, counted from 0, at each task. Every behaviour of the model
      and the executor in one run is such a function. */
  type Script = (TaskId, nat) -> Answer

  /** The task rows, and how many attempts each task has had. */
  datatype Board = Board(rows: Rows, asked: map<TaskId, nat>)

  /** How many attempts `t` has had, according to a board and to the counts it holds. */
  function Asked(b: Board, t: TaskId): nat {
    CountIn(b.asked, t)
  }

  function CountIn(asked: map<TaskId, nat>, t: TaskId): nat {
    if t in asked then asked[t] else 0
  }

  function Requeued(rows: Rows): Rows {
    map t | t in rows :: if rows[t] == RetryWait then Ready else rows[t]
  }

  predicate NoneReady(rows: Rows) {
    forall t :: t in rows ==> rows[t] != Ready
  }

  function AfterAttempt(a: Answer): TaskStatus {
    match a
    case NoProposal => TaskStatus.Failed
    case Proposal(acceptable, succeeds) =>
      if !acceptable then Rejected else if succeeds then Committed else RetryWait
  }

  /** One attempt at every READY task. */
  function Executed(script: Script, b: Board): Board {
    Board(map t | t in b.rows :: if b.rows[t] == Ready then AfterAttempt(script(t, Asked(b, t))) else b.rows[t],
          b.asked + map t | t in b.rows && b.rows[t] == Ready :: Asked(b, t) + 1)
  }

  /** The board after one attempt at `t`. */
  function AttemptOne(script: Script, b: Board, t: TaskId): Board {
    Board(b.rows[t := AfterAttempt(script(t, Asked(b, t)))], b.asked[t := Asked(b, t) + 1])
  }

  /** The board after one attempt at each of the first `k` tasks of `s`. */
  function AttemptSome(script: Script, b: Board, s: seq<TaskId>, k: nat): Board
    requires k <= |s|
  {
    if k == 0 then b else AttemptOne(script, AttemptSome(script, b, s, k - 1), s[k - 1])
  }

  /** What the attempts do to one task: those in the list are attempted once, the others not at all. */
  lemma {:induction false} AttemptSomeAt(script: Script, b: Board, s: seq<TaskId>, k: nat, t: TaskId)
    requires NoDuplicates(s) && k <= |s| && t in b.rows
    ensures
      var done := AttemptSome(script, b, s, k);
      && t in done.rows
      && done.rows[t] == (if t in s[..k] then AfterAttempt(script(t, Asked(b, t))) else b.rows[t])
      && Asked(done, t) == Asked(b, t) + (if t in s[..k] then 1 else 0)
  {
    if k > 0 {
      AttemptSomeAt(script, b, s, k - 1, t);
      assert s[..k] == s[..k - 1] + [s[k - 1]];
      assert s[k - 1] !in s[..k - 1];
    }
  }

  lemma {:induction false} AttemptSomeKeys(script: Script, b: Board, s: seq<TaskId>, k: nat)
    requires k <= |s| && forall t :: t in s ==> t in b.rows
    ensures AttemptSome(script, b, s, k).rows.Keys == b.rows.Keys
    ensures AttemptSome(script, b, s, k).asked.Keys == b.asked.Keys + (set t | t in s[..k])
  {
    if k > 0 {
      AttemptSomeKeys(script, b, s, k - 1);
      assert s[k - 1] in s;
      assert s[..k] == s[..k - 1] + [s[k - 1]];
    }
  }

  lemma ExecutedKeys(script: Script, b: Board)
    ensures Executed(script, b).rows.Keys == b.rows.Keys && |Executed(script, b).rows| == |b.rows|
    ensures b.asked.Keys <= b.rows.Keys ==> Executed(script, b).asked.Keys <= b.rows.Keys
  {
    assert Executed(script, b).rows.Keys == b.rows.Keys;
    assert |Executed(script, b).rows| == |Executed(script, b).rows.Keys| && |b.rows| == |b.rows.Keys|;
  }

  /** Attempting the READY tasks one after the other is one simultaneous update. */
  lemma AttemptAll(script: Script, b: Board, s: seq<TaskId>)
    requires NoDuplicates(s) && b.asked.Keys <= b.rows.Keys
    requires forall t :: t in s <==> t in b.rows && b.rows[t] == Ready
    ensures AttemptSome(script, b, s, |s|) == Executed(script, b)
  {
    var done, all := AttemptSome(script, b, s, |s|), Executed(script, b);
    assert s[..|s|] == s;
    AttemptSomeKeys(script, b, s, |s|);
    ExecutedAsked(script, b, s);
    forall t | t in b.rows ensures done.rows[t] == all.rows[t] && Asked(done, t) == Asked(all, t) {
      AttemptSomeAt(script, b, s, |s|, t);
    }
    BoardsEqual(done, all);
  }

  lemma ExecutedAsked(script: Script, b: Board, s: seq<TaskId>)
    requires forall t :: t in s <==> t in b.rows && b.rows[t] == Ready
    ensures Executed(script, b).asked.Keys == b.asked.Keys + (set t | t in s)
    ensures Executed(script, b).rows.Keys == b.rows.Keys
  {
  }

  lemma BoardsEqual(a: Board, b: Board)
    requires a.rows.Keys == b.rows.Keys && a.asked.Keys == b.asked.Keys <= b.rows.Keys
    requires forall t :: t in b.rows ==> a.rows[t] == b.rows[t] && Asked(a, t) == Asked(b, t)
    ensures a == b
  {
    assert a.rows == b.rows;
    assert forall t :: t in b.asked ==> t in b.rows && a.asked[t] == b.asked[t];
    assert a.asked == b.asked;
  }

  /** The rows on which one iteration dispatches: promoted, then requeued. */
  function Dispatch(plan: Plan, rows: Rows): Rows {
    Requeued(Promote(plan, rows, |plan|))
  }

  /** The board after an iteration that found something ready. */
  function Next(plan: Plan, script: Script, b: Board): Board {
    Executed(script, Board(Dispatch(plan, b.rows), b.asked))
  }

  /** An iteration finds nothing to do. */
  predicate Idles(plan: Plan, b: Board) {
    NoneReady(Dispatch(plan, b.rows))
  }

  /** An iteration that promotes or requeues a task finds it READY. */
  lemma ProgressMeansReady(plan: Plan, rows: Rows)
    requires NoneReady(Dispatch(plan, rows))
    ensures Promoted(plan, rows, |plan|) == 0
    ensures forall t :: t in Promote(plan, rows, |plan|) ==> Promote(plan, rows, |plan|)[t] != RetryWait
  {
    var promoted := Promote(plan, rows, |plan|);
    assert forall t :: t in promoted ==> t in Dispatch(plan, rows) && Dispatch(plan, rows)[t] != Ready;
    if Promoted(plan, rows, |plan|) > 0 {
      PromotedMeansReady(plan, rows, |plan|);
    }
  }

  lemma DispatchKeys(plan: Plan, rows: Rows)
    ensures Dispatch(plan, rows).Keys == rows.Keys
  {
    PromoteKeepsOutcomes(plan, rows, |plan|);
  }

  lemma ReadyAt(rows: Rows, ready: seq<TaskId>, i: nat)
    requires NoDuplicates(ready) && i < |ready|
    requires forall t :: t in ready <==> t in rows && rows[t] == Ready
    ensures ready[i] !in ready[..i] && ready[i] in rows && rows[ready[i]] == Ready
  {
    assert ready[i] in ready;
  }

  lemma ReadyList(rows: Rows, ready: seq<TaskId>)
    requires forall t :: t in ready <==> t in rows && rows[t] == Ready
    ensures NoneReady(rows) <==> |ready| == 0
  {
    if |ready| > 0 {
      assert ready[0] in ready;
    }
  }

  /** The board after at most `fuel` iterations. An iteration that finds nothing ready ends the loop. */
  function Loop(plan: Plan, script: Script, b: Board, fuel: nat): Board
    decreases fuel
  {
    if fuel == 0 then b
    else if Idles(plan, b) then Board(Dispatch(plan, b.rows), b.asked)
    else Loop(plan, script, Next(plan, script, b), fuel - 1)
  }

  /** From board `b`, with `fuel` iterations left, the loop ends on board `end`. */
  ghost predicate EndsOn(plan: Plan, script: Script, b: Board, fuel: nat, end: Board) {
    && b.rows.Keys == Ids(plan) && b.asked.Keys <= b.rows.Keys
    && Loop(plan, script, b, fuel) == end
  }

  lemma LoopDone(plan: Plan, script: Script, b: Board)
    ensures Loop(plan, script, b, 0) == b
  {
  }

  lemma LoopStops(plan: Plan, script: Script, b: Board, fuel: nat)
    requires fuel > 0 && Idles(plan, b)
    ensures Loop(plan, script, b, fuel) == Board(Dispatch(plan, b.rows), b.asked)
  {
  }

  lemma LoopGoesOn(plan: Plan, script: Script, b: Board, fuel: nat, end: Board)
    requires fuel > 0 && !Idles(plan, b) && Loop(plan, script, b, fuel) == end
    ensures Loop(plan, script, Next(plan, script, b), fuel - 1) == end
  {
  }

  /** The board right after registration. */
  function Registered(plan: Plan): Board {
    Board(map t | t in Ids(plan) :: Pending, map[])
  }

  lemma RegisteredKeys(plan: Plan)
    ensures Registered(plan).rows.Keys == Ids(plan) && Registered(plan).asked.Keys == {}
  {
  }

  lemma RoundKeys(plan: Plan, script: Script, b: Board)
    ensures Dispatch(plan, b.rows).Keys == b.rows.Keys && Next(plan, script, b).rows.Keys == b.rows.Keys
  {
    DispatchKeys(plan, b.rows);
    ExecutedKeys(script, Board(Dispatch(plan, b.rows), b.asked));
  }

  // ---- Statuses at rest ----

  /** The statuses a task can have between two iterations. */
  predicate Resting(s: TaskStatus) {
    s in {Pending, Committed, TaskStatus.Failed, Rejected, RetryWait, Blocked}
  }

  ghost predicate AtRest(rows: Rows) {
    forall t :: t in rows ==> Resting(rows[t])
  }

  lemma DispatchShape(plan: Plan, rows: Rows)
    requires AtRest(rows)
    ensures Dispatch(plan, rows).Keys == rows.Keys
    ensures SameOutcomes(rows, Dispatch(plan, rows))
    ensures forall t :: t in rows ==>
      var s := Dispatch(plan, rows)[t];
      && (s == Ready || Resting(s)) && s != RetryWait
      && (rows[t] == RetryWait ==> s == Ready)
      && (rows[t] == Rejected <==> s == Rejected)
  {
    PromoteKeepsOutcomes(plan, rows, |plan|);
  }

  lemma ExecutedComesToRest(script: Script, b: Board)
    requires forall t :: t in b.rows ==> b.rows[t] == Ready || Resting(b.rows[t])
    ensures AtRest(Executed(script, b).rows) && Executed(script, b).rows.Keys == b.rows.Keys
  {
  }

  lemma IdleComesToRest(plan: Plan, b: Board)
    requires AtRest(b.rows) && Idles(plan, b)
    ensures AtRest(Dispatch(plan, b.rows)) && Dispatch(plan, b.rows).Keys == b.rows.Keys
  {
    DispatchShape(plan, b.rows);
  }

  lemma NextComesToRest(plan: Plan, script: Script, b: Board)
    requires AtRest(b.rows)
    ensures AtRest(Next(plan, script, b).rows) && Next(plan, script, b).rows.Keys == b.rows.Keys
  {
    DispatchShape(plan, b.rows);
    ExecutedComesToRest(script, Board(Dispatch(plan, b.rows), b.asked));
  }

  /** No iteration leaves a task READY or in the middle of an attempt. */
  lemma {:induction false} LoopComesToRest(plan: Plan, script: Script, b: Board, fuel: nat)
    requires AtRest(b.rows)
    ensures AtRest(Loop(plan, script, b, fuel).rows) && Loop(plan, script, b, fuel).rows.Keys == b.rows.Keys
    decreases fuel
  {
    hide AtRest, Idles, Next, Dispatch;
    if fuel > 0 {
      if Idles(plan, b) {
        IdleComesToRest(plan, b);
      } else {
        NextComesToRest(plan, script, b);
        LoopComesToRest(plan, script, Next(plan, script, b), fuel - 1);
      }
    }
  }

  // ---- Dependencies ----

  /** A task that is beyond PENDING and not BLOCKED has all its dependencies COMMITTED, and a
      BLOCKED one has a FAILED dependency. */
  ghost predicate DependenciesOk(plan: Plan, rows: Rows) {
    forall i :: 0 <= i < |plan| && plan[i].id in rows ==>
      var s := rows[plan[i].id];
      && (s != Pending && s != Blocked ==> Satisfied(plan[i], rows))
      && (s == Blocked ==> HasFailedDep(plan[i], rows))
  }

  /** Nothing that was COMMITTED or FAILED becomes anything else. */
  ghost predicate OutcomesKept(a: Rows, b: Rows) {
    && a.Keys <= b.Keys
    && forall t :: t in a && (a[t] == Committed || a[t] == TaskStatus.Failed) ==> b[t] == a[t]
  }

  lemma DependenciesCarryOver(task: Task, a: Rows, b: Rows)
    requires OutcomesKept(a, b)
    ensures Satisfied(task, a) ==> Satisfied(task, b)
    ensures HasFailedDep(task, a) ==> HasFailedDep(task, b)
  {
  }

  lemma DependenciesDispatch(plan: Plan, rows: Rows)
    requires DistinctIds(plan) && AtRest(rows) && DependenciesOk(plan, rows)
    ensures DependenciesOk(plan, Dispatch(plan, rows))
  {
    var after := Dispatch(plan, rows);
    DispatchShape(plan, rows);
    forall i | 0 <= i < |plan| && plan[i].id in after
      ensures after[plan[i].id] != Pending && after[plan[i].id] != Blocked ==> Satisfied(plan[i], after)
      ensures after[plan[i].id] == Blocked ==> HasFailedDep(plan[i], after)
    {
      PromotedRow(plan, rows, |plan|, i);
      DecisionsDependOnOutcomes(plan[i], rows, after);
    }
  }

  lemma DependenciesExecuted(plan: Plan, script: Script, b: Board)
    requires DependenciesOk(plan, b.rows)
    ensures DependenciesOk(plan, Executed(script, b).rows)
  {
    var after := Executed(script, b).rows;
    forall i | 0 <= i < |plan| && plan[i].id in after
      ensures after[plan[i].id] != Pending && after[plan[i].id] != Blocked ==> Satisfied(plan[i], after)
      ensures after[plan[i].id] == Blocked ==> HasFailedDep(plan[i], after)
    {
      DependenciesCarryOver(plan[i], b.rows, after);
    }
  }

  lemma DependenciesNext(plan: Plan, script: Script, b: Board)
    requires DistinctIds(plan) && AtRest(b.rows) && DependenciesOk(plan, b.rows)
    ensures DependenciesOk(plan, Next(plan, script, b).rows)
  {
    DependenciesDispatch(plan, b.rows);
    DependenciesExecuted(plan, script, Board(Dispatch(plan, b.rows), b.asked));
  }

  /** Over whole runs of the loop, tasks get going only on COMMITTED dependencies and get blocked
      only by FAILED ones. */
  lemma {:induction false} LoopDependencies(plan: Plan, script: Script, b: Board, fuel: nat)
    requires DistinctIds(plan) && AtRest(b.rows) && DependenciesOk(plan, b.rows)
    ensures DependenciesOk(plan, Loop(plan, script, b, fuel).rows)
    decreases fuel
  {
    hide AtRest, DependenciesOk, Idles, Next, Dispatch;
    if fuel > 0 {
      if Idles(plan, b) {
        DependenciesDispatch(plan, b.rows);
      } else {
        NextComesToRest(plan, script, b);
        DependenciesNext(plan, script, b);
        LoopDependencies(plan, script, Next(plan, script, b), fuel - 1);
      }
    }
  }

  // ---- Failure isolation ----

  /** Nothing is READY or waiting for a retry, and no promotion rule applies. */
  ghost predicate Stalled(plan: Plan, rows: Rows) {
    && rows.Keys == Ids(plan)
    && AtRest(rows)
    && (forall t :: t in rows ==> rows[t] != RetryWait)
    && Settled(plan, rows, |plan|)
  }

  /** Whether the loop ends by finding nothing ready, rather than by the iteration bound. */
  predicate EndsStalled(plan: Plan, script: Script, b: Board, fuel: nat)
    decreases fuel
  {
    fuel > 0 && (Idles(plan, b) || EndsStalled(plan, script, Next(plan, script, b), fuel - 1))
  }

  lemma DispatchStalls(plan: Plan, rows: Rows)
    requires AtRest(rows) && rows.Keys == Ids(plan) && NoneReady(Dispatch(plan, rows))
    ensures Stalled(plan, Dispatch(plan, rows))
  {
    DispatchShape(plan, rows);
    PromoteSettles(plan, rows, |plan|);
    var promoted := Promote(plan, rows, |plan|);
    assert forall t :: t in rows ==> promoted[t] != RetryWait by {
      assert forall t :: t in rows && promoted[t] == RetryWait ==> Dispatch(plan, rows)[t] == Ready;
    }
    assert Dispatch(plan, rows) == promoted;
  }

  lemma {:induction false} StalledLoop(plan: Plan, script: Script, b: Board, fuel: nat)
    requires AtRest(b.rows) && b.rows.Keys == Ids(plan) && EndsStalled(plan, script, b, fuel)
    ensures Stalled(plan, Loop(plan, script, b, fuel).rows)
    decreases fuel
  {
    if Idles(plan, b) {
      DispatchStalls(plan, b.rows);
    } else {
      NextComesToRest(plan, script, b);
      StalledLoop(plan, script, Next(plan, script, b), fuel - 1);
    }
  }

  ghost predicate WalkBetween(g: Graph, w: seq<TaskId>, t: TaskId, u: TaskId) {
    w != [] && Walk(g, w) && w[0] == t && w[|w| - 1] == u
  }

  /** `u` is `t` or one of its transitive dependencies. */
  ghost predicate Reaches(g: Graph, t: TaskId, u: TaskId) {
    exists w :: WalkBetween(g, w, t, u)
  }

  predicate Lost(rows: Rows, u: TaskId) {
    u in rows && (rows[u] == TaskStatus.Failed || rows[u] == Rejected)
  }

  lemma ReachesSelf(g: Graph, t: TaskId)
    ensures Reaches(g, t, t)
  {
    assert WalkBetween(g, [t], t, t);
  }

  lemma ReachesStep(g: Graph, t: TaskId, d: TaskId, u: TaskId)
    requires Edge(g, t, d) && Reaches(g, d, u)
    ensures Reaches(g, t, u)
  {
    var w :| WalkBetween(g, w, d, u);
    assert WalkBetween(g, [t] + w, t, u);
  }

  /** On a stalled board a task that is neither COMMITTED nor lost depends on one that is not COMMITTED. */
  lemma UncommittedDependency(plan: Plan, rows: Rows, t: TaskId) returns (d: TaskId)
    requires DistinctIds(plan) && Closed(plan) && Stalled(plan, rows) && DependenciesOk(plan, rows)
    requires t in rows && rows[t] != Committed && !Lost(rows, t)
    ensures Edge(DepMap(plan), t, d) && d in rows && rows[d] != Committed
  {
    var i := IndexOfTask(plan, t);
    d :| d in plan[i].dependencies && rows[d] != Committed;
    DepMapIsRelation(plan, i, d);
  }

  /** In a stalled acyclic plan a task that is not COMMITTED reaches a lost one. */
  lemma {:induction false} StalledMeansLost(plan: Plan, rows: Rows, order: seq<TaskId>, p: nat) returns (u: TaskId)
    requires Ordered(plan, order)
    requires Stalled(plan, rows) && DependenciesOk(plan, rows)
    requires p < |order| && order[p] in rows && rows[order[p]] != Committed
    ensures Lost(rows, u) && Reaches(DepMap(plan), order[p], u)
  {
    var g, t := DepMap(plan), order[p];
    if Lost(rows, t) {
      ReachesSelf(g, t);
      return t;
    }
    var d := UncommittedDependency(plan, rows, t);
    assert d in order[..p];
    var q :| 0 <= q < p && order[q] == d;
    u := StalledMeansLost(plan, rows, order, q);
    ReachesStep(g, t, d, u);
  }

  /** Everything a COMMITTED task depends on is COMMITTED. */
  lemma {:induction false} CommittedAllTheWay(plan: Plan, rows: Rows, w: seq<TaskId>)
    requires DistinctIds(plan) && DependenciesOk(plan, rows) && rows.Keys == Ids(plan)
    requires w != [] && Walk(DepMap(plan), w) && w[0] in rows && rows[w[0]] == Committed
    ensures w[|w| - 1] in rows && rows[w[|w| - 1]] == Committed
  {
    if |w| > 1 {
      var i := IndexOfTask(plan, w[0]);
      assert Edge(DepMap(plan), w[0], w[1]);
      DepMapIsRelation(plan, i, w[1]);
      CommittedAllTheWay(plan, rows, w[1..]);
    }
  }

  /** Failure isolation. When an acyclic, closed plan stalls, a task is COMMITTED exactly when
      neither it nor anything it transitively depends on is FAILED or REJECTED. */
  lemma FailureIsolation(plan: Plan, rows: Rows, order: seq<TaskId>, t: TaskId)
    requires Ordered(plan, order)
    requires Stalled(plan, rows) && DependenciesOk(plan, rows) && t in rows
    ensures rows[t] == Committed <==> forall u :: Reaches(DepMap(plan), t, u) ==> !Lost(rows, u)
  {
    DepMapIsInternal(plan);
    if rows[t] == Committed {
      forall u | Reaches(DepMap(plan), t, u) ensures !Lost(rows, u) {
        var w :| WalkBetween(DepMap(plan), w, t, u);
        CommittedAllTheWay(plan, rows, w);
      }
    } else {
      var p :| 0 <= p < |order| && order[p] == t;
      var u := StalledMeansLost(plan, rows, order, p);
    }
  }

  // ---- The retry bound ----

  /** The iterations of the loop for each task of the plan. */
  const MAX_ROUNDS := 10

  /** The first success of `t` comes at attempt `k`, and no proposal is missing or refused before. */
  ghost predicate SucceedsAt(script: Script, t: TaskId, k: nat) {
    && script(t, k) == Proposal(true, true)
    && forall j: nat :: j < k ==> script(t, j) == Proposal(true, false)
  }

  /** Every task succeeds by its 10th attempt. */
  ghost predicate AllSucceedInTime(plan: Plan, script: Script) {
    forall t :: t in Ids(plan) ==> exists k :: 0 <= k < 10 && SucceedsAt(script, t, k)
  }

  /** The row and the attempts of `t` fit a task whose first success comes at attempt `k`. */
  ghost predicate OnTrack(b: Board, t: TaskId, k: nat) {
    t in b.rows &&
    match b.rows[t]
    case Pending => Asked(b, t) == 0
    case Ready => Asked(b, t) <= k
    case RetryWait => Asked(b, t) <= k
    case Committed => Asked(b, t) <= k + 1
    case _ => false
  }

  ghost predicate Tracked(script: Script, b: Board, t: TaskId) {
    exists k :: 0 <= k < MAX_ROUNDS && SucceedsAt(script, t, k) && OnTrack(b, t, k)
  }

  ghost predicate AllOnTrack(plan: Plan, script: Script, b: Board) {
    b.rows.Keys == Ids(plan) && forall t :: t in b.rows ==> Tracked(script, b, t)
  }

  ghost predicate AllCommitted(plan: Plan, rows: Rows) {
    forall t :: t in Ids(plan) ==> t in rows && rows[t] == Committed
  }

  /** The attempts at the first `n` tasks of the plan. */
  function Attempts(plan: Plan, b: Board, n: nat): nat
    requires n <= |plan|
  {
    if n == 0 then 0 else Attempts(plan, b, n - 1) + Asked(b, plan[n - 1].id)
  }

  lemma TrackDispatch(plan: Plan, script: Script, b: Board)
    requires DistinctIds(plan) && AllOnTrack(plan, script, b) && NoneReady(b.rows)
    ensures AllOnTrack(plan, script, Board(Dispatch(plan, b.rows), b.asked))
  {
    var after := Board(Dispatch(plan, b.rows), b.asked);
    TrackedAtRest(script, b);
    DispatchShape(plan, b.rows);
    forall t | t in b.rows ensures Tracked(script, after, t) {
      var k :| 0 <= k < MAX_ROUNDS && SucceedsAt(script, t, k) && OnTrack(b, t, k);
      NeverBlocked(plan, b.rows, t);
      PromoteKeepsOutcomes(plan, b.rows, |plan|);
      assert OnTrack(after, t, k);
    }
  }

  lemma TrackedAtRest(script: Script, b: Board)
    requires NoneReady(b.rows) && forall t :: t in b.rows ==> Tracked(script, b, t)
    ensures AtRest(b.rows)
    ensures forall t :: t in b.rows ==> b.rows[t] in {Pending, Committed, RetryWait}
  {
    forall t | t in b.rows ensures b.rows[t] in {Pending, Committed, RetryWait} {
      var k :| 0 <= k < MAX_ROUNDS && SucceedsAt(script, t, k) && OnTrack(b, t, k);
    }
  }

  /** Without a FAILED task nothing gets BLOCKED. */
  lemma NeverBlocked(plan: Plan, rows: Rows, t: TaskId)
    requires DistinctIds(plan) && t in rows && rows[t] != Blocked
    requires forall u :: u in rows ==> rows[u] != TaskStatus.Failed
    ensures t in Dispatch(plan, rows) && Dispatch(plan, rows)[t] != Blocked
  {
    PromoteIsSimultaneous(plan, rows);
  }

  lemma TrackAttempt(script: Script, b: Board, t: TaskId)
    requires Tracked(script, b, t)
    ensures Tracked(script, Executed(script, b), t) && Executed(script, b).rows[t] != Ready
  {
    var k :| 0 <= k < MAX_ROUNDS && SucceedsAt(script, t, k) && OnTrack(b, t, k);
    assert OnTrack(Executed(script, b), t, k);
  }

  lemma TrackExecuted(plan: Plan, script: Script, b: Board)
    requires AllOnTrack(plan, script, b)
    ensures AllOnTrack(plan, script, Executed(script, b)) && NoneReady(Executed(script, b).rows)
  {
    forall t | t in b.rows
      ensures Tracked(script, Executed(script, b), t) && Executed(script, b).rows[t] != Ready
    {
      TrackAttempt(script, b, t);
    }
  }

  lemma {:induction false} AttemptsGrow(plan: Plan, script: Script, b: Board, n: nat)
    requires n <= |plan| && b.rows.Keys == Ids(plan)
    ensures Attempts(plan, Executed(script, b), n) >= Attempts(plan, b, n)
    ensures (exists i :: 0 <= i < n && plan[i].id in b.rows && b.rows[plan[i].id] == Ready) ==>
      Attempts(plan, Executed(script, b), n) > Attempts(plan, b, n)
  {
    if n > 0 {
      AttemptsGrow(plan, script, b, n - 1);
    }
  }

  lemma {:induction false} AttemptsBound(plan: Plan, script: Script, b: Board, n: nat)
    requires n <= |plan| && AllOnTrack(plan, script, b)
    ensures Attempts(plan, b, n) <= MAX_ROUNDS * n
    ensures Attempts(plan, b, n) == MAX_ROUNDS * n ==> forall i :: 0 <= i < n ==> b.rows[plan[i].id] == Committed
  {
    if n > 0 {
      AttemptsBound(plan, script, b, n - 1);
      var t := plan[n - 1].id;
      assert plan[n - 1] in plan && t in b.rows && Tracked(script, b, t);
      var k :| 0 <= k < MAX_ROUNDS && SucceedsAt(script, t, k) && OnTrack(b, t, k);
    }
  }

  /** Each iteration keeps the board on track. */
  lemma {:induction false} LoopStaysOnTrack(plan: Plan, script: Script, b: Board, fuel: nat)
    requires DistinctIds(plan) && AllOnTrack(plan, script, b) && NoneReady(b.rows)
    ensures AllOnTrack(plan, script, Loop(plan, script, b, fuel))
    decreases fuel
  {
    hide AllOnTrack;
    if fuel > 0 {
      if Idles(plan, b) {
        TrackDispatch(plan, script, b);
      } else {
        OnTrackRound(plan, script, b);
        LoopStaysOnTrack(plan, script, Next(plan, script, b), fuel - 1);
      }
    }
  }

  /** Each iteration that does not end the loop makes an attempt. */
  lemma {:induction false} LoopMakesAttempts(plan: Plan, script: Script, b: Board, fuel: nat)
    requires DistinctIds(plan) && AllOnTrack(plan, script, b) && NoneReady(b.rows)
    requires !EndsStalled(plan, script, b, fuel)
    ensures Attempts(plan, Loop(plan, script, b, fuel), |plan|) >= Attempts(plan, b, |plan|) + fuel
    decreases fuel
  {
    if fuel > 0 {
      OnTrackRound(plan, script, b);
      LoopMakesAttempts(plan, script, Next(plan, script, b), fuel - 1);
    }
  }

  /** A stalled board on which no task was lost is complete. */
  lemma StalledMeansDone(plan: Plan, script: Script, b: Board, order: seq<TaskId>)
    requires Ordered(plan, order)
    requires AllOnTrack(plan, script, b) && Stalled(plan, b.rows) && DependenciesOk(plan, b.rows)
    ensures AllCommitted(plan, b.rows)
  {
    TrackedAtRest(script, b);
    forall t | t in Ids(plan) ensures t in b.rows && b.rows[t] == Committed {
      DepMapIsInternal(plan);
      var p :| 0 <= p < |order| && order[p] == t;
      if b.rows[t] != Committed {
        var u := StalledMeansLost(plan, b.rows, order, p);
      }
    }
  }

  lemma EnoughAttempts(plan: Plan, script: Script, b: Board)
    requires AllOnTrack(plan, script, b) && Attempts(plan, b, |plan|) >= MAX_ROUNDS * |plan|
    ensures AllCommitted(plan, b.rows)
  {
    AttemptsBound(plan, script, b, |plan|);
    forall t | t in Ids(plan) ensures t in b.rows && b.rows[t] == Committed {
      var i := IndexOfTask(plan, t);
    }
  }

  lemma OnTrackRound(plan: Plan, script: Script, b: Board)
    requires DistinctIds(plan) && AllOnTrack(plan, script, b) && NoneReady(b.rows) && !Idles(plan, b)
    ensures AllOnTrack(plan, script, Next(plan, script, b)) && NoneReady(Next(plan, script, b).rows)
    ensures Attempts(plan, Next(plan, script, b), |plan|) > Attempts(plan, b, |plan|)
  {
    var d := Board(Dispatch(plan, b.rows), b.asked);
    TrackDispatch(plan, script, b);
    TrackExecuted(plan, script, d);
    SameAttempts(plan, b, d, |plan|);
    SomeAttempt(plan, script, d);
  }

  lemma SomeAttempt(plan: Plan, script: Script, d: Board)
    requires d.rows.Keys == Ids(plan) && !NoneReady(d.rows)
    ensures Attempts(plan, Executed(script, d), |plan|) > Attempts(plan, d, |plan|)
  {
    var t :| t in d.rows && d.rows[t] == Ready;
    var i := IndexOfTask(plan, t);
    AttemptsGrow(plan, script, d, |plan|);
  }

  lemma {:induction false} SameAttempts(plan: Plan, a: Board, b: Board, n: nat)
    requires n <= |plan| && a.asked == b.asked
    ensures Attempts(plan, a, n) == Attempts(plan, b, n)
  {
    if n > 0 {
      SameAttempts(plan, a, b, n - 1);
    }
  }

  lemma RegisteredOnTrack(plan: Plan, script: Script)
    requires AllSucceedInTime(plan, script)
    ensures AllOnTrack(plan, script, Registered(plan)) && NoneReady(Registered(plan).rows)
  {
    var b := Registered(plan);
    forall t | t in b.rows ensures Tracked(script, b, t) {
      var k :| 0 <= k < 10 && SucceedsAt(script, t, k);
      assert OnTrack(b, t, k);
    }
  }

  /** Where the execution loop of a registered plan ends. */
  function FinalBoard(plan: Plan, script: Script): (b: Board)
    ensures b == Loop(plan, script, Registered(plan), 10 * |plan|)
  {
    Loop(plan, script, Registered(plan), |plan| * MAX_ROUNDS)
  }

  /** The bound of 10 iterations for each task is enough: if every task of an acyclic, closed plan
      succeeds by its 10th attempt, all of them are committed. */
  lemma RetryBoundSuffices(plan: Plan, script: Script, order: seq<TaskId>)
    requires Ordered(plan, order)
    requires AllSucceedInTime(plan, script)
    ensures AllCommitted(plan, FinalBoard(plan, script).rows)
  {
    RegisteredOnTrack(plan, script);
    RegisteredOk(plan);
    hide AllOnTrack, AtRest, DependenciesOk, AllSucceedInTime, AllCommitted;
    var b := Registered(plan);
    var fuel := |plan| * MAX_ROUNDS;
    var end := Loop(plan, script, b, fuel);
    LoopStaysOnTrack(plan, script, b, fuel);
    if EndsStalled(plan, script, b, fuel) {
      StalledLoop(plan, script, b, fuel);
      LoopDependencies(plan, script, b, fuel);
      StalledMeansDone(plan, script, end, order);
    } else {
      LoopMakesAttempts(plan, script, b, fuel);
      EnoughAttempts(plan, script, end);
    }
  }

  /** Every task is COMMITTED exactly when nothing it transitively depends on, itself included, is lost. */
  ghost predicate Isolated(plan: Plan, rows: Rows) {
    forall t :: t in rows ==> (rows[t] == Committed <==> forall u :: Reaches(DepMap(plan), t, u) ==> !Lost(rows, u))
  }

  /** When the loop stalls on a sound plan, failures have stayed isolated. */
  lemma StalledLoopIsolates(plan: Plan, script: Script, fuel: nat, order: seq<TaskId>)
    requires Ordered(plan, order)
    requires EndsStalled(plan, script, Registered(plan), fuel)
    ensures Isolated(plan, Loop(plan, script, Registered(plan), fuel).rows)
  {
    var rows := Loop(plan, script, Registered(plan), fuel).rows;
    RegisteredOk(plan);
    StalledLoop(plan, script, Registered(plan), fuel);
    LoopDependencies(plan, script, Registered(plan), fuel);
    forall t | t in rows ensures rows[t] == Committed <==> forall u :: Reaches(DepMap(plan), t, u) ==> !Lost(rows, u) {
      FailureIsolation(plan, rows, order, t);
    }
  }

  lemma RegisteredOk(plan: Plan)
    ensures AtRest(Registered(plan).rows) && DependenciesOk(plan, Registered(plan).rows)
  {
  }

  /** The bound is tight: a single task that fails its first 10 executions is executed 10 times and
      left in RETRY_WAIT, even if the 11th execution would succeed. */
  lemma RetryBoundIsTight(task: Task, script: Script)
    requires task.dependencies == []
    requires forall j: nat :: j < 10 ==> script(task.id, j) == Proposal(true, false)
    ensures FinalBoard([task], script).rows == map[task.id := RetryWait]
    ensures Asked(FinalBoard([task], script), task.id) == 10
  {
    KeepsRetrying(task, script, Registered([task]), MAX_ROUNDS);
  }

  lemma SingleDispatch(task: Task, rows: Rows)
    requires task.dependencies == []
    requires rows == map[task.id := RetryWait] || rows == map[task.id := Pending]
    ensures Dispatch([task], rows) == map[task.id := Ready]
  {
    assert Promote([task], rows, 0) == rows;
    assert Promote([task], rows, 1) == PromoteOne(task, rows);
  }

  lemma {:induction false} KeepsRetrying(task: Task, script: Script, b: Board, fuel: nat)
    requires task.dependencies == []
    requires forall j: nat :: j < MAX_ROUNDS ==> script(task.id, j) == Proposal(true, false)
    requires Asked(b, task.id) + fuel == MAX_ROUNDS
    requires b.rows == map[task.id := RetryWait] || (b.rows == map[task.id := Pending] && fuel > 0)
    ensures Loop([task], script, b, fuel).rows == map[task.id := RetryWait]
    ensures Asked(Loop([task], script, b, fuel), task.id) == MAX_ROUNDS
    decreases fuel
  {
    hide Idles, Next, Dispatch;
    if fuel > 0 {
      SingleRound(task, script, b);
      KeepsRetrying(task, script, Next([task], script, b), fuel - 1);
    }
  }

  lemma SingleRound(task: Task, script: Script, b: Board)
    requires task.dependencies == [] && script(task.id, Asked(b, task.id)) == Proposal(true, false)
    requires b.rows == map[task.id := RetryWait] || b.rows == map[task.id := Pending]
    ensures !Idles([task], b)
    ensures Next([task], script, b).rows == map[task.id := RetryWait]
    ensures Asked(Next([task], script, b), task.id) == Asked(b, task.id) + 1
  {
    SingleDispatch(task, b.rows);
    var d := Board(map[task.id := Ready], b.asked);
    assert d.rows[task.id] == Ready && Next([task], script, b) == Executed(script, d);
  }
}
