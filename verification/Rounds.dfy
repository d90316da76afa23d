/** In which iteration of the execution loop each task is committed, and so exactly when the
    iteration bound is enough (experiments/durable.py). */
module Rounds {
  import opened StateMachine
  import opened Events
  import opened Plans
  import opened Boards
  import opened Loops

  /** A number for each task: `wins(t)` counts the failed executions of `t` before its first
      success, `finish(t)` is the iteration, counted from 1, in which `t` is committed. */
  type Numbers = TaskId -> nat

  /** The last iteration in which a task of `s` finishes. */
  function Latest(finish: Numbers, s: seq<TaskId>): nat {
    if s == [] then 0
    else
      var earlier, last := Latest(finish, s[..|s| - 1]), finish(s[|s| - 1]);
      if last > earlier then last else earlier
  }

  /** Each task starts in the iteration after the one in which its last dependency finishes, and
      then takes one iteration for each of its executions. */
  ghost predicate Schedule(plan: Plan, wins: Numbers, finish: Numbers) {
    forall i :: 0 <= i < |plan| ==>
      finish(plan[i].id) == Latest(finish, plan[i].dependencies) + wins(plan[i].id) + 1
  }

  /** No proposal is missing or refused, and each task first succeeds at attempt `wins(t)`, counted from 0. */
  ghost predicate AllWin(plan: Plan, script: Script, wins: Numbers) {
    forall i :: 0 <= i < |plan| ==> SucceedsAt(script, plan[i].id, wins(plan[i].id))
  }

  ghost predicate Premises(plan: Plan, script: Script, wins: Numbers, finish: Numbers) {
    DistinctIds(plan) && Closed(plan) && AllWin(plan, script, wins) && Schedule(plan, wins, finish)
  }

  lemma {:induction false} LatestBound(finish: Numbers, s: seq<TaskId>, r: nat)
    ensures Latest(finish, s) <= r <==> forall d :: d in s ==> finish(d) <= r
  {
    if s != [] {
      LatestBound(finish, s[..|s| - 1], r);
      assert s == s[..|s| - 1] + [s[|s| - 1]];
    }
  }

  /** The status and the attempts of a task after `r` iterations. */
  ghost predicate TaskAt(b: Board, t: TaskId, start: nat, finish: nat, r: nat) {
    && t in b.rows
    && if r <= start then b.rows[t] == Pending && Asked(b, t) == 0
       else if r < finish then b.rows[t] == RetryWait && Asked(b, t) == r - start
       else b.rows[t] == Committed
  }

  ghost predicate BoardAt(plan: Plan, finish: Numbers, b: Board, r: nat) {
    && b.rows.Keys == Ids(plan)
    && forall i :: 0 <= i < |plan| ==>
         TaskAt(b, plan[i].id, Latest(finish, plan[i].dependencies), finish(plan[i].id), r)
  }

  /** A task is committed after `r` iterations exactly if it finishes by then. */
  lemma CommittedAt(plan: Plan, script: Script, wins: Numbers, finish: Numbers, b: Board, r: nat, t: TaskId)
    requires Premises(plan, script, wins, finish) && BoardAt(plan, finish, b, r) && t in Ids(plan)
    ensures t in b.rows && b.rows[t] in {Pending, RetryWait, Committed}
    ensures b.rows[t] == Committed <==> finish(t) <= r
  {
    var i := IndexOfTask(plan, t);
    assert TaskAt(b, plan[i].id, Latest(finish, plan[i].dependencies), finish(plan[i].id), r);
  }

  lemma SatisfiedAt(plan: Plan, script: Script, wins: Numbers, finish: Numbers, b: Board, r: nat, i: nat)
    requires Premises(plan, script, wins, finish) && BoardAt(plan, finish, b, r) && i < |plan|
    ensures Satisfied(plan[i], b.rows) <==> Latest(finish, plan[i].dependencies) <= r
    ensures !HasFailedDep(plan[i], b.rows)
  {
    LatestBound(finish, plan[i].dependencies, r);
    forall d | d in plan[i].dependencies
      ensures d in b.rows && b.rows[d] != TaskStatus.Failed && (b.rows[d] == Committed <==> finish(d) <= r)
    {
      CommittedAt(plan, script, wins, finish, b, r, d);
    }
  }

  /** What an iteration finds after promotion and requeue. */
  lemma DispatchAt(plan: Plan, script: Script, wins: Numbers, finish: Numbers, b: Board, r: nat, i: nat)
    requires Premises(plan, script, wins, finish) && BoardAt(plan, finish, b, r) && i < |plan|
    ensures Latest(finish, plan[i].dependencies) < finish(plan[i].id)
    ensures
      var t, start, rows := plan[i].id, Latest(finish, plan[i].dependencies), Dispatch(plan, b.rows);
      t in rows && rows[t] == if r < start then Pending else if r < finish(t) then Ready else Committed
  {
    var t := plan[i].id;
    SatisfiedAt(plan, script, wins, finish, b, r, i);
    assert TaskAt(b, t, Latest(finish, plan[i].dependencies), finish(t), r);
    PromotedRow(plan, b.rows, |plan|, i);
  }

  lemma NextAt(plan: Plan, script: Script, wins: Numbers, finish: Numbers, b: Board, r: nat)
    requires Premises(plan, script, wins, finish) && BoardAt(plan, finish, b, r)
    ensures BoardAt(plan, finish, Next(plan, script, b), r + 1)
  {
    RoundKeys(plan, script, b);
    forall i | 0 <= i < |plan|
      ensures TaskAt(Next(plan, script, b), plan[i].id, Latest(finish, plan[i].dependencies), finish(plan[i].id), r + 1)
    {
      TaskNext(plan, script, wins, finish, b, r, i);
    }
  }

  lemma TaskNext(plan: Plan, script: Script, wins: Numbers, finish: Numbers, b: Board, r: nat, i: nat)
    requires Premises(plan, script, wins, finish) && BoardAt(plan, finish, b, r) && i < |plan|
    ensures TaskAt(Next(plan, script, b), plan[i].id, Latest(finish, plan[i].dependencies), finish(plan[i].id), r + 1)
  {
    var t, start := plan[i].id, Latest(finish, plan[i].dependencies);
    DispatchAt(plan, script, wins, finish, b, r, i);
    assert TaskAt(b, t, start, finish(t), r);
    assert SucceedsAt(script, t, wins(t));
    AttemptAt(script, Board(Dispatch(plan, b.rows), b.asked), t, wins(t));
  }

  /** One round for one task that succeeds at attempt `k`. */
  lemma AttemptAt(script: Script, d: Board, t: TaskId, k: nat)
    requires t in d.rows && SucceedsAt(script, t, k) && (d.rows[t] == Ready ==> Asked(d, t) <= k)
    ensures t in Executed(script, d).rows
    ensures d.rows[t] != Ready ==>
      Executed(script, d).rows[t] == d.rows[t] && Asked(Executed(script, d), t) == Asked(d, t)
    ensures d.rows[t] == Ready ==>
      && Executed(script, d).rows[t] == (if Asked(d, t) == k then Committed else RetryWait)
      && Asked(Executed(script, d), t) == Asked(d, t) + 1
  {
  }

  /** If nothing is READY in iteration `r + 1`, everything has finished. */
  lemma {:induction false} IdleMeansFinished(plan: Plan, script: Script, wins: Numbers, finish: Numbers,
                                             b: Board, r: nat, i: nat)
    requires Premises(plan, script, wins, finish) && BoardAt(plan, finish, b, r) && i < |plan|
    requires NoneReady(Dispatch(plan, b.rows))
    ensures finish(plan[i].id) <= r
    decreases finish(plan[i].id)
  {
    DispatchAt(plan, script, wins, finish, b, r, i);
    var s := plan[i].dependencies;
    if Latest(finish, s) > r {
      LatestBound(finish, s, r);
      var d :| d in s && finish(d) > r;
      LatestBound(finish, s, Latest(finish, s));
      var j := IndexOfTask(plan, d);
      IdleMeansFinished(plan, script, wins, finish, b, r, j);
    }
  }

  /** After at most `fuel` more iterations, the tasks that finish by iteration `r + fuel` are committed. */
  lemma {:induction false} LoopAt(plan: Plan, script: Script, wins: Numbers, finish: Numbers,
                                  b: Board, r: nat, fuel: nat, t: TaskId)
    requires Premises(plan, script, wins, finish) && BoardAt(plan, finish, b, r) && t in Ids(plan)
    ensures
      var rows := Loop(plan, script, b, fuel).rows;
      t in rows && (rows[t] == Committed <==> finish(t) <= r + fuel)
    decreases fuel
  {
    hide Premises, BoardAt, Dispatch, Next;
    if fuel == 0 {
      CommittedAt(plan, script, wins, finish, b, r, t);
    } else if Idles(plan, b) {
      var i := IndexOfTask(plan, t);
      IdleMeansFinished(plan, script, wins, finish, b, r, i);
      DispatchAt(plan, script, wins, finish, b, r, i);
    } else {
      NextAt(plan, script, wins, finish, b, r);
      LoopAt(plan, script, wins, finish, Next(plan, script, b), r + 1, fuel - 1, t);
    }
  }

  /** The exact law. On a sound plan whose tasks all succeed in the end, `t` is committed in
      iteration `finish(t)`, neither earlier nor later. */
  lemma CommitRound(plan: Plan, script: Script, wins: Numbers, finish: Numbers, fuel: nat, t: TaskId)
    requires Premises(plan, script, wins, finish) && t in Ids(plan)
    ensures
      var rows := Loop(plan, script, Registered(plan), fuel).rows;
      t in rows && (rows[t] == Committed <==> finish(t) <= fuel)
  {
    assert forall i :: 0 <= i < |plan| ==> plan[i] in plan;
    LoopAt(plan, script, wins, finish, Registered(plan), 0, fuel, t);
  }

  /** The last task finishes within 10 iterations for each task of the plan. */
  ghost predicate FitsBound(plan: Plan, finish: Numbers) {
    forall t :: t in Ids(plan) ==> finish(t) <= 10 * |plan|
  }

  /** So the iteration bound suffices exactly if the schedule fits in it. */
  lemma BoundSufficesIff(plan: Plan, script: Script, wins: Numbers, finish: Numbers)
    requires Premises(plan, script, wins, finish)
    ensures AllCommitted(plan, FinalBoard(plan, script).rows) <==> FitsBound(plan, finish)
  {
    forall t | t in Ids(plan)
      ensures t in FinalBoard(plan, script).rows
      ensures FinalBoard(plan, script).rows[t] == Committed <==> finish(t) <= 10 * |plan|
    {
      CommitRound(plan, script, wins, finish, |plan| * MAX_ROUNDS, t);
    }
  }

  // ---- Every plan with a topological order has a schedule ----

  lemma {:induction false} LatestSame(f: Numbers, g: Numbers, s: seq<TaskId>)
    requires forall d :: d in s ==> f(d) == g(d)
    ensures Latest(f, s) == Latest(g, s)
  {
    if s != [] {
      assert forall d :: d in s[..|s| - 1] ==> d in s;
      LatestSame(f, g, s[..|s| - 1]);
    }
  }

  /** The equation of the schedule holds for the first `n` tasks of the order. */
  ghost predicate ScheduleUpTo(plan: Plan, order: seq<TaskId>, wins: Numbers, finish: Numbers, n: nat)
    requires n <= |order|
  {
    forall i :: 0 <= i < |plan| && plan[i].id in order[..n] ==>
      finish(plan[i].id) == Latest(finish, plan[i].dependencies) + wins(plan[i].id) + 1
  }

  lemma {:induction false} ScheduleExists(plan: Plan, order: seq<TaskId>, wins: Numbers, n: nat)
    returns (finish: Numbers)
    requires Ordered(plan, order) && n <= |order|
    ensures ScheduleUpTo(plan, order, wins, finish, n)
    ensures n == |order| ==> Schedule(plan, wins, finish)
  {
    if n == 0 {
      finish := t => 0;
    } else {
      var before := ScheduleExists(plan, order, wins, n - 1);
      finish := ScheduleNext(plan, order, wins, n - 1, before);
    }
    if n == |order| {
      DepMapIsInternal(plan);
      assert order[..n] == order;
      assert forall i :: 0 <= i < |plan| ==> plan[i] in plan && plan[i].id in DepMap(plan);
    }
  }

  lemma ScheduleNext(plan: Plan, order: seq<TaskId>, wins: Numbers, n: nat, before: Numbers) returns (finish: Numbers)
    requires Ordered(plan, order) && n < |order| && ScheduleUpTo(plan, order, wins, before, n)
    ensures ScheduleUpTo(plan, order, wins, finish, n + 1)
  {
    DepMapIsInternal(plan);
    assert order[n] in order && order[n] in DepMap(plan);
    var k := IndexOfTask(plan, order[n]);
    var value := Latest(before, plan[k].dependencies) + wins(order[n]) + 1;
    finish := t => if t == order[n] then value else before(t);
    forall i | 0 <= i < |plan| && plan[i].id in order[..n + 1]
      ensures finish(plan[i].id) == Latest(finish, plan[i].dependencies) + wins(plan[i].id) + 1
    {
      DependenciesBefore(plan, order, n, i);
      LatestSame(before, finish, plan[i].dependencies);
      if plan[i].id == order[n] {
        assert i == k;
      } else {
        assert plan[i].id in order[..n];
      }
    }
  }

  /** The task at position `n` is not a dependency of the tasks up to there. */
  lemma DependenciesBefore(plan: Plan, order: seq<TaskId>, n: nat, i: nat)
    requires Ordered(plan, order) && n < |order| && i < |plan| && plan[i].id in order[..n + 1]
    ensures order[n] !in plan[i].dependencies
  {
    var q :| 0 <= q <= n && order[q] == plan[i].id;
    assert order[n] !in order[..q];
    DepMapIsInternal(plan);
    DepMapIsRelation(plan, i, order[n]);
    assert order[n] in order;
  }

  // ---- Chains ----

  /** `n` tasks, each of which depends on the one before it. */
  function Chain(n: nat): Plan {
    if n == 0 then [] else Chain(n - 1) + [Task(n - 1, if n == 1 then [] else [n - 2])]
  }

  lemma {:induction false} ChainTasks(n: nat)
    ensures |Chain(n)| == n
    ensures forall i :: 0 <= i < n ==> Chain(n)[i] == Task(i, if i == 0 then [] else [i - 1])
  {
    if n > 0 {
      ChainTasks(n - 1);
    }
  }

  /** The last execution in time: nine failures, then success. */
  const LAST_CHANCE: Numbers := t => 9

  lemma ChainPremises(n: nat, script: Script)
    requires AllWin(Chain(n), script, LAST_CHANCE)
    ensures Premises(Chain(n), script, LAST_CHANCE, t => 10 * (t + 1))
  {
    ChainTasks(n);
    var plan, finish: Numbers := Chain(n), t => 10 * (t + 1);
    forall i | 0 <= i < |plan|
      ensures finish(plan[i].id) == Latest(finish, plan[i].dependencies) + LAST_CHANCE(plan[i].id) + 1
    {
      LatestBound(finish, plan[i].dependencies, 10 * i);
    }
    forall i, d | 0 <= i < n && d in plan[i].dependencies ensures d in Ids(plan) {
      assert plan[i - 1] in plan && plan[i - 1].id == d;
    }
  }

  /** The bound is tight for every number of tasks: a chain whose tasks all succeed at their last
      chance is completed by `fuel` iterations exactly if `fuel` is at least 10 for each task. */
  lemma ChainNeedsAllRounds(n: nat, script: Script, fuel: nat)
    requires n > 0 && AllWin(Chain(n), script, LAST_CHANCE)
    ensures AllCommitted(Chain(n), Loop(Chain(n), script, Registered(Chain(n)), fuel).rows) <==> fuel >= 10 * n
  {
    var plan, finish: Numbers := Chain(n), t => 10 * (t + 1);
    ChainTasks(n);
    ChainPremises(n, script);
    forall t | t in Ids(plan)
      ensures t in Loop(plan, script, Registered(plan), fuel).rows && t < n
      ensures Loop(plan, script, Registered(plan), fuel).rows[t] == Committed <==> finish(t) <= fuel
    {
      CommitRound(plan, script, LAST_CHANCE, finish, fuel, t);
      var i := IndexOfTask(plan, t);
    }
    assert plan[n - 1] in plan && plan[n - 1].id == n - 1;
    assert finish(n - 1) == 10 * n;
  }
}
