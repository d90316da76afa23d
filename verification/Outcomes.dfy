/** How each task ends, told from what the model, the boundary and the executor answered last
    (experiments/durable.py). */
module Outcomes {
  import opened StateMachine
  import opened Events
  import opened Plans
  import opened Boards
  import opened Loops

  /** The status that goes with the last answer to a task: FAILED without a proposal, REJECTED with
      a refused one, COMMITTED after a success, waiting or READY again after a failed execution. */
  predicate Decides(answer: Answer, status: TaskStatus) {
    && (status == TaskStatus.Failed <==> answer.NoProposal?)
    && (status == Rejected <==> answer.Proposal? && !answer.acceptable)
    && (status == Committed <==> answer.Proposal? && answer.acceptable && answer.succeeds)
    && (status in {RetryWait, Ready} <==> answer.Proposal? && answer.acceptable && !answer.succeeds)
  }

  /** A task that was never attempted is not even claimed; otherwise its last answer decides. */
  ghost predicate Told(script: Script, b: Board, t: TaskId) {
    t in b.rows ==>
      if Asked(b, t) == 0 then b.rows[t] in {Pending, Ready, Blocked}
      else Decides(script(t, Asked(b, t) - 1), b.rows[t])
  }

  ghost predicate AllTold(script: Script, b: Board) {
    forall t :: Told(script, b, t)
  }

  lemma DispatchTold(plan: Plan, script: Script, b: Board)
    requires AllTold(script, b)
    ensures AllTold(script, Board(Dispatch(plan, b.rows), b.asked))
  {
    PromoteKeepsOutcomes(plan, b.rows, |plan|);
    forall t: TaskId ensures Told(script, Board(Dispatch(plan, b.rows), b.asked), t) {
      assert Told(script, b, t);
    }
  }

  lemma ExecutedTold(script: Script, b: Board)
    requires AllTold(script, b)
    ensures AllTold(script, Executed(script, b))
  {
    forall t: TaskId ensures Told(script, Executed(script, b), t) {
      assert Told(script, b, t);
    }
  }

  lemma {:induction false} LoopTold(plan: Plan, script: Script, b: Board, fuel: nat)
    requires AllTold(script, b)
    ensures AllTold(script, Loop(plan, script, b, fuel))
    decreases fuel
  {
    hide AllTold, Idles, Dispatch;
    if fuel > 0 {
      DispatchTold(plan, script, b);
      if !Idles(plan, b) {
        ExecutedTold(script, Board(Dispatch(plan, b.rows), b.asked));
        LoopTold(plan, script, Next(plan, script, b), fuel - 1);
      }
    }
  }

  /** The whole board at the end. */
  ghost predicate EndsAsTold(script: Script, b: Board) {
    AllTold(script, b) && forall t :: t in b.rows ==> b.rows[t] != Ready
  }

  lemma FinalBoardTold(plan: Plan, script: Script)
    ensures EndsAsTold(script, FinalBoard(plan, script)) && FinalBoard(plan, script).rows.Keys == Ids(plan)
  {
    RegisteredOk(plan);
    LoopComesToRest(plan, script, Registered(plan), |plan| * MAX_ROUNDS);
    LoopTold(plan, script, Registered(plan), |plan| * MAX_ROUNDS);
  }

  /** At the end of the loop, with `k` attempts at `t` on record: without an attempt `t` is PENDING
      or BLOCKED, and otherwise the answer to the last attempt decides between FAILED, REJECTED,
      COMMITTED and RETRY_WAIT. */
  lemma LastAnswerDecides(plan: Plan, script: Script, b: Board, t: TaskId, k: nat)
    requires b == FinalBoard(plan, script) && t in Ids(plan) && k == Asked(b, t)
    ensures t in b.rows
    ensures
      var s := b.rows[t];
      if k == 0 then s == Pending || s == Blocked
      else
        && (s == TaskStatus.Failed <==> script(t, k - 1).NoProposal?)
        && (s == Rejected <==> script(t, k - 1).Proposal? && !script(t, k - 1).acceptable)
        && (s == Committed <==> script(t, k - 1) == Proposal(true, true))
        && (s == RetryWait <==> script(t, k - 1) == Proposal(true, false))
  {
    hide EndsAsTold, FinalBoard;
    FinalBoardTold(plan, script);
    ToldAtEnd(script, b, t);
  }

  lemma ToldAtEnd(script: Script, b: Board, t: TaskId)
    requires EndsAsTold(script, b) && t in b.rows
    ensures
      var s, k := b.rows[t], Asked(b, t);
      if k == 0 then s == Pending || s == Blocked
      else
        && (s == TaskStatus.Failed <==> script(t, k - 1).NoProposal?)
        && (s == Rejected <==> script(t, k - 1).Proposal? && !script(t, k - 1).acceptable)
        && (s == Committed <==> script(t, k - 1) == Proposal(true, true))
        && (s == RetryWait <==> script(t, k - 1) == Proposal(true, false))
  {
    assert Told(script, b, t);
  }

  /** When the loop stops for lack of progress, a task is BLOCKED exactly if one of its own
      dependencies is FAILED; blocking goes no further than that. */
  lemma BlockedMeansFailedDependency(plan: Plan, script: Script, fuel: nat, rows: Rows, i: nat)
    requires DistinctIds(plan) && EndsStalled(plan, script, Registered(plan), fuel) && i < |plan|
    requires rows == Loop(plan, script, Registered(plan), fuel).rows
    ensures plan[i].id in rows
    ensures rows[plan[i].id] == Blocked <==>
      exists d :: d in plan[i].dependencies && d in rows && rows[d] == TaskStatus.Failed
  {
    RegisteredOk(plan);
    StalledLoop(plan, script, Registered(plan), fuel);
    LoopDependencies(plan, script, Registered(plan), fuel);
    assert plan[i] in plan && plan[i].id in Ids(plan);
    StalledTaskBlocks(plan, rows, i);
  }

  lemma StalledTaskBlocks(plan: Plan, rows: Rows, i: nat)
    requires Stalled(plan, rows) && DependenciesOk(plan, rows) && i < |plan| && plan[i].id in rows
    ensures rows[plan[i].id] == Blocked <==>
      exists d :: d in plan[i].dependencies && d in rows && rows[d] == TaskStatus.Failed
  {
  }
}
