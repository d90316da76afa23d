/** The budget counters over whole runs (orchestration/engine.py, persistence/state_store.py). */
module Budgets {
  import opened CrashRuns

  function Tokens(calls: seq<Call>): int {
    if calls == [] then 0
    else
      var earlier := Tokens(calls[..|calls| - 1]);
      match calls[|calls| - 1]
      case ModelCall(input, output) => earlier + input + output
      case ToolCall => earlier
  }

  function ModelCalls(calls: seq<Call>): nat {
    if calls == [] then 0
    else ModelCalls(calls[..|calls| - 1]) + if calls[|calls| - 1].ModelCall? then 1 else 0
  }

  /** The counters of the workflow row are the sums of the recorded calls. */
  ghost predicate CountersOk(m: Machine) {
    match m.disk.workflow
    case None => m.calls == []
    case Some(row) =>
      && row.tokensUsed == Tokens(m.calls)
      && row.modelCalls == ModelCalls(m.calls)
      && row.toolCalls == |m.calls| - ModelCalls(m.calls)
  }

  lemma CountersSpend(m: Machine, call: Call)
    requires CountersOk(m) && Enabled(m, Spend(call))
    ensures CountersOk(After(m, Spend(call)))
  {
    assert (m.calls + [call])[..|m.calls|] == m.calls;
  }

  lemma CountersStep(m: Machine, step: Step)
    requires CountersOk(m) && Enabled(m, step)
    ensures CountersOk(After(m, step))
  {
    match step
    case Spend(call) => CountersSpend(m, call);
    case _ =>
  }

  /** `tokens_used`, `model_calls` and `tool_calls` are the sums of the calls recorded since the
      workflow row exists, whatever transitions, approvals, crashes and replays come between. */
  lemma {:induction false} CountersAreSums(steps: seq<Step>)
    requires Executable(steps)
    ensures CountersOk(End(steps))
  {
    if steps != [] {
      var n := |steps| - 1;
      CountersAreSums(steps[..n]);
      CountersStep(End(steps[..n]), steps[n]);
    }
  }
}
