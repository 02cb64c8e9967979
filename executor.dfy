/**
 * The graph runtime's run loop, independent of what the nodes do: starting
 * from a configuration, it stops at END, stops with the recursion error when
 * the step budget is spent, stops with the exception of a node that raises,
 * and otherwise executes the node and continues from the configuration the
 * step function gives. The lemmas here hold for every step function.
 */
module Executor {
  import opened State

  /** A node to be run next, the state it runs on and its step number. */
  datatype Config = Config(node: Node, state: TaskState, steps: nat)

  /** How a run ends: at END with the final state, out of step budget, or by an exception. */
  datatype Outcome = Finished(final: TaskState) | RecursionLimit | Failed(at: Node)

  /** A run's outcome and the configurations it executed (or tried to), in order. */
  datatype RunResult = RunResult(outcome: Outcome, trace: seq<Config>)

  /** The run loop with `fuel` node executions left. */
  function Execute(step: Config -> Config, raises: Config -> bool, c: Config, fuel: nat): (r: RunResult)
    ensures |r.trace| <= fuel
    ensures r.outcome.Failed? ==> |r.trace| > 0 && raises(r.trace[|r.trace| - 1])
    decreases fuel
  {
    if c.node == End then RunResult(Finished(c.state), [])
    else if fuel == 0 then RunResult(RecursionLimit, [])
    else if raises(c) then RunResult(Failed(c.node), [c])
    else
      var rest := Execute(step, raises, step(c), fuel - 1);
      RunResult(rest.outcome, [c] + rest.trace)
  }

  /**
   * The trace is an execution: it starts at `c` unless `c` is END or there is
   * no budget, has at most `fuel` entries and never END, each entry but the
   * last runs without raising and is followed by its step.
   */
  lemma {:induction false} ExecuteTrace(step: Config -> Config, raises: Config -> bool, c: Config, fuel: nat)
    ensures var t := Execute(step, raises, c, fuel).trace;
      && |t| <= fuel
      && (c.node != End && fuel > 0 <==> |t| > 0)
      && (|t| > 0 ==> t[0] == c)
      && (forall i :: 0 <= i < |t| ==> t[i].node != End)
      && (forall i :: 0 <= i < |t| - 1 ==> !raises(t[i]) && t[i + 1] == step(t[i]))
    decreases fuel
  {
    if c.node != End && fuel > 0 && !raises(c) {
      ExecuteTrace(step, raises, step(c), fuel - 1);
      var rest := Execute(step, raises, step(c), fuel - 1).trace;
      var t := Execute(step, raises, c, fuel).trace;
      assert t == [c] + rest;
      forall i | 0 <= i < |t| - 1
        ensures !raises(t[i]) && t[i + 1] == step(t[i])
      {
        if i > 0 {
          assert t[i] == rest[i - 1] && t[i + 1] == rest[i];
        }
      }
    }
  }

  /**
   * How the run ended, read off its trace: it fails exactly when the last
   * entry raises, at that entry's node; it runs out of budget only after
   * `fuel` entries; and it finishes with the state of the END configuration
   * that follows the last entry (or `c` itself when `c` is END).
   */
  lemma {:induction false} ExecuteOutcome(step: Config -> Config, raises: Config -> bool, c: Config, fuel: nat)
    ensures var r := Execute(step, raises, c, fuel); var t := r.trace;
      && (r.outcome.Failed? <==> |t| > 0 && raises(t[|t| - 1]))
      && (r.outcome.Failed? ==> r.outcome.at == t[|t| - 1].node)
      && (r.outcome.RecursionLimit? ==> |t| == fuel)
      && (r.outcome.Finished? && |t| == 0 ==> c.node == End && r.outcome.final == c.state)
      && (r.outcome.Finished? && |t| > 0 ==>
            !raises(t[|t| - 1]) && step(t[|t| - 1]).node == End && r.outcome.final == step(t[|t| - 1]).state)
    decreases fuel
  {
    if c.node != End && fuel > 0 && !raises(c) {
      ExecuteOutcome(step, raises, step(c), fuel - 1);
      var rest := Execute(step, raises, step(c), fuel - 1);
      var t := Execute(step, raises, c, fuel).trace;
      assert t == [c] + rest.trace;
      if |rest.trace| > 0 {
        assert t[|t| - 1] == rest.trace[|rest.trace| - 1];
      }
    }
  }

  /**
   * A property of configurations that every executed step preserves holds of
   * every configuration of the trace and of the END configuration reached.
   */
  lemma {:induction false} ExecuteKeeps(step: Config -> Config, raises: Config -> bool, inv: Config -> bool, c: Config, fuel: nat)
    requires inv(c)
    requires forall x {:trigger step(x)} :: inv(x) && x.node != End && !raises(x) ==> inv(step(x))
    ensures var r := Execute(step, raises, c, fuel); var t := r.trace;
      && (forall i :: 0 <= i < |t| ==> inv(t[i]))
      && (r.outcome.Finished? ==> inv(if |t| == 0 then c else step(t[|t| - 1])))
    decreases fuel
  {
    if c.node != End && fuel > 0 && !raises(c) {
      ExecuteKeeps(step, raises, inv, step(c), fuel - 1);
      var rest := Execute(step, raises, step(c), fuel - 1);
      var t := Execute(step, raises, c, fuel).trace;
      assert t == [c] + rest.trace;
      forall i | 0 < i < |t|
        ensures inv(t[i])
      {
        assert t[i] == rest.trace[i - 1];
      }
      if |rest.trace| > 0 {
        assert t[|t| - 1] == rest.trace[|rest.trace| - 1];
      }
    }
  }
}
