/**
 * The compiled task graph: the edge table, one node execution at a time
 * (each node's update merged into the state), and whole runs under a step
 * budget. The language models and the tools are oracles indexed by the step
 * at which they are consulted, so a run is a function of the initial state
 * and the oracles.
 */
module Graph {
  import opened Wrappers
  import opened State
  import opened Prompts
  import opened Utils
  import Planner
  import opened Assistant
  import opened Replanner
  import opened Validator
  import opened Executor

  /**
   * What the models and the tools answer at each step, and whether the
   * model call made at a step raises (a service error, or a reply the
   * structured output cannot parse).
   */
  datatype Oracle = Oracle(
    plan: nat -> seq<Msg> -> seq<string>,
    respond: nat -> seq<Msg> -> Msg,
    tool: (nat, Msg, nat) -> string,
    replan: nat -> seq<Msg> -> Act,
    judge: nat -> seq<Msg> -> Verdict,
    callFails: nat -> bool)

  /** The edge table: fixed edges after the planner and the tools, routing functions elsewhere. */
  function Successor(n: Node, s: TaskState): (m: Node)
    requires n != End
    ensures n == PlannerNode || n == ToolsNode ==> m == AssistantNode
    ensures n == AssistantNode ==> m == ToolsOrReplanner(s)
    ensures n == ReplannerNode ==> m == AnswerProvided(s)
    ensures n == ValidatorNode ==> m == ValidatorApproval(s)
    ensures m != PlannerNode
    ensures m == End ==> n == ValidatorNode
  {
    match n
    case PlannerNode => AssistantNode
    case AssistantNode => ToolsOrReplanner(s)
    case ToolsNode => AssistantNode
    case ReplannerNode => AnswerProvided(s)
    case ValidatorNode => ValidatorApproval(s)
  }

  /**
   * When running node `n` on `s` raises: encoding a text attachment declared
   * an image (planner, fresh assistant step, replanner), reading the first
   * step of an empty plan (fresh assistant step, replanner with a
   * transcript), or a tool node with no message to answer.
   */
  predicate Raises(n: Node, s: TaskState) {
    match n
    case PlannerNode => EncodeRaises(s)
    case AssistantNode => Fresh(s) && (|s.plan| == 0 || EncodeRaises(s))
    case ToolsNode => |s.toolMessages| == 0
    case ReplannerNode => EncodeRaises(s) || (|s.assistantMessages| > 0 && |s.plan| == 0)
    case ValidatorNode => false
    case End => false
  }

  /** The nodes that call a model service every time they run; the tool node does not. */
  predicate CallsModel(n: Node) {
    n == PlannerNode || n == AssistantNode || n == ReplannerNode || n == ValidatorNode
  }

  /** Whether running the configuration's node raises: in the node's own code or in its model call. */
  predicate Fails(o: Oracle, c: Config) {
    Raises(c.node, c.state) || (CallsModel(c.node) && o.callFails(c.steps))
  }

  /**
   * The tool node: answers every tool call of the last tool message, in
   * order, and replaces `tool_messages` with the answers.
   */
  function ToolsUpdate(s: TaskState, o: Oracle, k: nat): (u: Update)
    requires |s.toolMessages| > 0
    ensures var last := s.toolMessages[|s.toolMessages| - 1];
      && u.toolMessages.Some? && |u.toolMessages.value| == last.toolCalls
      && (forall j :: 0 <= j < last.toolCalls ==>
            u.toolMessages.value[j] == Msg(Tool, Text(o.tool(k, last, j)), 0))
    ensures u.pastSteps == [] && u.plan.None? && u.answer.None?
    ensures u.assistantMessages.None? && u.collectedKnowledge.None?
  {
    var last := s.toolMessages[|s.toolMessages| - 1];
    var answers := seq(last.toolCalls, j requires 0 <= j < last.toolCalls => Msg(Tool, Text(o.tool(k, last, j)), 0));
    Update(None, [], None, None, Some(answers), None)
  }

  /** The tool node's answers. */
  function ToolAnswers(s: TaskState, o: Oracle, k: nat): seq<Msg>
    requires |s.toolMessages| > 0
  {
    ToolsUpdate(s, o, k).toolMessages.value
  }

  /** The state after node `n` runs at step `k`. */
  function Apply(p: Texts, n: Node, s: TaskState, o: Oracle, k: nat): TaskState
    requires n != End && FromReadFile(s) && !Raises(n, s)
  {
    match n
    case PlannerNode => Merge(s, Planner.PlannerUpdate(p, s, o.plan(k)))
    case AssistantNode => Merge(s, AssistantUpdate(p, s, o.respond(k)))
    case ToolsNode => Merge(s, ToolsUpdate(s, o, k))
    case ReplannerNode => ReplannerStep(p, s, o.replan(k))
    case ValidatorNode => Merge(s, ValidatorUpdate(p, s, o.judge(k)))
  }

  /**
   * The inputs are kept, the history only grows at its end and the collected
   * knowledge only grows at its end.
   */
  predicate Grows(a: TaskState, b: TaskState) {
    SameInputs(a, b) && a.pastSteps <= b.pastSteps && a.collectedKnowledge <= b.collectedKnowledge
  }

  lemma GrowsTransitive(a: TaskState, b: TaskState, c: TaskState)
    requires Grows(a, b) && Grows(b, c)
    ensures Grows(a, c)
  {
  }

  /** Every node execution keeps the inputs and extends history and knowledge. */
  lemma ApplyGrows(p: Texts, n: Node, s: TaskState, o: Oracle, k: nat)
    requires n != End && FromReadFile(s) && !Raises(n, s)
    ensures Grows(s, Apply(p, n, s, o, k))
  {
    if n == ReplannerNode {
      var ps := RecordStep(s);
      var r := Merge(s.(pastSteps := ps), ReplannerUpdate(o.replan(k)(ReplannerMessages(p, s, ps))));
      assert r == Apply(p, n, s, o, k);
    }
  }

  /** The configuration that follows executing `c`. */
  function Next(p: Texts, c: Config, o: Oracle): Config
    requires c.node != End && FromReadFile(c.state) && !Raises(c.node, c.state)
  {
    var s := Apply(p, c.node, c.state, o, c.steps);
    Config(Successor(c.node, s), s, c.steps + 1)
  }

  /**
   * The task graph's step function for the run loop. The run loop applies it
   * only to configurations that are not END and do not raise; on states the
   * driver never builds (see FromReadFile) it stands still.
   */
  function Step(p: Texts, o: Oracle): Config -> Config {
    (c: Config) => if c.node != End && FromReadFile(c.state) && !Raises(c.node, c.state) then Next(p, c, o) else c
  }

  /** Whether the node of a configuration raises. */
  function Raising(o: Oracle): Config -> bool {
    (c: Config) => Fails(o, c)
  }

  /** A run of the task graph from `node` on `s` at step `k`, with `fuel` node executions allowed. */
  function Run(p: Texts, node: Node, s: TaskState, o: Oracle, k: nat, fuel: nat): RunResult {
    Execute(Step(p, o), Raising(o), Config(node, s, k), fuel)
  }

  /** Configurations whose state has the inputs of `s` and extends its history and knowledge. */
  function GrowsFrom(s: TaskState): Config -> bool {
    (c: Config) => FromReadFile(c.state) && Grows(s, c.state)
  }

  lemma StepGrows(p: Texts, o: Oracle, s: TaskState)
    ensures forall x {:trigger Step(p, o)(x)} :: GrowsFrom(s)(x) && x.node != End && !Raising(o)(x) ==> GrowsFrom(s)(Step(p, o)(x))
  {
    forall x | GrowsFrom(s)(x) && x.node != End && !Raising(o)(x)
      ensures GrowsFrom(s)(Step(p, o)(x))
    {
      ApplyGrows(p, x.node, x.state, o, x.steps);
      GrowsTransitive(s, x.state, Step(p, o)(x).state);
    }
  }

  /**
   * A run from a state the driver built is an execution of the graph: it
   * starts at the given node, holds at most `fuel` configurations, none of
   * them END, and each but the last runs without raising and is followed by
   * its Next.
   */
  lemma RunIsExecution(p: Texts, node: Node, s: TaskState, o: Oracle, k: nat, fuel: nat)
    requires FromReadFile(s)
    ensures var t := Run(p, node, s, o, k, fuel).trace;
      && |t| <= fuel
      && (node != End && fuel > 0 ==> |t| > 0 && t[0] == Config(node, s, k))
      && (forall i :: 0 <= i < |t| ==> t[i].node != End && FromReadFile(t[i].state))
      && (forall i :: 0 <= i < |t| - 1 ==> !Fails(o, t[i]) && t[i + 1] == Next(p, t[i], o))
  {
    var c := Config(node, s, k);
    ExecuteTrace(Step(p, o), Raising(o), c, fuel);
    StepGrows(p, o, s);
    ExecuteKeeps(Step(p, o), Raising(o), GrowsFrom(s), c, fuel);
  }

  /**
   * Along a run, and in its final state, the inputs are those of the initial
   * state and the history and the knowledge extend the initial ones.
   */
  lemma RunGrows(p: Texts, node: Node, s: TaskState, o: Oracle, k: nat, fuel: nat)
    requires FromReadFile(s)
    ensures var r := Run(p, node, s, o, k, fuel);
      && (forall i :: 0 <= i < |r.trace| ==> Grows(s, r.trace[i].state))
      && (r.outcome.Finished? ==> Grows(s, r.outcome.final))
  {
    var c := Config(node, s, k);
    ExecuteOutcome(Step(p, o), Raising(o), c, fuel);
    StepGrows(p, o, s);
    ExecuteKeeps(Step(p, o), Raising(o), GrowsFrom(s), c, fuel);
    var r := Run(p, node, s, o, k, fuel);
    if r.outcome.Finished? && |r.trace| > 0 {
      var x := Step(p, o)(r.trace[|r.trace| - 1]);
      assert GrowsFrom(s)(x) && r.outcome.final == x.state;
    }
  }

  /**
   * How a run ended: it fails exactly at a last node that raises, in its own
   * code or in its model call, and runs out of budget only after `fuel` nodes.
   */
  lemma RunOutcome(p: Texts, node: Node, s: TaskState, o: Oracle, k: nat, fuel: nat)
    ensures var r := Run(p, node, s, o, k, fuel); var t := r.trace;
      && (r.outcome.Failed? <==> |t| > 0 && Fails(o, t[|t| - 1]))
      && (r.outcome.Failed? ==> r.outcome.at == t[|t| - 1].node)
      && (r.outcome.RecursionLimit? ==> |t| == fuel)
  {
    ExecuteOutcome(Step(p, o), Raising(o), Config(node, s, k), fuel);
    var t := Run(p, node, s, o, k, fuel).trace;
    if |t| > 0 {
      assert Raising(o)(t[|t| - 1]) == Fails(o, t[|t| - 1]);
    }
  }

  /**
   * What the routing guarantees about the node that runs next: the tool node
   * gets a message with tool calls, the validator gets an answer and empty
   * transcripts, and END is reached only with an answer.
   */
  predicate RouteInv(n: Node, s: TaskState) {
    && (n == ToolsNode ==> |s.toolMessages| > 0 && s.toolMessages[|s.toolMessages| - 1].toolCalls > 0)
    && (n == ValidatorNode ==> s.answer != "" && s.assistantMessages == [] && s.toolMessages == [])
    && (n == End ==> s.answer != "")
  }

  /** Every node execution routes into a configuration meeting RouteInv. */
  lemma StepRoutes(p: Texts, n: Node, s: TaskState, o: Oracle, k: nat)
    requires n != End && FromReadFile(s) && !Raises(n, s)
    ensures var c := Next(p, Config(n, s, k), o); RouteInv(c.node, c.state)
  {
    var r := Apply(p, n, s, o, k);
    if n == ReplannerNode {
      var ps := RecordStep(s);
      assert r == Merge(s.(pastSteps := ps), ReplannerUpdate(o.replan(k)(ReplannerMessages(p, s, ps))));
    }
  }

  /** Configurations the driver can build that the routing could have led to. */
  function Routed(): Config -> bool {
    (c: Config) => FromReadFile(c.state) && RouteInv(c.node, c.state)
  }

  lemma StepRoutesAll(p: Texts, o: Oracle)
    ensures forall x {:trigger Step(p, o)(x)} :: Routed()(x) && x.node != End && !Raising(o)(x) ==> Routed()(Step(p, o)(x))
  {
    forall x | Routed()(x) && x.node != End && !Raising(o)(x)
      ensures Routed()(Step(p, o)(x))
    {
      ApplyGrows(p, x.node, x.state, o, x.steps);
      StepRoutes(p, x.node, x.state, o, x.steps);
    }
  }

  /** A routed configuration raises neither at END nor in the tool node, and in the validator only through its model call. */
  lemma RoutedFailure(o: Oracle, c: Config)
    requires RouteInv(c.node, c.state) && Fails(o, c)
    ensures c.node != End && c.node != ToolsNode
    ensures c.node == ValidatorNode ==> o.callFails(c.steps)
  {
  }

  /**
   * Started in a routed configuration, a run never fails in the tool node,
   * and fails in the validator only when the validator's model call raises:
   * the node's own code raises only in the planner, the assistant and the
   * replanner.
   */
  lemma OnlyModelNodesFail(p: Texts, node: Node, s: TaskState, o: Oracle, k: nat, fuel: nat)
    requires FromReadFile(s) && RouteInv(node, s)
    ensures var r := Run(p, node, s, o, k, fuel); var t := r.trace;
      r.outcome.Failed? ==>
        && |t| > 0 && r.outcome.at == t[|t| - 1].node
        && r.outcome.at != End && r.outcome.at != ToolsNode
        && (r.outcome.at == ValidatorNode ==> o.callFails(t[|t| - 1].steps))
  {
    var c := Config(node, s, k);
    ExecuteOutcome(Step(p, o), Raising(o), c, fuel);
    StepRoutesAll(p, o);
    ExecuteKeeps(Step(p, o), Raising(o), Routed(), c, fuel);
    var r := Run(p, node, s, o, k, fuel);
    if r.outcome.Failed? {
      var last := r.trace[|r.trace| - 1];
      assert Routed()(last);
      RoutedFailure(o, last);
    }
  }

  /**
   * A run that reaches END did so right after the validator accepted a
   * non-empty answer, and that answer is the final one.
   */
  lemma FinishedMeansAccepted(p: Texts, node: Node, s: TaskState, o: Oracle, k: nat, fuel: nat)
    requires FromReadFile(s) && node != End
    ensures var r := Run(p, node, s, o, k, fuel); var t := r.trace;
      r.outcome.Finished? ==>
        && |t| > 0
        && var last := t[|t| - 1];
        && last.node == ValidatorNode && FromReadFile(last.state) && !o.callFails(last.steps)
        && o.judge(last.steps)(ValidatorMessages(p, last.state)).accepted
        && r.outcome.final == Apply(p, ValidatorNode, last.state, o, last.steps)
        && r.outcome.final.answer == last.state.answer != ""
  {
    var c := Config(node, s, k);
    ExecuteTrace(Step(p, o), Raising(o), c, fuel);
    ExecuteOutcome(Step(p, o), Raising(o), c, fuel);
    StepGrows(p, o, s);
    ExecuteKeeps(Step(p, o), Raising(o), GrowsFrom(s), c, fuel);
    var r := Run(p, node, s, o, k, fuel);
    if r.outcome.Finished? {
      var last := r.trace[|r.trace| - 1];
      assert last.node != End && FromReadFile(last.state) && !Raises(last.node, last.state);
      assert Step(p, o)(last) == Next(p, last, o);
      ValidatorStep(p, last.state, o, last.steps);
    }
  }

  /** The validator's step: its update merged, then its routing. */
  lemma ValidatorStep(p: Texts, s: TaskState, o: Oracle, k: nat)
    requires FromReadFile(s)
    ensures var v := o.judge(k)(ValidatorMessages(p, s)); var c := Next(p, Config(ValidatorNode, s, k), o);
      && c.node == ValidatorApproval(c.state)
      && c.state.pastSteps == s.pastSteps + [(ValidationTag, Text(v.feedback))]
      && c.state.answer == (if v.accepted then s.answer else "")
      && c.state == s.(pastSteps := c.state.pastSteps, answer := c.state.answer, toolMessages := [])
  {
  }

  /**
   * A rejection with feedback goes back to the replanner, which records no
   * step (the transcript is empty) and ends its prompt with the highlighted
   * feedback.
   */
  lemma RejectionReachesReplanner(p: Texts, s: TaskState, o: Oracle, k: nat)
    requires FromReadFile(s) && RouteInv(ValidatorNode, s)
    requires var v := o.judge(k)(ValidatorMessages(p, s)); !v.accepted && v.feedback != ""
    ensures var c := Next(p, Config(ValidatorNode, s, k), o); var ps := RecordStep(c.state);
      var intro := ReplanIntro(p, s.question, c.state.plan, ps);
      && c.node == ReplannerNode
      && ps == s.pastSteps + [(ValidationTag, Text(o.judge(k)(ValidatorMessages(p, s)).feedback))]
      && ReplannerPrompt(p, c.state, ps)[|intro|..] == p.feedbackHeader + o.judge(k)(ValidatorMessages(p, s)).feedback
  {
    ValidatorStep(p, s, o, k);
    var c := Next(p, Config(ValidatorNode, s, k), o);
    var fb := o.judge(k)(ValidatorMessages(p, s)).feedback;
    assert RecordStep(c.state) == c.state.pastSteps;
    assert ValidatorFeedback(c.state.pastSteps) == Some(Text(fb));
  }

  /** The tool node's step: the answers replace the tool messages and the assistant runs next. */
  lemma ToolsStep(p: Texts, s: TaskState, o: Oracle, k: nat)
    requires FromReadFile(s) && RouteInv(ToolsNode, s)
    ensures var t := s.(toolMessages := ToolAnswers(s, o, k));
      && Next(p, Config(ToolsNode, s, k), o) == Config(AssistantNode, t, k + 1)
      && !Raises(AssistantNode, t)
  {
  }

  /** The assistant node folds the pending tool messages into the knowledge. */
  lemma AssistantIngests(p: Texts, s: TaskState, o: Oracle, k: nat)
    requires FromReadFile(s) && !Raises(AssistantNode, s)
    ensures Apply(p, AssistantNode, s, o, k).collectedKnowledge == Ingest(s.collectedKnowledge, s.toolMessages)
  {
  }
}
