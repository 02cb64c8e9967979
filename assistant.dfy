/**
 * The assistant node: ingests the results of the last tool calls, opens a
 * fresh transcript for a new plan step, asks the tool-enabled model for the
 * next turn and appends it; and the routing predicate that sends a turn with
 * a tool call to the tools node.
 */
module Assistant {
  import opened Wrappers
  import opened Strings
  import opened State
  import opened Prompts
  import opened Utils

  /** The separator between tool results in the knowledge text. */
  const Blank := "\n\n"

  const KnowledgeHeader := "\n\nYou can use following knowledge for your answer:\n"
  const HistoryHeader := "\n\nYou can use following history:\n"
  const PlanHeader := "\n\nFor the following plan:\n"
  const StepHeader := "\n\nYou are tasked with executing step "

  /** The fixed opening of the assistant's context prompt, around the question. */
  function AssistantIntro(p: Texts, question: string): string {
    p.assistantLead + question + p.assistantTail
  }


  /** The text of each tool message, as `str(message.content)` gives it. */
  function ToolContents(ms: seq<Msg>): (r: seq<string>)
    ensures |r| == |ms| && forall i :: 0 <= i < |ms| ==> r[i] == Str(ms[i].content)
  {
    if |ms| == 0 then [] else [Str(ms[0].content)] + ToolContents(ms[1..])
  }

  /**
   * Knowledge after ingesting tool results: the old knowledge is kept as a
   * prefix, and with results the joined results and a blank line follow.
   */
  function IngestTexts(knowledge: string, results: seq<string>): (r: string)
    ensures knowledge <= r
    ensures |results| == 0 ==> r == knowledge
    ensures |results| > 0 ==> r[|knowledge|..] == Join(Blank, results) + Blank
  {
    if |results| > 0 then knowledge + Join(Blank, results) + Blank
    else knowledge
  }

  /** Knowledge after ingesting the texts of the tool messages. */
  function Ingest(knowledge: string, toolMessages: seq<Msg>): string {
    IngestTexts(knowledge, ToolContents(toolMessages))
  }

  /** Every tool result is found, verbatim and in order, in the new knowledge. */
  lemma IngestKeepsResults(knowledge: string, results: seq<string>, i: nat)
    requires i < |results|
    ensures FoundAt(IngestTexts(knowledge, results), results[i], |knowledge| + JoinOffset(Blank, results, i))
  {
    JoinAt(Blank, results, i);
    FoundInMiddle(knowledge, Join(Blank, results), Blank, results[i], JoinOffset(Blank, results, i));
  }

  /** The plan's lines "1. step", "2. step", ... */
  function PlanLines(plan: seq<string>): (r: seq<string>)
    ensures |r| == |plan|
    ensures forall i :: 0 <= i < |plan| ==> r[i] == NatToString(i + 1) + ". " + plan[i]
  {
    seq(|plan|, i requires 0 <= i < |plan| => NatToString(i + 1) + ". " + plan[i])
  }

  /** The numbered plan, one step per line. */
  function PlanText(plan: seq<string>): string {
    Join("\n", PlanLines(plan))
  }

  /** Line `i` of the plan is found, verbatim, at its place in the plan text. */
  lemma PlanTextLine(plan: seq<string>, i: nat)
    requires i < |plan|
    ensures FoundAt(PlanText(plan), PlanLines(plan)[i], JoinOffset("\n", PlanLines(plan), i))
  {
    JoinAt("\n", PlanLines(plan), i);
  }

  /** Line `i` of the plan opens with the number i+1, read back as such, and then holds step `i` verbatim. */
  lemma PlanLineNumber(plan: seq<string>, i: nat)
    requires i < |plan|
    ensures var line := PlanLines(plan)[i]; var n := NatToString(i + 1);
      && n <= line && DecimalValue(n) == i + 1
      && line[|n|..] == ". " + plan[i]
  {
    DecimalRoundTrip(i + 1);
  }

  /** The plan text starts with step 1. */
  lemma PlanTextStartsWithFirstStep(plan: seq<string>)
    requires |plan| > 0
    ensures "1. " + plan[0] <= PlanText(plan)
  {
    JoinFirst("\n", PlanLines(plan));
    assert NatToString(1) == "1";
  }

  /** The task instruction: the whole numbered plan, then step 1 named as the one to execute. */
  function TaskText(plan: seq<string>): (r: string)
    requires |plan| > 0
    ensures PlanHeader + PlanText(plan) <= r
    ensures |plan[0]| + 1 <= |r| && r[|r| - |plan[0]| - 1..] == plan[0] + "."
  {
    var r := PlanHeader + PlanText(plan) + StepHeader + NatToString(1) + ", " + plan[0] + ".";
    assert r == (PlanHeader + PlanText(plan)) + (StepHeader + NatToString(1) + ", " + plan[0] + ".");
    r
  }

  /**
   * The context prompt: the intro, then a knowledge section only when there is
   * knowledge, then a history section only when there are past steps.
   */
  function ContextPrompt(p: Texts, question: string, knowledge: string, pastSteps: seq<Step>): (r: string)
    ensures var intro := AssistantIntro(p, question);
      var k := KnowledgeHeader + knowledge;
      var h := HistoryHeader + ShowSteps(pastSteps);
      && intro <= r
      && |r| == |intro| + (if knowledge != "" then |k| else 0) + (if pastSteps != [] then |h| else 0)
      && (knowledge != "" ==> r[|intro|..|intro| + |k|] == k)
      && (pastSteps != [] ==> r[|r| - |h|..] == h)
  {
    var intro := AssistantIntro(p, question);
    var k := if knowledge != "" then KnowledgeHeader + knowledge else "";
    var h := if pastSteps != [] then HistoryHeader + ShowSteps(pastSteps) else "";
    ThreeParts(intro, k, h);
    intro + k + h
  }

  /** The first message of a fresh transcript: the context prompt with the attachment (a human message). */
  function ContextMessage(p: Texts, s: TaskState, knowledge: string): Msg
    requires FromReadFile(s) && !EncodeRaises(s)
  {
    Msg(Human, Parts(AddFileToPrompt(ContextPrompt(p, s.question, knowledge, s.pastSteps), s)), 0)
  }

  /** The second message of a fresh transcript: the task instruction. */
  function TaskMessage(plan: seq<string>): Msg
    requires |plan| > 0
  {
    Msg(Human, Text(TaskText(plan)), 0)
  }

  /** No tool results to ingest and no transcript: a new plan step starts. */
  predicate Fresh(s: TaskState) {
    |s.assistantMessages| == 0 && |s.toolMessages| == 0
  }

  /**
   * When the assistant does not raise: starting a step reads `plan[0]` and
   * encodes the attachment, so it needs a plan and an encodable attachment.
   */
  predicate AssistantCanRun(s: TaskState) {
    FromReadFile(s) && (Fresh(s) ==> |s.plan| > 0 && !EncodeRaises(s))
  }

  /**
   * The assistant's update. The transcript is the old one, then the tool
   * messages, then (for a fresh step) the context and task messages, then
   * the model's response to everything before it; `tool_messages` becomes
   * exactly [response] and knowledge grows by the tool results.
   */
  function AssistantUpdate(p: Texts, s: TaskState, respond: seq<Msg> -> Msg): (u: Update)
    requires AssistantCanRun(s)
    ensures u.plan.None? && u.pastSteps == [] && u.answer.None?
    ensures u.assistantMessages.Some? && u.toolMessages.Some? && u.collectedKnowledge.Some?
    ensures var t := u.assistantMessages.value; var n := |s.assistantMessages| + |s.toolMessages|;
      && |t| == n + (if Fresh(s) then 3 else 1)
      && t[..n] == s.assistantMessages + s.toolMessages
      && (Fresh(s) ==> t[0] == ContextMessage(p, s, s.collectedKnowledge) && t[1] == TaskMessage(s.plan))
      && t[|t| - 1] == respond(t[..|t| - 1])
      && u.toolMessages.value == [t[|t| - 1]]
    ensures u.collectedKnowledge.value == Ingest(s.collectedKnowledge, s.toolMessages)
  {
    var knowledge := Ingest(s.collectedKnowledge, s.toolMessages);
    var t := s.assistantMessages + s.toolMessages;
    var started := if |t| == 0 then [ContextMessage(p, s, knowledge), TaskMessage(s.plan)] else t;
    var response := respond(started);
    assert (started + [response])[..|started|] == started;
    Update(None, [], None, Some(started + [response]), Some([response]), Some(knowledge))
  }

  /**
   * A fresh transcript: the context prompt built section by section and
   * attached to the file, then the task instruction for step 1.
   */
  method OpenTranscript(p: Texts, s: TaskState, knowledge: string) returns (transcript: seq<Msg>)
    requires FromReadFile(s) && |s.plan| > 0 && !EncodeRaises(s)
    ensures transcript == [ContextMessage(p, s, knowledge), TaskMessage(s.plan)]
  {
    var prompt := AssistantIntro(p, s.question);
    if knowledge != "" {
      prompt := prompt + (KnowledgeHeader + knowledge);
    }
    if |s.pastSteps| > 0 {
      prompt := prompt + (HistoryHeader + ShowSteps(s.pastSteps));
    }
    assert prompt == ContextPrompt(p, s.question, knowledge, s.pastSteps);
    var systemMessage := Msg(Human, Parts(AddFileToPrompt(prompt, s)), 0);
    var planText := PlanText(s.plan);
    var task := s.plan[0];
    var humanMessage := Msg(Human, Text(PlanHeader + planText + StepHeader + NatToString(1) + ", " + task + "."), 0);
    transcript := [];
    transcript := transcript + [systemMessage];
    transcript := transcript + [humanMessage];
  }

  /** The assistant node, building its transcript and knowledge step by step as the program does. */
  method Assistant(p: Texts, s: TaskState, respond: seq<Msg> -> Msg) returns (u: Update)
    requires AssistantCanRun(s)
    ensures u == AssistantUpdate(p, s, respond)
  {
    var transcript := s.assistantMessages;
    var knowledge := s.collectedKnowledge;
    if |s.toolMessages| > 0 {
      transcript := transcript + s.toolMessages;
      knowledge := knowledge + Join(Blank, ToolContents(s.toolMessages)) + Blank;
    }
    assert knowledge == Ingest(s.collectedKnowledge, s.toolMessages);
    if |transcript| == 0 {
      transcript := OpenTranscript(p, s, knowledge);
    }
    ghost var started := transcript;
    assert started == if |s.assistantMessages + s.toolMessages| == 0 then [ContextMessage(p, s, knowledge), TaskMessage(s.plan)] else s.assistantMessages + s.toolMessages;
    var response := respond(transcript);
    transcript := transcript + [response];
    u := Update(None, [], None, Some(transcript), Some([response]), Some(knowledge));
  }

  /** Routing after the assistant: "tools" iff the last tool message requests a tool call. */
  function ToolsOrReplanner(s: TaskState): (n: Node)
    ensures n == ToolsNode <==> |s.toolMessages| > 0 && s.toolMessages[|s.toolMessages| - 1].toolCalls > 0
    ensures n == ToolsNode || n == ReplannerNode
  {
    if |s.toolMessages| > 0 then
      var last := s.toolMessages[|s.toolMessages| - 1];
      if last.toolCalls > 0 then ToolsNode else ReplannerNode
    else ReplannerNode
  }

  /** After the assistant, the route follows the response alone: tools iff it requests a call. */
  lemma RouteFollowsResponse(p: Texts, s: TaskState, respond: seq<Msg> -> Msg)
    requires AssistantCanRun(s)
    ensures var u := AssistantUpdate(p, s, respond); var t := u.assistantMessages.value;
      ToolsOrReplanner(Merge(s, u)) == (if t[|t| - 1].toolCalls > 0 then ToolsNode else ReplannerNode)
  {
  }
}
