/**
 * The planner node: asks the planning model for a step list and stores it
 * as the plan. The model is an oracle from the messages it is shown to the
 * steps it returns.
 */
module Planner {
  import opened Wrappers
  import opened State
  import opened Prompts
  import opened Utils


  /**
   * The planner's two messages: the planner prompt with the attachment folded
   * in, as a system message, then the question verbatim as a human message.
   */
  function PlannerMessages(p: Texts, s: TaskState): (ms: seq<Msg>)
    requires FromReadFile(s) && !EncodeRaises(s)
    ensures |ms| == 2
    ensures ms[0].role == System && ms[0].content.Parts? && ms[0].content.parts == AddFileToPrompt(p.planner, s)
    ensures ms[1] == Msg(Human, Text(s.question), 0)
  {
    [Msg(System, Parts(AddFileToPrompt(p.planner, s)), 0), Msg(Human, Text(s.question), 0)]
  }

  /** The planner's update: only `plan`, set to the steps the model returned for those messages. */
  function PlannerUpdate(p: Texts, s: TaskState, steps: seq<Msg> -> seq<string>): (u: Update)
    requires FromReadFile(s) && !EncodeRaises(s)
    ensures u.plan == Some(steps(PlannerMessages(p, s)))
    ensures u.pastSteps == [] && u.answer.None? && u.assistantMessages.None?
    ensures u.toolMessages.None? && u.collectedKnowledge.None?
  {
    Update(Some(steps(PlannerMessages(p, s))), [], None, None, None, None)
  }

  /** After the planner only the plan differs; history, answer, transcripts and knowledge are kept. */
  lemma PlannerKeepsTheRest(p: Texts, s: TaskState, steps: seq<Msg> -> seq<string>)
    requires FromReadFile(s) && !EncodeRaises(s)
    ensures Merge(s, PlannerUpdate(p, s, steps)) == s.(plan := steps(PlannerMessages(p, s)))
  {
    assert s.pastSteps + [] == s.pastSteps;
  }
}
