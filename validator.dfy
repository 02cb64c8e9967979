/**
 * The validator node: asks the format-review model whether the proposed
 * answer has the required form, records the review's feedback in the history
 * and revokes a rejected answer; and the routing predicate that ends the run
 * exactly when an answer survived the review.
 */
module Validator {
  import opened Wrappers
  import opened State
  import opened Prompts
  import Replanner

  /** The review model's structured output. */
  datatype Verdict = Verdict(accepted: bool, feedback: string)

  const AnswerLead := "\n\nAssistant's answer:\n"

  /** The review prompt: the instructions, the question, then the answer under review at the very end. */
  function ValidatorPrompt(p: Texts, question: string, answer: string): (r: string)
    ensures p.reviewLead + question + AnswerLead <= r
    ensures |answer| <= |r| && r[|r| - |answer|..] == answer
  {
    var head := p.reviewLead + question + AnswerLead;
    assert (head + answer)[|head|..] == answer;
    head + answer
  }

  /** The single human message sent to the review model. */
  function ValidatorMessages(p: Texts, s: TaskState): seq<Msg> {
    [Msg(Human, Text(ValidatorPrompt(p, s.question, s.answer)), 0)]
  }

  /**
   * The validator's update: the tool transcript is cleared, one validation
   * entry carrying the feedback is appended to the history whatever the
   * verdict, and the answer is kept only when it is accepted.
   */
  function ValidatorUpdate(p: Texts, s: TaskState, judge: seq<Msg> -> Verdict): (u: Update)
    ensures var v := judge(ValidatorMessages(p, s));
      u.pastSteps == [(ValidationTag, Text(v.feedback))]
      && u.answer == Some(if v.accepted then s.answer else "")
    ensures u.toolMessages == Some([])
    ensures u.plan.None? && u.assistantMessages.None? && u.collectedKnowledge.None?
  {
    var verdict := judge(ValidatorMessages(p, s));
    var answer := if !verdict.accepted then "" else s.answer;
    Update(None, [(ValidationTag, Text(verdict.feedback))], Some(answer), None, Some([]), None)
  }

  /** Routing after the validator: the end of the run iff an answer is present. */
  function ValidatorApproval(s: TaskState): (n: Node)
    ensures n == End <==> s.answer != ""
    ensures n == End || n == ReplannerNode
  {
    if s.answer != "" then End else ReplannerNode
  }

  /**
   * After the review the run ends iff the model accepted a non-empty answer;
   * a rejection goes back to the replanner. Either way the feedback is the
   * newest history entry, and the replanner highlights it iff it is non-empty.
   */
  lemma ReviewDecidesEnd(p: Texts, s: TaskState, judge: seq<Msg> -> Verdict)
    ensures var v := judge(ValidatorMessages(p, s)); var r := Merge(s, ValidatorUpdate(p, s, judge));
      (ValidatorApproval(r) == End <==> v.accepted && s.answer != "")
      && r.pastSteps == s.pastSteps + [(ValidationTag, Text(v.feedback))]
      && (Replanner.ValidatorFeedback(r.pastSteps).Some? <==> v.feedback != "")
  {
  }
}
