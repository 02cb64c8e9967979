/**
 * The replanner node: records the finished step in the history, asks the
 * replanning model for either a final answer or the remaining plan (with the
 * validator's feedback highlighted when the latest history entry is one),
 * and clears the step's transcripts; and the routing predicate that sends a
 * proposed answer to the validator.
 */
module Replanner {
  import opened Wrappers
  import opened Strings
  import opened State
  import opened Prompts
  import opened Utils

  /** The replanning model's structured decision. */
  datatype Act = Answer(response: string) | NewPlan(steps: seq<string>)

  const PlanLead := "\n\nYour original plan was this:\n"
  const StepsLead := "\n\nYou have currently done the follow steps:\n"

  /** The replanner does not raise: a recorded step reads `plan[0]`, and the prompt encodes the attachment. */
  predicate ReplannerCanRun(s: TaskState) {
    FromReadFile(s) && !EncodeRaises(s) && (|s.assistantMessages| > 0 ==> |s.plan| > 0)
  }

  /**
   * The history after recording the step: with a transcript, exactly one entry
   * (current step, content of the last transcript message) is appended;
   * without one the history is untouched.
   */
  function RecordStep(s: TaskState): (ps: seq<Step>)
    requires |s.assistantMessages| > 0 ==> |s.plan| > 0
    ensures s.pastSteps <= ps
    ensures |ps| == |s.pastSteps| + (if |s.assistantMessages| > 0 then 1 else 0)
    ensures |s.assistantMessages| > 0 ==>
      ps[|ps| - 1] == (s.plan[0], s.assistantMessages[|s.assistantMessages| - 1].content)
  {
    if |s.assistantMessages| > 0 then
      s.pastSteps + [(s.plan[0], s.assistantMessages[|s.assistantMessages| - 1].content)]
    else s.pastSteps
  }

  /** The validator feedback to highlight: the latest entry's text, if it is a non-empty validation entry. */
  function ValidatorFeedback(ps: seq<Step>): (fb: Option<Content>)
    ensures fb.Some? <==> |ps| > 0 && ps[|ps| - 1].0 == ValidationTag && Truthy(ps[|ps| - 1].1)
    ensures fb.Some? ==> fb.value == ps[|ps| - 1].1
  {
    if |ps| > 0 && ps[|ps| - 1].0 == ValidationTag && Truthy(ps[|ps| - 1].1) then Some(ps[|ps| - 1].1)
    else None
  }

  /** The fixed part of the replanning prompt: objective, plan and history. */
  function ReplanIntro(p: Texts, question: string, plan: seq<string>, ps: seq<Step>): string {
    p.replanLead + question + PlanLead + ShowList(plan) + StepsLead + ShowSteps(ps) + p.replanTail
  }

  /** The replanning prompt: the intro, followed by the highlighted feedback exactly when there is some. */
  function ReplannerPrompt(p: Texts, s: TaskState, ps: seq<Step>): (r: string)
    ensures ReplanIntro(p, s.question, s.plan, ps) <= r
    ensures ValidatorFeedback(ps).None? ==> r == ReplanIntro(p, s.question, s.plan, ps)
    ensures ValidatorFeedback(ps).Some? ==>
      r[|ReplanIntro(p, s.question, s.plan, ps)|..] == p.feedbackHeader + Str(ValidatorFeedback(ps).value)
  {
    var intro := ReplanIntro(p, s.question, s.plan, ps);
    match ValidatorFeedback(ps)
    case None => intro
    case Some(fb) =>
      ThreeParts(intro, p.feedbackHeader + Str(fb), "");
      assert intro + (p.feedbackHeader + Str(fb)) + "" == intro + (p.feedbackHeader + Str(fb));
      intro + (p.feedbackHeader + Str(fb))
  }

  /** The replanner's single system message. */
  function ReplannerMessages(p: Texts, s: TaskState, ps: seq<Step>): seq<Msg>
    requires FromReadFile(s) && !EncodeRaises(s)
  {
    [Msg(System, Parts(AddFileToPrompt(ReplannerPrompt(p, s, ps), s)), 0)]
  }

  /**
   * The replanner's returned update. Both branches clear both transcripts and
   * leave `past_steps` out; an answer sets `answer` and keeps the plan, a new
   * plan replaces the plan and clears `answer`.
   */
  function ReplannerUpdate(act: Act): (u: Update)
    ensures u.pastSteps == [] && u.collectedKnowledge.None?
    ensures u.assistantMessages == Some([]) && u.toolMessages == Some([])
    ensures act.Answer? ==> u.answer == Some(act.response) && u.plan.None?
    ensures act.NewPlan? ==> u.plan == Some(act.steps) && u.answer == Some("")
  {
    match act
    case Answer(response) => Update(None, [], Some(response), Some([]), Some([]), None)
    case NewPlan(steps) => Update(Some(steps), [], Some(""), Some([]), Some([]), None)
  }

  /** The replanner node as the program runs it: the history it extends in place, and its update. */
  method Replanner(p: Texts, s: TaskState, decide: seq<Msg> -> Act) returns (pastSteps: seq<Step>, u: Update)
    requires ReplannerCanRun(s)
    ensures pastSteps == RecordStep(s)
    ensures u == ReplannerUpdate(decide(ReplannerMessages(p, s, pastSteps)))
  {
    pastSteps := s.pastSteps;
    if |s.assistantMessages| > 0 {
      var lastMessage := s.assistantMessages[|s.assistantMessages| - 1];
      var task := s.plan[0];
      pastSteps := pastSteps + [(task, lastMessage.content)];
    }
    var prompt := ReplanIntro(p, s.question, s.plan, pastSteps);
    var feedback := Text("");
    if |pastSteps| > 0 {
      var (tag, message) := pastSteps[|pastSteps| - 1];
      if tag == ValidationTag {
        feedback := message;
      }
    }
    assert Truthy(feedback) <==> ValidatorFeedback(pastSteps).Some?;
    assert Truthy(feedback) ==> feedback == ValidatorFeedback(pastSteps).value;
    if Truthy(feedback) {
      prompt := prompt + (p.feedbackHeader + Str(feedback));
    }
    assert prompt == ReplannerPrompt(p, s, pastSteps);
    var messages := [Msg(System, Parts(AddFileToPrompt(prompt, s)), 0)];
    assert messages == ReplannerMessages(p, s, pastSteps);
    var act := decide(messages);
    match act {
      case Answer(response) =>
        u := Update(None, [], Some(response), Some([]), Some([]), None);
      case NewPlan(steps) =>
        u := Update(Some(steps), [], Some(""), Some([]), Some([]), None);
    }
  }

  /** The state after the replanner: its in-place history append, then its update merged. */
  function ReplannerStep(p: Texts, s: TaskState, decide: seq<Msg> -> Act): TaskState
    requires ReplannerCanRun(s)
  {
    var ps := RecordStep(s);
    Merge(s.(pastSteps := ps), ReplannerUpdate(decide(ReplannerMessages(p, s, ps))))
  }

  /** Routing after the replanner: "validator" iff an answer is present. */
  function AnswerProvided(s: TaskState): (n: Node)
    ensures n == ValidatorNode <==> s.answer != ""
    ensures n == ValidatorNode || n == AssistantNode
  {
    if s.answer != "" then ValidatorNode else AssistantNode
  }

  /**
   * An empty answer from the model sends the unchanged plan back to the
   * assistant, which starts the same step afresh.
   */
  lemma EmptyAnswerRetriesStep(p: Texts, s: TaskState, decide: seq<Msg> -> Act)
    requires ReplannerCanRun(s)
    requires decide(ReplannerMessages(p, s, RecordStep(s))) == Answer("")
    ensures var r := ReplannerStep(p, s, decide);
      AnswerProvided(r) == AssistantNode && r.plan == s.plan
      && r.assistantMessages == [] && r.toolMessages == []
  {
  }
}
