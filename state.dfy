/**
 * The record threaded through every node of the task graph, the partial
 * updates the nodes return, and the way the graph runtime merges an update
 * into the record: `past_steps` carries the `operator.add` reducer, every
 * other field is replaced when the update names it and kept otherwise.
 */
module State {
  import opened Wrappers
  import opened Strings
  import Base64

  /** The nodes of the task graph, and END. */
  datatype Node = PlannerNode | AssistantNode | ToolsNode | ReplannerNode | ValidatorNode | End

  /** The kind of a chat message (system, human, AI or tool turn). */
  datatype Role = System | Human | Ai | Tool

  /** One element of a multi-part message content. */
  datatype Part = TextPart(text: string) | ImageUrlPart(url: string)

  /** A message content: a plain string, or a list of parts. */
  datatype Content = Text(text: string) | Parts(parts: seq<Part>)

  /** A chat message; `toolCalls` counts the tool calls an AI message requests. */
  datatype Msg = Msg(role: Role, content: Content, toolCalls: nat)

  /** A `past_steps` entry: (step description or tag, result). */
  type Step = (string, Content)

  /** The tag of the history entry the validator appends. */
  const ValidationTag := "Answer validation"

  /** What `read_file` produced for the attachment: raw bytes (images) or text. */
  datatype FileData = Absent | Raw(bytes: seq<Base64.Byte>) | Decoded(text: string)

  /**
   * The task state. The first five fields are inputs that no node updates;
   * `fileName` and `fileType` are "" where the program has None.
   */
  datatype TaskState = TaskState(
    question: string,
    taskId: string,
    fileName: string,
    fileType: string,
    fileContent: FileData,
    plan: seq<string>,
    pastSteps: seq<Step>,
    answer: string,
    assistantMessages: seq<Msg>,
    toolMessages: seq<Msg>,
    collectedKnowledge: string)

  /**
   * A node's partial update. There is no field for the inputs, so no node can
   * change them; `pastSteps` is the list handed to the reducer ([] when absent).
   */
  datatype Update = Update(
    plan: Option<seq<string>>,
    pastSteps: seq<Step>,
    answer: Option<string>,
    assistantMessages: Option<seq<Msg>>,
    toolMessages: Option<seq<Msg>>,
    collectedKnowledge: Option<string>)

  /** An update that names no field. */
  const NoUpdate := Update(None, [], None, None, None, None)

  /** The input fields agree. */
  predicate SameInputs(a: TaskState, b: TaskState) {
    a.question == b.question && a.taskId == b.taskId && a.fileName == b.fileName
    && a.fileType == b.fileType && a.fileContent == b.fileContent
  }

  /** The graph runtime's merge of a node's update into the state. */
  function Merge(s: TaskState, u: Update): (r: TaskState)
    ensures SameInputs(s, r)
    ensures s.pastSteps <= r.pastSteps && r.pastSteps[|s.pastSteps|..] == u.pastSteps
    ensures u.plan.Some? ==> r.plan == u.plan.value
    ensures u.plan.None? ==> r.plan == s.plan
    ensures u.answer.Some? ==> r.answer == u.answer.value
    ensures u.answer.None? ==> r.answer == s.answer
    ensures u.assistantMessages.Some? ==> r.assistantMessages == u.assistantMessages.value
    ensures u.assistantMessages.None? ==> r.assistantMessages == s.assistantMessages
    ensures u.toolMessages.Some? ==> r.toolMessages == u.toolMessages.value
    ensures u.toolMessages.None? ==> r.toolMessages == s.toolMessages
    ensures u.collectedKnowledge.Some? ==> r.collectedKnowledge == u.collectedKnowledge.value
    ensures u.collectedKnowledge.None? ==> r.collectedKnowledge == s.collectedKnowledge
  {
    s.(plan := u.plan.GetOr(s.plan),
       pastSteps := s.pastSteps + u.pastSteps,
       answer := u.answer.GetOr(s.answer),
       assistantMessages := u.assistantMessages.GetOr(s.assistantMessages),
       toolMessages := u.toolMessages.GetOr(s.toolMessages),
       collectedKnowledge := u.collectedKnowledge.GetOr(s.collectedKnowledge))
  }

  /** Merging an update that names no field leaves the state as it was. */
  lemma MergeNothing(s: TaskState)
    ensures Merge(s, NoUpdate) == s
  {
    assert s.pastSteps + [] == s.pastSteps;
  }

  /** Merging two updates in turn concatenates their `pastSteps` contributions in order. */
  lemma MergeTwice(s: TaskState, u: Update, v: Update)
    ensures Merge(Merge(s, u), v).pastSteps == s.pastSteps + u.pastSteps + v.pastSteps
  {
  }

  /** Python truthiness of a message content: a non-empty string or list. */
  predicate Truthy(c: Content) {
    match c
    case Text(t) => t != []
    case Parts(ps) => ps != []
  }

  /** `repr` of a content part, as Python prints the part's dictionary. */
  function ShowPart(p: Part): string {
    match p
    case TextPart(t) => "{'type': 'text', 'text': " + Quote(t) + "}"
    case ImageUrlPart(u) => "{'type': 'image_url', 'image_url': {'url': " + Quote(u) + "}}"
  }

  function ShowParts(ps: seq<Part>): (r: seq<string>)
    ensures |r| == |ps| && forall i :: 0 <= i < |ps| ==> r[i] == ShowPart(ps[i])
  {
    if |ps| == 0 then [] else [ShowPart(ps[0])] + ShowParts(ps[1..])
  }

  /** `repr` of a content (as it appears inside a printed list or tuple). */
  function ShowContent(c: Content): string {
    match c
    case Text(t) => Quote(t)
    case Parts(ps) => ListText(ShowParts(ps))
  }

  /** `str` of a content: a string stays as it is, a list is printed. */
  function Str(c: Content): (r: string)
    ensures c.Text? ==> r == c.text
  {
    match c
    case Text(t) => t
    case Parts(_) => ShowContent(c)
  }

  function ShowStep(st: Step): string {
    PairText(Quote(st.0), ShowContent(st.1))
  }

  function ShowStepList(ps: seq<Step>): (r: seq<string>)
    ensures |r| == |ps| && forall i :: 0 <= i < |ps| ==> r[i] == ShowStep(ps[i])
  {
    if |ps| == 0 then [] else [ShowStep(ps[0])] + ShowStepList(ps[1..])
  }

  /** `str(past_steps)`: the printed list of (step, result) tuples. */
  function ShowSteps(ps: seq<Step>): string {
    ListText(ShowStepList(ps))
  }
}
