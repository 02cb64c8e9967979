/**
 * The driver: for each question it reads the attachment, builds the initial
 * state, invokes the compiled graph under the recursion limit inside the
 * retry loop, and collects one payload entry per answered question. Fetching
 * the questions and submitting the answers are left to the caller.
 */
module Tasks {
  import opened Wrappers
  import opened State
  import opened Prompts
  import opened Utils
  import opened Executor
  import opened Graph
  import opened Validator
  import Base64

  /** The graph's recursion limit: node executions allowed in one run. */
  const RecursionLimit: nat := 30

  /** Attempts per question in the retry loop. */
  const Attempts: nat := 1

  /**
   * A question as fetched, with what the file system would give for its
   * attachment: the guessed MIME type, the bytes, the text and the
   * spreadsheet rendering. `fileName` is "" when there is no attachment.
   */
  datatype Question = Question(
    text: string,
    taskId: string,
    fileName: string,
    mime: Option<string>,
    raw: seq<Base64.Byte>,
    fileText: string,
    table: string)

  /** One entry of the answers payload. */
  datatype AnswerEntry = AnswerEntry(taskId: string, submittedAnswer: string)

  /** The attachment as `read_file` classifies it. */
  function Attachment(q: Question): FileRead
    requires q.fileName != ""
  {
    ReadFile(q.fileName, q.mime, q.raw, q.fileText, q.table)
  }

  /**
   * The state the graph is invoked with: the question, the task id "1", the
   * attachment as read (None when there is none), no answer, empty
   * transcripts and no knowledge. The plan is written by the planner before
   * any node reads it and `past_steps` starts empty under its reducer.
   */
  function InitialState(q: Question): (s: TaskState)
    ensures FromReadFile(s) && RouteInv(PlannerNode, s)
    ensures s.question == q.text && s.taskId == "1" && s.fileName == q.fileName
    ensures q.fileName == "" ==> s.fileType == "" && s.fileContent.Absent?
    ensures q.fileName != "" ==> s.fileType == Attachment(q).kind && s.fileContent == Attachment(q).content
    ensures s.plan == [] && s.pastSteps == [] && s.answer == ""
    ensures s.assistantMessages == [] && s.toolMessages == [] && s.collectedKnowledge == ""
  {
    var file := if q.fileName != "" then Attachment(q) else FileRead("", Absent);
    var s := TaskState(q.text, "1", q.fileName, file.kind, file.content, [], [], "", [], [], "");
    if q.fileName != "" then ReadFileFits(s, q.mime, q.raw, q.fileText, q.table); s else s
  }

  /** One invocation of the compiled graph, from START, under the recursion limit. */
  function Attempt(p: Texts, q: Question, o: Oracle): RunResult {
    Run(p, PlannerNode, InitialState(q), o, 0, RecursionLimit)
  }

  /**
   * The retry loop from attempt `i` on: the recursion error moves on to the
   * next attempt, any other exception gives up, and a finished run is the
   * answer.
   */
  function Tries(p: Texts, q: Question, os: nat -> Oracle, i: nat): (r: Option<TaskState>)
    ensures r.Some? ==> exists j :: i <= j < Attempts && Attempt(p, q, os(j)).outcome == Finished(r.value)
    decreases Attempts - i
  {
    if i >= Attempts then None
    else match Attempt(p, q, os(i)).outcome
      case Finished(f) => Some(f)
      case Failed(_) => None
      case RecursionLimit => Tries(p, q, os, i + 1)
  }

  /** What a question contributes to the payload. */
  function Entry(p: Texts, q: Question, os: nat -> Oracle): seq<AnswerEntry> {
    match Tries(p, q, os, 0)
    case Some(f) => [AnswerEntry(q.taskId, f.answer)]
    case None => []
  }

  /** Each question's contribution, in question order; question `i` sees the oracles `os(i)`. */
  function Entries(p: Texts, qs: seq<Question>, os: nat -> nat -> Oracle): (es: seq<seq<AnswerEntry>>)
    ensures |es| == |qs| && forall i :: 0 <= i < |qs| ==> es[i] == Entry(p, qs[i], os(i))
  {
    seq(|qs|, i requires 0 <= i < |qs| => Entry(p, qs[i], os(i)))
  }

  /** The contributions one after the other, as `extend` builds the payload. */
  function Concat(parts: seq<seq<AnswerEntry>>): seq<AnswerEntry> {
    if |parts| == 0 then [] else Concat(parts[..|parts| - 1]) + parts[|parts| - 1]
  }

  /** The payload for the questions in order. */
  function Payload(p: Texts, qs: seq<Question>, os: nat -> nat -> Oracle): seq<AnswerEntry> {
    Concat(Entries(p, qs, os))
  }

  /** The retry loop for one question: the final state of the first run that finishes, if any. */
  method TryAttempts(p: Texts, q: Question, os: nat -> Oracle) returns (taskAnswer: Option<TaskState>)
    ensures taskAnswer == Tries(p, q, os, 0)
  {
    taskAnswer := None;
    var i := 0;
    while i < Attempts
      invariant 0 <= i <= Attempts
      invariant taskAnswer.None? && Tries(p, q, os, 0) == Tries(p, q, os, i)
    {
      var r := Attempt(p, q, os(i));
      if r.outcome.RecursionLimit? {
        i := i + 1;
        continue;
      }
      if r.outcome.Failed? {
        break;
      }
      taskAnswer := Some(r.outcome.final);
      break;
    }
  }

  /**
   * `call_model`'s execution part: the loop over the questions with the
   * retry loop inside it.
   */
  method CallModel(p: Texts, qs: seq<Question>, os: nat -> nat -> Oracle) returns (payload: seq<AnswerEntry>)
    ensures payload == Payload(p, qs, os)
  {
    payload := [];
    var n := 0;
    while n < |qs|
      invariant 0 <= n <= |qs|
      invariant payload == Payload(p, qs[..n], os)
    {
      var q := qs[n];
      var taskAnswer := TryAttempts(p, q, os(n));
      PayloadNext(p, qs, os, n);
      if taskAnswer.Some? {
        var answersPayload := [AnswerEntry(q.taskId, taskAnswer.value.answer)];
        payload := payload + answersPayload;
      }
      n := n + 1;
    }
    assert qs[..n] == qs;
  }

  /** One more question extends the payload by that question's contribution. */
  lemma PayloadNext(p: Texts, qs: seq<Question>, os: nat -> nat -> Oracle, n: nat)
    requires n < |qs|
    ensures Payload(p, qs[..n + 1], os) == Payload(p, qs[..n], os) + Entry(p, qs[n], os(n))
  {
    assert Entries(p, qs[..n + 1], os)[..n] == Entries(p, qs[..n], os);
  }

  /**
   * With the single attempt, a question is answered exactly when its one run
   * reaches END, and the answer is that run's final state; running out of
   * steps or raising gives no answer.
   */
  lemma SingleAttempt(p: Texts, q: Question, os: nat -> Oracle)
    ensures var r := Attempt(p, q, os(0));
      Tries(p, q, os, 0) == (if r.outcome.Finished? then Some(r.outcome.final) else None)
  {
  }

  /**
   * An answered question's final state keeps the question's inputs, holds
   * the non-empty answer the validator accepted last, and was reached in at
   * most `RecursionLimit` node executions.
   */
  lemma AnsweredMeansAccepted(p: Texts, q: Question, os: nat -> Oracle)
    requires Tries(p, q, os, 0).Some?
    ensures var f := Tries(p, q, os, 0).value; var t := Attempt(p, q, os(0)).trace;
      && SameInputs(InitialState(q), f)
      && f.answer != ""
      && 0 < |t| <= RecursionLimit
      && f.answer == t[|t| - 1].state.answer
      && t[|t| - 1].node == ValidatorNode
      && os(0).judge(t[|t| - 1].steps)(ValidatorMessages(p, t[|t| - 1].state)).accepted
  {
    SingleAttempt(p, q, os);
    var s := InitialState(q);
    RunGrows(p, PlannerNode, s, os(0), 0, RecursionLimit);
    RunIsExecution(p, PlannerNode, s, os(0), 0, RecursionLimit);
    FinishedMeansAccepted(p, PlannerNode, s, os(0), 0, RecursionLimit);
  }

  /**
   * An attachment named as an image whose MIME type is not an image cannot
   * be encoded: the planner raises and the question gets no answer.
   */
  lemma UnencodableAttachmentFails(p: Texts, q: Question, os: nat -> Oracle)
    requires EncodeRaises(InitialState(q))
    ensures Attempt(p, q, os(0)).outcome == Failed(PlannerNode)
    ensures Tries(p, q, os, 0).None?
  {
    SingleAttempt(p, q, os);
    RunOutcome(p, PlannerNode, InitialState(q), os(0), 0, RecursionLimit);
    RunIsExecution(p, PlannerNode, InitialState(q), os(0), 0, RecursionLimit);
  }

  /**
   * A model call that raises ends the retry loop: when the planner's call
   * fails the question gets no answer, and no further attempt is made.
   */
  lemma FailedCallGivesNoAnswer(p: Texts, q: Question, os: nat -> Oracle)
    requires os(0).callFails(0)
    ensures Attempt(p, q, os(0)).outcome == Failed(PlannerNode)
    ensures Tries(p, q, os, 0).None?
  {
    SingleAttempt(p, q, os);
    RunOutcome(p, PlannerNode, InitialState(q), os(0), 0, RecursionLimit);
    RunIsExecution(p, PlannerNode, InitialState(q), os(0), 0, RecursionLimit);
  }

  /** `e` is the entry of the answered question `q`: its task id and its non-empty final answer. */
  predicate Answers(p: Texts, q: Question, os: nat -> Oracle, e: AnswerEntry) {
    && Tries(p, q, os, 0).Some?
    && e == AnswerEntry(q.taskId, Tries(p, q, os, 0).value.answer)
    && e.submittedAnswer != ""
  }

  /** A question contributes at most one entry, and only an answer to itself. */
  lemma EntryAnswers(p: Texts, q: Question, os: nat -> Oracle)
    ensures var e := Entry(p, q, os);
      && |e| <= 1
      && (|e| == 1 <==> Tries(p, q, os, 0).Some?)
      && (|e| == 1 ==> Answers(p, q, os, e[0]))
  {
    if Tries(p, q, os, 0).Some? {
      AnsweredMeansAccepted(p, q, os);
    }
  }

  /** The positions of the non-empty parts, in increasing order. */
  function Positions(parts: seq<seq<AnswerEntry>>): (a: seq<nat>)
    ensures forall j :: 0 <= j < |a| ==> a[j] < |parts|
  {
    if |parts| == 0 then []
    else Positions(parts[..|parts| - 1]) + (if |parts[|parts| - 1]| > 0 then [|parts| - 1] else [])
  }

  /** The positions are increasing and are exactly the indices of the non-empty parts. */
  lemma {:induction false} PositionsExact(parts: seq<seq<AnswerEntry>>)
    ensures var a := Positions(parts);
      && (forall j, k :: 0 <= j < k < |a| ==> a[j] < a[k])
      && (forall i :: 0 <= i < |parts| ==> (|parts[i]| > 0 <==> i in a))
  {
    if |parts| > 0 {
      var init := parts[..|parts| - 1];
      PositionsExact(init);
      var a, ai := Positions(parts), Positions(init);
      assert a == ai + (if |parts[|parts| - 1]| > 0 then [|parts| - 1] else []);
      forall i | 0 <= i < |init|
        ensures |parts[i]| > 0 <==> i in a
      {
        assert parts[i] == init[i];
      }
      assert |parts| - 1 !in ai;
    }
  }

  /**
   * Concatenating parts of at most one entry each: entry `j` is the whole of
   * the part at position `j`, so there is one entry per non-empty part.
   */
  lemma {:induction false} ConcatSingles(parts: seq<seq<AnswerEntry>>)
    requires forall i :: 0 <= i < |parts| ==> |parts[i]| <= 1
    ensures var c := Concat(parts); var a := Positions(parts);
      && |c| == |a| <= |parts|
      && (forall j :: 0 <= j < |a| ==> parts[a[j]] == [c[j]])
  {
    if |parts| > 0 {
      var init := parts[..|parts| - 1];
      var last := parts[|parts| - 1];
      ConcatSingles(init);
      var c, a := Concat(parts), Positions(parts);
      var ci, ai := Concat(init), Positions(init);
      assert c == ci + last;
      assert a == ai + (if |last| > 0 then [|parts| - 1] else []);
      forall j | 0 <= j < |a|
        ensures parts[a[j]] == [c[j]]
      {
        if j < |ai| {
          assert parts[ai[j]] == init[ai[j]];
        } else {
          assert a[j] == |parts| - 1 && c[j] == last[0];
        }
      }
    }
  }

  /**
   * The payload holds one entry per answered question and nothing else:
   * entry `j` answers the `j`-th answered question, in question order, with
   * the task id and the non-empty answer of that question's final state.
   */
  lemma PayloadAnswers(p: Texts, qs: seq<Question>, os: nat -> nat -> Oracle)
    ensures var pl := Payload(p, qs, os); var a := Positions(Entries(p, qs, os));
      && |pl| == |a| <= |qs|
      && (forall j, k :: 0 <= j < k < |a| ==> a[j] < a[k])
      && (forall j :: 0 <= j < |a| ==> a[j] < |qs| && Answers(p, qs[a[j]], os(a[j]), pl[j]))
      && (forall i :: 0 <= i < |qs| ==> (Tries(p, qs[i], os(i), 0).Some? <==> i in a))
  {
    var es := Entries(p, qs, os);
    forall i | 0 <= i < |qs|
      ensures |es[i]| <= 1 && (|es[i]| > 0 <==> Tries(p, qs[i], os(i), 0).Some?)
    {
      EntryAnswers(p, qs[i], os(i));
    }
    ConcatSingles(es);
    PositionsExact(es);
    var pl, a := Payload(p, qs, os), Positions(es);
    forall j | 0 <= j < |a|
      ensures Answers(p, qs[a[j]], os(a[j]), pl[j])
    {
      assert es[a[j]] == [pl[j]];
      EntryAnswers(p, qs[a[j]], os(a[j]));
    }
  }
}
