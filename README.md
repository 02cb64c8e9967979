# Task controller of the LangGraph question-answering agent

This project models the controller of an agent that answers benchmark
questions with a LangGraph state graph. A question, with an optional
attachment, is turned into an initial `TaskState`. The compiled graph then runs
five nodes over it:

- the **planner** writes a plan;
- the **assistant** executes the first step of the plan with the help of tools;
- the **tools** node answers the assistant's tool calls;
- the **replanner** records the finished step and either proposes a final
  answer or a new plan;
- the **validator** reviews the format of a proposed answer and either ends
  the run or sends it back to the replanner.

The driver runs the graph once per question under a recursion limit of 30
and collects the answers of the runs that finish.

The model is written in Dafny, one module per source file:

| module | models |
|---|---|
| `State` (state.dfy) | `TaskState`, node updates, and the runtime's merge, where `past_steps` is concatenated and every other field is replaced |
| `Planner`, `Assistant`, `Replanner`, `Validator` | the four model-calling nodes and their routing conditions |
| `Utils` | `read_file`'s classification of attachments and `add_file_to_prompt` |
| `Base64` | the encoding of section 4 of RFC 4648 that `b64encode` produces, with its decoder |
| `Strings` | the Python string formatting the prompts rely on: `join`, `str(int)`, and the `repr` of a list and of a pair |
| `Printed` (printed.dfy) | what `str(past_steps)` shows: every (step, result) tuple at its place and in order |
| `Executor` | the graph runtime's run loop, for any step function: it stops at END, on the recursion limit, or on an exception |
| `Graph` | the edge table, the tool node, and a node step as update plus merge plus routing; it also holds the run-level properties |
| `Tasks` | the driver: the initial state, the retry loop, and the payload of answers |
| `Prompts` | the instruction texts; every node takes them as a parameter, and `Prompts.Source` holds the program's wording |

The language models and the tools are *oracles*. They are functions from the
step number and the messages shown to the model to what the model returns.
A run is therefore deterministic but arbitrary, and every run-level property
holds for every behaviour of the models.

The exceptions raised in a node's own code are modelled by `Graph.Raises`:

- reading `plan[0]` of an empty plan;
- `b64encode` of a text attachment whose extension made it an "image";
- the tool node finding no message to answer.

The planner, the assistant, the replanner and the validator also call a
model service every time they run, and that call can raise. The oracle's
`callFails` says at which steps it does, and `Graph.Fails` combines both
kinds. A raising node ends the run with `Failed`, which the driver's
`except Exception` turns into "no answer".

The assistant and the replanner build their local lists step by step. They
are methods (`Assistant.Assistant`, `Assistant.OpenTranscript`,
`Replanner.Replanner`), each proved equal to the update function that the run
model uses. The driver's two loops are the methods `Tasks.CallModel` and
`Tasks.TryAttempts`, proved equal to `Tasks.Payload` and `Tasks.Tries`.

Behaviour of the code that is easy to misread:

- The initial state passes neither `plan` nor `past_steps`. The model starts
  them empty, because the planner writes the plan before any node reads it
  and the `operator.add` reducer starts from an empty list.
- The state's `task_id` is the constant "1" (main_mcp.py:99). The payload
  uses the question's real id.
- The validator appends its feedback entry to `past_steps` whether or not it
  accepts the answer.
- A replanner answer of "" routes back to the assistant, which restarts the
  unchanged plan's first step (`Replanner.EmptyAnswerRetriesStep`).
- An empty plan makes a fresh assistant step raise.

## Model

| member | source | states |
|---|---|---|
| State.Merge | state.py:9-25 | inputs are kept; `past_steps` becomes the old list followed by the update's entries; every other field is replaced when the update names it and kept otherwise |
| State.MergeNothing | state.py:9-25 | merging an update that names no field leaves the state unchanged |
| State.MergeTwice | state.py:21 | two successive updates append their histories in order |
| State.Str | assistant.py:43 | `str` of a string content is the string itself |
| Strings.JoinAt | assistant.py:43 | every item of a `sep.join(xs)` occurs in the result at its computed offset |
| Strings.NatToString | assistant.py:72 | `str(n)` is a non-empty string of decimal digits without a leading zero |
| Strings.DecimalRoundTrip | assistant.py:72 | reading the decimal digits of `str(n)` back gives `n` |
| Strings.Quote | replanner.py:63 | the quoted string is the original between two single quotes |
| Strings.JoinNext | assistant.py:43 | in a `sep.join(xs)`, item `i + 1` starts right after item `i` and one `sep`, and that `sep` is found there |
| Strings.FoundWithin | replanner.py:63-65 | text found inside a piece of a string is found in the string, at the summed offset |
| Strings.FoundNext | replanner.py:63-65 | two pieces found back to back form their concatenation |
| Strings.ListTextShows | replanner.py:63-65 | a printed list shows item `i` verbatim after the opening bracket at its join offset, followed by ", " unless it is last |
| Strings.ListTextNeighbours | replanner.py:63-65 | in a printed list, item `i`, ", " and item `i + 1` appear back to back |
| Strings.PairTextShows | replanner.py:65 | a printed pair shows its first part after "(", then ", ", then its second part |
| Strings.ListOfPairsShows | replanner.py:65 | in a printed list of pairs, pair `i` shows its first part, ", " and its second part after its "(" |
| Strings.ShowListShows | replanner.py:63 | the printed plan shows every step quoted, in order, after the opening bracket, each followed by ", " unless it is last |
| Strings.QuoteAll | replanner.py:63 | each plan step is printed quoted, in order |
| Printed.ShowStepsShows | replanner.py:65 | the printed history shows each (step, result) tuple verbatim at its place after the opening bracket |
| Printed.ShowStepsInOrder | replanner.py:65 | tuple `i + 1` starts two characters after tuple `i` ends, so the tuples appear in history order without overlap |
| Printed.ShowStepsNeighbours | replanner.py:65 | tuple `i`, ", " and tuple `i + 1` appear back to back in the printed history |
| Printed.ShowStepsShowPair | replanner.py:65 | inside the printed history, tuple `i` shows its quoted step, ", " and its printed result |
| Base64.CharOf | utils.py:145 | alphabet characters are never the padding character |
| Base64.IndexOfCharOf | utils.py:145 | the alphabet lookup inverts the alphabet |
| Base64.EncodeLength | utils.py:145 | the encoding has 4 characters per started group of 3 bytes |
| Base64.Encode | utils.py:145 | `b64encode`: each 3-byte group becomes 4 characters of the standard alphabet and a final 1 or 2 bytes are padded with `==` or `=`; `Base64.DecodeEncode` proves decoding gives the bytes back and `Base64.EncodeLength` gives the length |
| Base64.GroupRoundTrip | utils.py:145 | the four sextets of a 3-byte group reassemble into the group |
| Base64.OneByteBlock | utils.py:145 | a final single byte (padding `==`) decodes back |
| Base64.TwoByteBlock | utils.py:145 | two final bytes (padding `=`) decode back |
| Base64.FullBlock | utils.py:145 | a full 4-character block decodes to its 3 bytes |
| Base64.DecodeAppend | utils.py:145 | decoding proceeds block by block from the front |
| Base64.DecodeEncode | utils.py:145 | decoding the encoding of any byte string gives it back |
| Utils.AfterLastDot | utils.py:73 | the position after the last '.' before `i`: no dot lies between it and `i`, and a dot precedes it unless it is 0 |
| Utils.Extension | utils.py:73 | `split(".")[-1]` is the suffix after the last dot: it holds no dot and is preceded by one unless it is the whole name |
| Utils.ExtensionWithoutDot | utils.py:73 | a name without a dot is its own extension |
| Utils.PathJoin | utils.py:161 | `os.path.join` ends with the file name, and is `dir/name` for a relative name |
| Utils.ReadFile | utils.py:59-87 | an image MIME type gives ("image", bytes); otherwise the content is text and the kind is "unknown" for an empty extension, the extension with the table for xlsx/xls, "audio" with "" for mp3, and the extension with the file text for anything else |
| Utils.ReadFileFits | utils.py:59-87 | what `read_file` returns gives content for a named file, and raw bytes only under kind "image" |
| Utils.AddFileToPrompt | utils.py:133-179 | without a file, the prompt alone; an image gives the prompt plus the data URL `data:image/png;base64,` followed by exactly the base64 encoding of the file's bytes, which decodes back to them; audio appends the intro and `tmp/<name>`; anything else appends the intro and the file text |
| Planner.PlannerMessages | planner.py:49-55 | a system message with the planner prompt and attachment, then the question as a human message |
| Planner.PlannerUpdate | planner.py:57-63 | the planner's update names only `plan`, set to the steps the structured model call returned for the planner messages |
| Planner.PlannerKeepsTheRest | planner.py:61-63 | after the planner only `plan` differs, and it is what the model returned |
| Assistant.ToolContents | assistant.py:43 | one `str(content)` per tool message, in order |
| Assistant.IngestTexts | assistant.py:39-43 | knowledge only grows: by nothing without tool messages, otherwise by the results joined with blank lines plus a trailing blank line |
| Assistant.IngestKeepsResults | assistant.py:43 | each tool result appears in the new knowledge at its offset after the old knowledge |
| Assistant.PlanLines | assistant.py:72 | line `i` of the plan text is `i+1`, ". " and step `i` |
| Assistant.PlanTextLine | assistant.py:72 | each numbered line occurs in the plan text at its join offset |
| Assistant.PlanLineNumber | assistant.py:72 | each line begins with digits that read back as `i+1`, followed by ". " and the step |
| Assistant.PlanTextStartsWithFirstStep | assistant.py:72-73 | the plan text begins with "1. " and the first step |
| Assistant.TaskText | assistant.py:73-77 | the task instruction shows the whole plan, then ends with the first step and a period |
| Assistant.ContextPrompt | assistant.py:50-62 | the intro, then a knowledge section exactly when there is knowledge, then a history section exactly when there are past steps |
| Assistant.AssistantUpdate | assistant.py:26-94 | the new transcript is the old one plus the tool messages, plus the context and task messages for a fresh step, plus the response to all of it; `tool_messages` becomes [response]; knowledge is ingested; nothing else is named |
| Assistant.OpenTranscript | assistant.py:48-82 | a fresh transcript is exactly the context message (with the attachment) followed by the task message |
| Assistant.Assistant | assistant.py:26-94 | the step-by-step node returns exactly the update `AssistantUpdate` describes |
| Assistant.ToolsOrReplanner | assistant.py:97-112 | "tools" if and only if the last tool message requests a tool call, else "replanner" |
| Assistant.RouteFollowsResponse | assistant.py:87-112 | after the assistant the route depends only on whether the model's response requests a tool call |
| Replanner.RecordStep | replanner.py:50-54 | with a transcript, exactly one (current step, last message content) entry is appended; without one the history is unchanged |
| Replanner.ValidatorFeedback | replanner.py:73-80 | feedback is highlighted if and only if the newest entry is a non-empty validation entry, and it is that entry's content |
| Replanner.ReplannerPrompt | replanner.py:56-84 | the prompt is the intro, followed by the feedback header and feedback exactly when there is feedback |
| Replanner.ReplannerUpdate | replanner.py:97-109 | both branches clear both transcripts; an answer sets `answer` and keeps the plan; a new plan replaces the plan and clears `answer` |
| Replanner.ReplannerStep | replanner.py:50-109 | the replanner's step: the history with the finished step recorded, then the update for the model's decision on the replanning messages merged into it |
| Replanner.Replanner | replanner.py:43-109 | the step-by-step node extends the history as `RecordStep` does and returns `ReplannerUpdate` of the model's decision on `ReplannerMessages` |
| Replanner.AnswerProvided | replanner.py:112-118 | "validator" if and only if the answer is non-empty, else "assistant" |
| Replanner.EmptyAnswerRetriesStep | replanner.py:97-118 | an empty answer from the model routes to the assistant with the plan unchanged and both transcripts empty |
| Validator.ValidatorPrompt | validator.py:43-57 | the review prompt has the instructions and the question first and ends with the answer under review |
| Validator.ValidatorUpdate | validator.py:59-71 | one ("Answer validation", feedback) entry is appended; the answer is kept if accepted and cleared otherwise; `tool_messages` is cleared; nothing else is named |
| Validator.ValidatorApproval | validator.py:73-83 | END if and only if the answer is non-empty, else "replanner" |
| Validator.ReviewDecidesEnd | validator.py:63-83 | the run ends after the review if and only if the model accepted a non-empty answer; the replanner highlights the feedback if and only if it is non-empty |
| Graph.Successor | main_mcp.py:57-62 | the planner and the tools lead to the assistant; the other nodes follow their conditions; nothing leads back to the planner; only the validator leads to END |
| Graph.ToolsUpdate | main_mcp.py:50-54 | the tool node answers each tool call of the last message in order, and its answers replace `tool_messages` |
| Graph.GrowsTransitive | state.py:9-25 | keeping the inputs and extending history and knowledge is transitive |
| Graph.ApplyGrows | main_mcp.py:46-54 | every node execution keeps the inputs and extends the history and the knowledge at their ends |
| Graph.Raises | assistant.py:64-73 | a node's own code raises: the planner on an unencodable attachment; a fresh assistant step on an empty plan or an unencodable attachment; the replanner on an unencodable attachment or when it records a step of an empty plan; the tool node with no message to answer; the validator never |
| Graph.Apply | main_mcp.py:46-54 | the state after a node runs: its update merged into the state, with the replanner's finished step recorded first |
| Graph.Run | main_mcp.py:96-110 | one `ainvoke` of the compiled graph: the run loop with the graph's step, its failure test and the recursion limit as budget |
| Graph.StepGrows | main_mcp.py:46-62 | every executed step preserves "grown from the initial state" |
| Graph.RunIsExecution | main_mcp.py:96-110 | a run's trace starts at the start node, has at most `limit` entries and no END, and each non-final entry runs without raising and is followed by its successor |
| Graph.RunGrows | main_mcp.py:96-110 | along a run and in its final state the inputs are unchanged and history and knowledge extend the initial ones |
| Graph.RunOutcome | main_mcp.py:109-116 | a run fails exactly when its last node raises, in its own code or in its model call, and fails at that node; the recursion error comes only after `limit` node executions |
| Graph.StepRoutes | main_mcp.py:57-62 | after any node, the tool node runs only with a pending tool call, the validator only with an answer and empty transcripts, and END is reached only with an answer |
| Graph.StepRoutesAll | main_mcp.py:57-62 | every executed step preserves the routing invariant |
| Graph.RoutedFailure | main_mcp.py:50-54 | a routed configuration never fails at END or in the tool node, and fails in the validator only through its model call |
| Graph.OnlyModelNodesFail | main_mcp.py:57-62 | from a routed start a run never fails in the tool node; it fails in the validator only when the validator's model call raises; the failure is at the last node of the trace |
| Graph.FinishedMeansAccepted | main_mcp.py:62 | a finished run ended right after the validator's model call succeeded and accepted a non-empty answer, and that answer is the final one |
| Graph.ValidatorStep | validator.py:59-83 | the validator's step appends the feedback, keeps or clears the answer, clears `tool_messages` and routes by the answer; nothing else changes |
| Graph.RejectionReachesReplanner | validator.py:63-83 | a rejection with feedback reaches the replanner, which records no step and ends its prompt with the highlighted feedback |
| Graph.ToolsStep | main_mcp.py:60 | after the tool node the assistant runs next on the tool answers, and it cannot raise |
| Graph.AssistantIngests | assistant.py:39-43 | in a run, the assistant's step folds the pending tool results into the knowledge |
| Executor.ExecuteTrace | main_mcp.py:96-110 | the run loop's trace is an execution of the step function within the step budget |
| Executor.ExecuteOutcome | main_mcp.py:109-116 | the outcome is read off the trace: failure at the raising last entry, the recursion error at a full budget, or the END state that follows the last entry |
| Executor.ExecuteKeeps | main_mcp.py:96-110 | a property preserved by every step holds along the trace and in the final state |
| Executor.Execute | main_mcp.py:96-116 | the run loop stops at END with the state, at the budget with the recursion error, or at a raising node with `Failed`; the trace never exceeds the budget, and a failure is at a raising last entry |
| Tasks.InitialState | main_mcp.py:86-108 | the question, task id "1", and the attachment as `read_file` classifies it (none without a file); plan, history, answer, transcripts and knowledge are empty; the state is routed |
| Tasks.Entries | main_mcp.py:119-125 | one contribution per question, in question order |
| Tasks.Tries | main_mcp.py:93-117 | the retry loop: an answer is always the final state of an attempt that finished |
| Tasks.TryAttempts | main_mcp.py:93-117 | the retry loop returns the final state of the first finished run, gives up on an exception, and moves on after a recursion error |
| Tasks.CallModel | main_mcp.py:73-149 | the returned payload is the concatenation of each question's entry, in question order |
| Tasks.SingleAttempt | main_mcp.py:94-117 | with one attempt, a question is answered exactly when its run finishes, with that run's final state |
| Tasks.AnsweredMeansAccepted | main_mcp.py:93-124 | an answered question's final state keeps its inputs and holds a non-empty answer, the one the last trace entry held, which the validator accepted at the last of at most 30 node executions |
| Tasks.UnencodableAttachmentFails | main_mcp.py:114-116 | a text attachment classified as an image makes the planner raise, and the question gets no answer |
| Tasks.FailedCallGivesNoAnswer | main_mcp.py:114-116 | a model call that raises (here the planner's) ends the run with `Failed`, and the question gets no answer |
| Tasks.EntryAnswers | main_mcp.py:119-125 | a question contributes at most one entry, and exactly when it was answered; that entry is its id and its non-empty answer |
| Tasks.PositionsExact | main_mcp.py:119-125 | the positions of the contributing parts are increasing and are exactly the parts that are non-empty |
| Tasks.ConcatSingles | main_mcp.py:125 | extending by parts of at most one entry each gives one entry per non-empty part: entry `j` is the whole of the part at position `j` |
| Tasks.PayloadNext | main_mcp.py:119-125 | one more question extends the payload by that question's contribution |
| Tasks.PayloadAnswers | main_mcp.py:119-149 | the payload has one entry per answered question and no other: entry `j` answers the `j`-th answered question, in question order, with its task id and its accepted non-empty answer, and a question has an entry exactly when it was answered |

## Left out

- The language models, the structured-output parsing and the tools are oracles. What they return is arbitrary, and tool failures inside `ToolNode` are not modelled.
- The MCP client session, the state's `tools_list` field and the asyncio plumbing are not modelled. Which tools the assistant may call is part of the model oracle.
- Fetching the questions and submitting the answers over HTTP are not modelled. `Tasks.CallModel` takes the questions as a parameter and returns the payload.
- Printing is not modelled, and neither is the tracing environment variable.
- The driver skips every question but one fixed task id (main_mcp.py:77-78). The model processes every question, as the surrounding loop is written to.
- The file system, `mimetypes.guess_type` and pandas' spreadsheet rendering are inputs of a `Tasks.Question`.
- The recursion limit is modelled as 30 node executions. Each superstep of this graph runs exactly one node.
- Python `repr` escaping of quotes and special characters inside strings is not modelled. Strings are shown between single quotes as they are.
- `str` of a tool message whose content is a list of parts is modelled as that list's `repr`.
- `None` for a missing file name, type or content is modelled as "" and `Absent`.
- The replanner appends to the state's `past_steps` list in place, and the model applies that append before merging the update. LangGraph's copy semantics for channel values are not modelled.
- The instruction texts are a parameter of every node. `Prompts.Source` holds the program's wording, and no property depends on it.
- The model proves separately that the tool node's answers become the next assistant step's pending messages (`Graph.ToolsStep`) and that the assistant step ingests the pending messages (`Graph.AssistantIngests`, `Assistant.IngestKeepsResults`). No single lemma states that a tool answer reaches the knowledge.
- The MCP server and its tools (mcp_server.py, tools.py) are not part of this model.
