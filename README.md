# Email writer and role player: a Dafny model of two LangGraph pipelines

The repository holds two small LangGraph scripts.

- `email_writer.py` wires five agents into a straight line. The researcher
  asks a language model about a topic and runs the search tool on every
  tool call the model requests. The drafter writes an email from the
  research. The translator translates it, the refiner polishes it, and the
  sender parses the subject and body and hands them to an SMTP transport.
- `role_player.py` wires an agent node and an action node into a cycle.
  After the agent, `should_continue` routes to the action node when the
  newest message requests tools and to END otherwise. The action node
  always returns to the agent. Around the graph sits a chat loop. It opens
  a session with a persona, asks for the character's name and
  introduction, and then runs one turn per line of input until an exit
  command.

The model keeps the orchestration the scripts define on top of their
opaque calls:
- the shared state and its reducers (`messages` is appended, every other
  key is overwritten, absent keys are kept);
- the nodes, with the language model, the search tool and the mail
  transport as function-valued parameters;
- the edge tables, and the executor that runs one node at a time;
- the sender's string handling;
- the chat loop's bookkeeping.

Files:

- `common.dfy` (module `Common`): messages, tool calls, the outcome of an
  external call (`Attempt`), the failures that end a run, and `SearchAll`.
  `SearchAll` dispatches every tool call to the search tool, in order, and
  stops at the first exception.
- `text.dfy` (module `Text`): the Python string operations the nodes use.
  These are `str.strip`, `str.split(sep, 1)`, `str.replace(pat, "")`,
  `sep.join` and `str.lower`.
- `graph.dfy` (module `StateGraph`): a generic state graph.
  - `RunFrom` specifies a run as a function of a step bound.
  - `Run` is the executor loop, proved equal to `RunFrom`.
  - `RunShape` proves that every run is a chain of steps along the edges.
  - `ChainedRun` proves the converse: such a chain that ends at END is the
    run.
- `email_writer.dfy` (module `EmailWriter`): the email state, its nodes,
  the linear graph and the properties of a run.
- `role_player.dfy` (module `RolePlayer`): the role-play state, its nodes,
  the cyclic graph, and the reply capture. It also holds the chat loop
  (`Turn`, `Chat`, `Open`) and the properties of a conversation.

The mutable parts of the scripts have their own methods, each proved equal
to the function that specifies it:
- the executor loop (`StateGraph.Run`);
- the append loops of `research_node` and `action`;
- the loops over a streamed run that keep the latest final reply or the
  character name;
- the `while True` chat loop, which appends to the history in place.

## Model

| member | source | states |
|---|---|---|
| Common.SearchAll | email_writer.py:86-91 | Every call returns an output, in call order, or the run fails with the exception of the first call that raised, after all earlier calls returned; when no call raises the dispatch succeeds |
| Common.SearchAllStops | email_writer.py:89-91 | Once a prefix of the calls has failed, the later calls change nothing |
| Common.SearchAllSnoc | role_player.py:65-69 | One more call appends its own output, or fails with its own exception |
| Common.SearchAllReturns | role_player.py:64-71 | When every call returns, the outputs are exactly the values returned, in order |
| Text.TrimStart | email_writer.py:150 | `lstrip` drops exactly the leading whitespace: what it drops is all whitespace and what it keeps does not start with whitespace |
| Text.TrimEnd | email_writer.py:150 | `rstrip` drops exactly the trailing whitespace |
| Text.Strip | email_writer.py:150 | The result is no longer than the input and neither starts nor ends with whitespace |
| Text.StripPadded | email_writer.py:150 | Stripping whitespace padding around an unpadded core gives back the core |
| Text.FindFrom | email_writer.py:149 | `find` returns the first occurrence at or after the start, or none when there is none |
| Text.SplitOnce | email_writer.py:149 | `split(sep, 1)` gives back head + sep + tail, with no earlier occurrence of `sep` in the head; it fails (ValueError on unpacking) exactly when `sep` does not occur |
| Text.SplitOnceAt | email_writer.py:149 | Any decomposition at the first occurrence is the one the split returns |
| Text.RemoveAll | email_writer.py:150 | `replace(pat, "")` never lengthens the text |
| Text.RemoveAllAbsent | email_writer.py:150 | Without an occurrence of the pattern the text is unchanged |
| Text.RemoveAllFirst | email_writer.py:150 | The first occurrence is removed and the scan resumes right after it |
| Text.JoinSnoc | email_writer.py:93 | Joining one more item appends the separator and the item, so the join lists the items in order |
| Text.JoinLength | email_writer.py:93 | A join is as long as its items plus one separator between each pair of neighbours |
| Text.Lower | role_player.py:161 | Lower-casing keeps the length and lower-cases each character |
| Text.LowerMatches | role_player.py:161 | A lower-cased input equals a lower-case word exactly when it spells the word in any mixture of cases |
| StateGraph.Run | email_writer.py:175-192 | The executor loop returns the run its specification defines: one node at a time, merging each update, recording each snapshot, until END, a failure or the step bound |
| StateGraph.RunShape | role_player.py:91-116 | Every run is a chain of steps along the edges, and no longer than the bound; it reached END exactly through the edge of its last snapshot; a failure is the routing of the last snapshot, the step bound, or the node that was due |
| StateGraph.ChainedRun | role_player.py:91-116 | A chain of steps within the bound whose last snapshot routes to END is exactly the run |
| EmailWriter.Merge | email_writer.py:19-29 | `messages` in an update is appended after the history; every other key in the update replaces the old value; keys the update omits keep their presence and value |
| EmailWriter.Initial | email_writer.py:196-214 | The initial state has an empty history and exactly the four answers, with the language defaulting to "English" and the signature to "AI Writer" when the answer is empty |
| EmailWriter.ResearchNode | email_writer.py:78-93 | The research loop computes the node's result: the topic is read, the model is asked once, and every requested call is searched in order |
| EmailWriter.ResearchJoinsOutputs | email_writer.py:86-93 | `research_info` is the newline join of one output per tool call, in call order, and "" when no call was requested |
| EmailWriter.NodeWritesOneField | email_writer.py:78-172 | A successful node sets exactly its own key and adds no message |
| EmailWriter.NodeFailures | email_writer.py:78-172 | A node fails only with KeyError for a key it reads that is not set, or through an exception of the model, the search tool or the transport |
| EmailWriter.NodeNeedsItsKeys | email_writer.py:78-141 | With capabilities that do not raise, a node succeeds exactly when every key it reads is set |
| EmailWriter.SendWithoutInformation | email_writer.py:143-146 | If a credential, the recipient or the content is empty or unset, the node stores the fixed missing-information text, whatever the transport would do |
| EmailWriter.SendWithoutKeys | email_writer.py:140-141 | An unset recipient or content key raises KeyError (recipient first) instead of being reported as missing information |
| EmailWriter.SendReportsDelivery | email_writer.py:161-172 | A delivery stores "Email successfully sent to {recipient}!"; an SMTP or SSL error stores "Failed to send email: {e}" without raising; any other exception propagates; success and refusal texts differ from the missing-information text |
| EmailWriter.ParseAtFirstBlankLine | email_writer.py:148-150 | The body is everything after the first blank line, verbatim; the subject is the text before it with every "Subject: " removed and then stripped |
| EmailWriter.ParseWithoutBlankLine | email_writer.py:151-153 | Without a blank line the subject is "No Subject" and the body is the whole content |
| EmailWriter.ParseExample | email_writer.py:148-153 | "Subject: Hello\n\nBody text" parses to subject "Hello" and body "Body text" |
| EmailWriter.StepIsPipeline | email_writer.py:185-190 | In a chain along the linear edges, step i is the i-th node of researcher, drafter, translator, refiner, sender |
| EmailWriter.EmailRunVisits | email_writer.py:185-190 | A run visits at most those five nodes, in that order |
| EmailWriter.EmailRunFollowsPipeline | email_writer.py:185-192 | With a bound of at least five, a run visits the pipeline in order, reaches END exactly when all five nodes ran, and never stops at the bound |
| EmailWriter.StepKeys | email_writer.py:19-29 | A step adds its node's key to the keys of the state it ran in |
| EmailWriter.SnapshotKeys | email_writer.py:175-190 | The snapshot after node i holds exactly the input keys plus the keys of the first i+1 nodes |
| EmailWriter.ReadsAreAvailable | email_writer.py:82-141 | Each node reads only the four answers and keys written by earlier nodes |
| EmailWriter.NextNodeRuns | email_writer.py:78-190 | After a proper prefix of the pipeline, the next node is due and, with capabilities that do not raise, succeeds |
| EmailWriter.EmailRunSucceeds | email_writer.py:175-192 | With the four answers set and capabilities that do not raise, the run reaches END after exactly five steps |
| EmailWriter.CompleteChainKeys | email_writer.py:175-190 | The last snapshot of a complete chain holds the input keys and the five keys the nodes write |
| EmailWriter.EmailRunCompletes | email_writer.py:175-192 | Such a run ends with the five keys set, the confirmation among them |
| RolePlayer.Merge | role_player.py:19-22 | The update's messages are appended after the history: the history is a prefix and the update is the rest |
| RolePlayer.Agent | role_player.py:39-48 | The agent succeeds exactly when the model answers the full history, and then adds exactly that one reply; otherwise the model's exception propagates |
| RolePlayer.Answers | role_player.py:64-71 | One tool message per call: message i carries output i and the id of call i |
| RolePlayer.Action | role_player.py:52-71 | The action loop computes the node's result: IndexError on an empty history, no messages without tool calls, otherwise one answer per call in order, or the first search exception |
| RolePlayer.ShouldContinue | role_player.py:76-86 | "action" exactly when the newest message carries a non-empty tool-call list; "end" otherwise, messages of other roles included |
| RolePlayer.ActionAnswersEachCall | role_player.py:64-71 | When every search returns, message i is the tool message with the output of call i and its id |
| RolePlayer.ActionWithoutCalls | role_player.py:58-62 | Without tool calls the action adds nothing, whatever the search tool would do |
| RolePlayer.ActionReturns | role_player.py:64-71 | When the searches return the given outputs, the action's update is their answers |
| RolePlayer.AgentRouting | role_player.py:102-113 | On a non-empty history the agent's edge leads to the action node when tools are requested and to END otherwise; the action node's edge always leads back to the agent |
| RolePlayer.StepSnapshot | role_player.py:45-48 | Every step leaves a non-empty history, and an agent step added exactly one model message, now the newest |
| RolePlayer.ChainAlternates | role_player.py:102-113 | Along a chain, the action node follows the agent exactly after a tool request, and the agent always follows the action node |
| RolePlayer.RolePlayRunShape | role_player.py:91-116 | Every run starts at the agent and alternates agent and action as the routing decides; it reaches END only after a reply that requests no tools; it fails only through the model, the search tool or the step bound |
| RolePlayer.AgentAnswers | role_player.py:45-48 | When the model answers, the agent step appends the answer and routes by whether the answer requests tools |
| RolePlayer.ActionAnswers | role_player.py:64-71 | When every search returns, the action step appends one answer per call |
| RolePlayer.ToolRoundTrip | role_player.py:102-113 | A model that requests tools once and then answers makes the run visit agent, action, agent and END, and the second request sees the tool answers after the tool request |
| RolePlayer.CapturedReply | role_player.py:173-179 | The captured reply is the newest message of the last agent step whose message requests no tools, and none when there is no such step |
| RolePlayer.CapturedSnoc | role_player.py:173-179 | A further step replaces the captured reply exactly when it is a final reply |
| RolePlayer.CaptureReply | role_player.py:170-179 | The loop over the streamed run keeps the captured reply |
| RolePlayer.LearnName | role_player.py:134-138 | The loop over the name-request run leaves the stripped text of the last final reply, or "AI" |
| RolePlayer.CompletedRunReply | role_player.py:173-179 | A run that reached END captured the reply it ended with |
| RolePlayer.Turn | role_player.py:167-184 | One turn returns the old history, then the human message, then the captured reply if any; an exception in the run propagates |
| RolePlayer.TurnKeepsFinalReply | role_player.py:181-184 | A completed turn adds exactly the human message and the reply the run ended with |
| RolePlayer.TurnFailures | role_player.py:173-179 | A turn fails only through the model, the search tool or the step bound |
| RolePlayer.TurnFacts | role_player.py:167-184 | A completed turn keeps the old history as prefix and adds a human message and a reply; a failed turn never reports exhausted input |
| RolePlayer.ConverseTurn | role_player.py:159-184 | A completed turn is followed by the loop on the remaining inputs |
| RolePlayer.Chat | role_player.py:159-184 | The in-place chat loop computes the session its specification defines |
| RolePlayer.ExitWords | role_player.py:161-163 | An input ends the loop exactly when it is empty or spells "quit", "exit" or "goodbye" in any mixture of cases |
| RolePlayer.ConversationGrows | role_player.py:159-184 | The history only grows: each turn adds its human message and a reply, in input order, and no exit command is taken as a turn |
| RolePlayer.ConversationEnds | role_player.py:159-163 | The session ends at the first exit command, at the first failed turn, or when the inputs run out, and end-of-input is reported only in the last case |
| RolePlayer.Open | role_player.py:119-155 | Opening a session runs the name request and then the introduction request on the persona, learns the name and keeps the introduction |
| RolePlayer.OpeningShape | role_player.py:122-155 | An opened session's history is the persona's system message followed by the introduction reply, and the name is the stripped text of the reply to the name request |

## Left out

- The language model, the Tavily search tool and the SMTP transport are
  function-valued parameters. Their internals are left out: prompt
  wording, temperature, `max_results`, SSL context and login. So is the
  stringification of tool outputs, which the search parameter already
  returns as text.
- The email prompts are a `Prompt` datatype carrying the state values each
  prompt is built from; the wording of each prompt is left out.
- `EmailMessage` construction is left out. A header value with a line break
  makes Python raise there; the model does not capture that exception.
- Environment variables are a `Credentials` parameter. `input()` answers
  are a sequence of strings, and running out of them is the end-of-input
  error. Every `print` is left out, including the stream of confirmations
  at the end of `email_writer.py`, which is output only.
- LangGraph itself is not part of this model. It is replaced by the
  semantics the wiring and reducers declare: one node at a time, and the
  stream in its default "updates" mode, where each step yields its node's
  update. Its recursion limit is a `limit` step-bound parameter that ends a
  run with `StepLimit`. The actual default value is not modelled.
- The source reads each streamed step through a nested loop over
  `output.items()`. The model uses one loop over the steps: each step comes
  from exactly one node.
- Tool-call arguments are `map<string, string>` rather than arbitrary
  JSON. A state key whose value is set to `None` is not modelled: neither
  the nodes nor the initial state produce one. An unset key is absent from
  the map.
- Text.Lower: lower-cases ASCII letters only. Python's Unicode `lower()`
  can differ on other characters, but not on whether an input is one of
  the four exit commands, which are all ASCII.
- Where the code and the design intent differ, the model follows the code:
  - A state without `recipient_email` or `final_email` raises KeyError in
    `sending_node`. It is not reported as missing information (see
    `EmailWriter.SendWithoutKeys`).
  - Only SMTP and SSL errors are caught. Any other transport exception
    propagates (`Broken` in the model).
- `if ai_response_message` is modelled as "a reply was captured". A
  message object is always truthy, so after a completed run the
  introduction and the reply are always kept (`RolePlayer.OpeningShape`,
  `RolePlayer.TurnKeepsFinalReply`). The default name "AI" is therefore
  never shown: a name request either ends with a final reply or raises.
