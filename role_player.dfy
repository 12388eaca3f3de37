/** The role-play pipeline: an agent node and an action node in a cycle.
    After the agent, a routing predicate sends the run to the action node
    when the newest message requests tools, and to END otherwise; after the
    action node the run always returns to the agent. Around the graph sits
    the chat loop that keeps the conversation history between turns. */
module RolePlayer {
  import opened Common
  import opened Text
  import opened StateGraph

  /** The shared state: the message history only. */
  datatype State = State(messages: seq<Message>)

  /** Every node of this graph returns a `messages` update. */
  datatype Update = Update(messages: seq<Message>)

  /** The `messages` reducer appends the update after the history. */
  function Merge(s: State, u: Update): (r: State)
    ensures |r.messages| == |s.messages| + |u.messages|
    ensures r.messages[..|s.messages|] == s.messages
    ensures r.messages[|s.messages|..] == u.messages
  {
    State(s.messages + u.messages)
  }

  /** The chat model with the search tool bound to it. */
  type Model = seq<Message> -> Attempt<AiReply>

  /** `agent`: the update holds exactly one new message, the model's
      response to the full history. */
  function Agent(model: Model, s: State): (r: Result<Update>)
    ensures r.Ok? <==> model(s.messages).Returned?
    ensures r.Ok? ==> r.value.messages == [FromReply(model(s.messages).value)]
    ensures r.Err? ==> r.error == CapabilityError(model(s.messages).reason)
  {
    var reply :- Lift(model(s.messages));
    Ok(Update([FromReply(reply)]))
  }

  /** The tool messages answering `calls`: message i carries output i and
      the id of call i. */
  function Answers(calls: seq<ToolCall>, outputs: seq<string>): (ms: seq<Message>)
    requires |calls| == |outputs|
    ensures |ms| == |calls|
    ensures forall i :: 0 <= i < |calls| ==> ms[i] == ToolMessage(outputs[i], calls[i].id)
  {
    if calls == [] then []
    else Answers(calls[..|calls| - 1], outputs[..|outputs| - 1]) + [ToolMessage(Last(outputs), Last(calls).id)]
  }

  /** Answering one more call appends its tool message. */
  lemma AnswersSnoc(calls: seq<ToolCall>, outputs: seq<string>, i: nat, out: string)
    requires i < |calls| && |outputs| == i
    ensures Answers(calls[..i + 1], outputs + [out]) == Answers(calls[..i], outputs) + [ToolMessage(out, calls[i].id)]
  {
    assert calls[..i + 1][..i] == calls[..i];
    assert (outputs + [out])[..i] == outputs;
  }

  /** What `action` returns: nothing when the newest message requests no
      tools, and otherwise one tool message per requested call, in order.
      Reading the newest message of an empty history raises IndexError. */
  function ActionResult(search: Search, s: State): Result<Update> {
    if |s.messages| == 0 then Err(IndexError)
    else
      var calls := ToolCallsOf(Last(s.messages));
      if calls == [] then Ok(Update([]))
      else
        var outputs :- SearchAll(search, calls);
        Ok(Update(Answers(calls, outputs)))
  }

  /** `action`, with its loop that runs the search tool on each call and
      appends the answering tool message. */
  method Action(search: Search, s: State) returns (r: Result<Update>)
    ensures r == ActionResult(search, s)
  {
    if |s.messages| == 0 {
      return Err(IndexError);
    }
    var last := s.messages[|s.messages| - 1];
    if !HasToolCalls(last) {
      return Ok(Update([]));
    }
    var calls := ToolCallsOf(last);
    var toolMessages: seq<Message> := [];
    ghost var outputs: seq<string> := [];
    var i := 0;
    while i < |calls|
      invariant 0 <= i <= |calls|
      invariant SearchAll(search, calls[..i]) == Ok(outputs)
      invariant |outputs| == i && toolMessages == Answers(calls[..i], outputs)
    {
      var output := search(calls[i].args);
      SearchAllSnoc(search, calls, i);
      if output.Raised? {
        SearchAllStops(search, calls, i + 1);
        return Err(CapabilityError(output.reason));
      }
      AnswersSnoc(calls, outputs, i, output.value);
      toolMessages := toolMessages + [ToolMessage(output.value, calls[i].id)];
      outputs := outputs + [output.value];
      i := i + 1;
    }
    assert calls[..i] == calls;
    return Ok(Update(toolMessages));
  }

  /** `should_continue`: "action" exactly when the newest message carries a
      non-empty list of tool calls, "end" otherwise (also for messages that
      have no tool-call list at all). */
  function ShouldContinue(s: State): (route: string)
    requires |s.messages| > 0
    ensures route == "action" <==> HasToolCalls(Last(s.messages))
    ensures route == "end" <==> !HasToolCalls(Last(s.messages))
  {
    if HasToolCalls(Last(s.messages)) then "action" else "end"
  }

  /** The graph's node names. */
  datatype Node = AgentNode | ActionNode

  /** The branches of the agent's conditional edge. */
  const AgentBranches: map<string, Target<Node>> := map["action" := Goto(ActionNode), "end" := End]

  /** The edge table: the agent routes by `should_continue` through its
      branch table, the action node always returns to the agent. */
  function Next(n: Node, s: State): Result<Target<Node>> {
    match n
    case ActionNode => Ok(Goto(AgentNode))
    case AgentNode =>
      if |s.messages| == 0 then Err(IndexError)
      else
        var route := ShouldContinue(s);
        if route in AgentBranches then Ok(AgentBranches[route]) else Err(RoutingError(route))
  }

  function NodeUpdate(model: Model, search: Search, n: Node, s: State): Result<Update> {
    match n
    case AgentNode => Agent(model, s)
    case ActionNode => ActionResult(search, s)
  }

  /** The compiled workflow, entered at the agent. */
  function RolePlayGraph(model: Model, search: Search): Graph<Node, State, Update> {
    Graph(AgentNode, (n: Node, s: State) => NodeUpdate(model, search, n, s), Merge, Next)
  }

  // ----- The chat loop around the graph -----

  /** A step the chat loop shows and keeps: an agent step whose newest
      message carries no tool calls. */
  predicate IsFinalReply(st: Step<Node, State, Update>) {
    st.node == AgentNode && |st.update.messages| > 0 && !HasToolCalls(Last(st.update.messages))
  }

  /** The reply a streamed run leaves in `ai_response_message`: the message
      of the last final-reply step, if there is one. */
  function CapturedReply(steps: seq<Step<Node, State, Update>>): (r: Option<Message>)
    ensures r.None? <==> forall i :: 0 <= i < |steps| ==> !IsFinalReply(steps[i])
    ensures r.Some? ==>
      exists i :: 0 <= i < |steps| && IsFinalReply(steps[i]) && r.value == Last(steps[i].update.messages) &&
        forall j :: i < j < |steps| ==> !IsFinalReply(steps[j])
  {
    if steps == [] then None
    else if IsFinalReply(Last(steps)) then
      assert IsFinalReply(steps[|steps| - 1]);
      Some(Last(Last(steps).update.messages))
    else
      var front := steps[..|steps| - 1];
      var r := CapturedReply(front);
      assert forall i :: 0 <= i < |front| ==> front[i] == steps[i];
      r
  }

  /** Extending the run by one step replaces the captured reply exactly when
      that step is a final reply. */
  lemma CapturedSnoc(steps: seq<Step<Node, State, Update>>, i: nat)
    requires i < |steps|
    ensures CapturedReply(steps[..i + 1]) ==
      if IsFinalReply(steps[i]) then Some(Last(steps[i].update.messages)) else CapturedReply(steps[..i])
  {
    assert steps[..i + 1][..i] == steps[..i];
    assert Last(steps[..i + 1]) == steps[i];
  }

  /** The loop over a streamed run that keeps the latest final reply. */
  method CaptureReply(steps: seq<Step<Node, State, Update>>) returns (reply: Option<Message>)
    ensures reply == CapturedReply(steps)
  {
    reply := None;
    var i := 0;
    while i < |steps|
      invariant 0 <= i <= |steps|
      invariant reply == CapturedReply(steps[..i])
    {
      CapturedSnoc(steps, i);
      if IsFinalReply(steps[i]) {
        reply := Some(steps[i].update.messages[|steps[i].update.messages| - 1]);
      }
      i := i + 1;
    }
    assert steps[..i] == steps;
  }

  const DefaultName := "AI"

  /** The character name the name-request run leaves behind: the stripped
      text of its last final reply, or "AI". */
  function CharacterName(steps: seq<Step<Node, State, Update>>): string {
    match CapturedReply(steps)
    case Some(m) => Strip(m.content)
    case None => DefaultName
  }

  /** The loop over the name-request run that overwrites the name on each
      final reply. */
  method LearnName(steps: seq<Step<Node, State, Update>>) returns (name: string)
    ensures name == CharacterName(steps)
  {
    name := DefaultName;
    var i := 0;
    while i < |steps|
      invariant 0 <= i <= |steps|
      invariant name == CharacterName(steps[..i])
    {
      CapturedSnoc(steps, i);
      if IsFinalReply(steps[i]) {
        name := Strip(steps[i].update.messages[|steps[i].update.messages| - 1].content);
      }
      i := i + 1;
    }
    assert steps[..i] == steps;
  }

  /** The inputs that end the chat loop, compared after lower-casing. */
  predicate IsExitCommand(input: string) {
    Lower(input) in ["quit", "exit", "", "goodbye"]
  }

  /** A streamed run of the graph on the history plus one new human message. */
  function Ask(model: Model, search: Search, history: seq<Message>, text: string, limit: nat): Trace<Node, State, Update> {
    RunFrom(RolePlayGraph(model, search), AgentNode, State(history + [HumanMessage(text)]), limit)
  }

  /** The messages a reply adds to the history: none or one. */
  function Kept(reply: Option<Message>): seq<Message> {
    match reply
    case Some(m) => [m]
    case None => []
  }

  /** One chat turn: the graph runs on the history plus the new human
      message; afterwards the history gains the human message and then the
      captured reply, if any. An exception during the run propagates. */
  function TurnResult(model: Model, search: Search, history: seq<Message>, input: string, limit: nat): Result<seq<Message>> {
    var t := Ask(model, search, history, input, limit);
    if t.error.Some? then Err(t.error.value)
    else Ok(history + [HumanMessage(input)] + Kept(CapturedReply(t.steps)))
  }

  /** How a chat session ended: the history, the number of turns taken and
      the failure that stopped it (None: an exit command). */
  datatype Session = Session(history: seq<Message>, turns: nat, failure: Option<Failure>)

  /** The chat loop over a sequence of inputs, which stands for the
      successive answers to the prompt; running out of them is the
      end-of-input error the prompt would raise. */
  function Converse(model: Model, search: Search, history: seq<Message>, inputs: seq<string>, limit: nat): Session
    decreases |inputs|
  {
    if inputs == [] then Session(history, 0, Some(InputExhausted))
    else if IsExitCommand(inputs[0]) then Session(history, 0, None)
    else match TurnResult(model, search, history, inputs[0], limit)
      case Err(e) => Session(history, 0, Some(e))
      case Ok(h) =>
        var rest := Converse(model, search, h, inputs[1..], limit);
        Session(rest.history, rest.turns + 1, rest.failure)
  }

  /** One pass of the chat loop's body after the exit test: stream the run,
      keep the latest final reply, then append the human message and that
      reply to the history. */
  method Turn(model: Model, search: Search, history: seq<Message>, input: string, limit: nat)
    returns (r: Result<seq<Message>>)
    ensures r == TurnResult(model, search, history, input, limit)
  {
    var human := HumanMessage(input);
    var t := Run(RolePlayGraph(model, search), State(history + [human]), limit);
    assert t == Ask(model, search, history, input, limit);
    if t.error.Some? {
      return Err(t.error.value);
    }
    var reply := CaptureReply(t.steps);
    var updated := history + [human];
    if reply.Some? {
      updated := updated + [reply.value];
    }
    assert updated == history + [human] + Kept(reply);
    return Ok(updated);
  }

  /** One completed turn of the chat loop, then the loop on the rest of
      the inputs. */
  lemma ConverseTurn(model: Model, search: Search, history: seq<Message>, inputs: seq<string>, limit: nat, h: seq<Message>)
    requires |inputs| > 0 && !IsExitCommand(inputs[0])
    requires TurnResult(model, search, history, inputs[0], limit) == Ok(h)
    ensures var rest := Converse(model, search, h, inputs[1..], limit);
      Converse(model, search, history, inputs, limit) == Session(rest.history, rest.turns + 1, rest.failure)
  {
  }

  /** The chat loop as the source runs it: it appends to the history in
      place, turn after turn. */
  method Chat(model: Model, search: Search, history0: seq<Message>, inputs: seq<string>, limit: nat) returns (session: Session)
    ensures session == Converse(model, search, history0, inputs, limit)
  {
    var history := history0;
    var i := 0;
    while i < |inputs|
      invariant 0 <= i <= |inputs|
      invariant var rest := Converse(model, search, history, inputs[i..], limit);
        Converse(model, search, history0, inputs, limit) == Session(rest.history, rest.turns + i, rest.failure)
    {
      if IsExitCommand(inputs[i]) {
        return Session(history, i, None);
      }
      var r := Turn(model, search, history, inputs[i], limit);
      if r.Err? {
        return Session(history, i, Some(r.error));
      }
      ConverseTurn(model, search, history, inputs[i..], limit, r.value);
      assert inputs[i..][1..] == inputs[i + 1..];
      history := r.value;
      i := i + 1;
    }
    return Session(history, i, Some(InputExhausted));
  }

  /** The questions asked while opening a session (their wording is the
      program's). */
  const NameQuestion := "Based on the character I've asked you to play, what is your name? Respond with only the name."
  const IntroQuestion := "Please introduce yourself in character."

  /** The history a session starts its chat loop with, and the name shown
      beside the character's replies. */
  datatype Opening = Opening(history: seq<Message>, name: string)

  /** Opening a session: the persona becomes the system message; one run
      asks for the character's name, a second for an introduction, which
      then joins the history. */
  function OpenSession(model: Model, search: Search, persona: string, limit: nat): Result<Opening> {
    var history := [SystemMessage(persona)];
    var named := Ask(model, search, history, NameQuestion, limit);
    if named.error.Some? then Err(named.error.value)
    else
      var intro := Ask(model, search, history, IntroQuestion, limit);
      if intro.error.Some? then Err(intro.error.value)
      else Ok(Opening(history + Kept(CapturedReply(intro.steps)), CharacterName(named.steps)))
  }

  method Open(model: Model, search: Search, persona: string, limit: nat) returns (r: Result<Opening>)
    ensures r == OpenSession(model, search, persona, limit)
  {
    var g := RolePlayGraph(model, search);
    var history := [SystemMessage(persona)];
    var named := Run(g, State(history + [HumanMessage(NameQuestion)]), limit);
    assert named == Ask(model, search, history, NameQuestion, limit);
    if named.error.Some? {
      return Err(named.error.value);
    }
    var name := LearnName(named.steps);
    var intro := Run(g, State(history + [HumanMessage(IntroQuestion)]), limit);
    assert intro == Ask(model, search, history, IntroQuestion, limit);
    if intro.error.Some? {
      return Err(intro.error.value);
    }
    var reply := CaptureReply(intro.steps);
    ghost var started := history + Kept(reply);
    if reply.Some? {
      history := history + [reply.value];
    }
    assert history == started;
    assert OpenSession(model, search, persona, limit) == Ok(Opening(started, CharacterName(named.steps)));
    return Ok(Opening(history, name));
  }

  // ----- Lemmas -----

  /** A reply of the character: a model message requesting no tools. */
  predicate IsReply(m: Message) {
    m.AiMessage? && !HasToolCalls(m)
  }

  /** When the newest message requests tools, each call is answered by one
      tool message carrying that call's output and id, in call order. */
  lemma ActionAnswersEachCall(search: Search, s: State)
    requires |s.messages| > 0 && HasToolCalls(Last(s.messages))
    requires forall c :: c in ToolCallsOf(Last(s.messages)) ==> search(c.args).Returned?
    ensures var calls := ToolCallsOf(Last(s.messages));
      var r := ActionResult(search, s);
      r.Ok? && |r.value.messages| == |calls| &&
      forall i :: 0 <= i < |calls| ==>
        r.value.messages[i] == ToolMessage(search(calls[i].args).value, calls[i].id)
  {
    var calls := ToolCallsOf(Last(s.messages));
    assert forall i :: 0 <= i < |calls| ==> calls[i] in calls;
  }

  /** When the newest message requests no tools, the action node adds
      nothing and never calls the search tool. */
  lemma ActionWithoutCalls(search: Search, other: Search, s: State)
    requires |s.messages| > 0 && !HasToolCalls(Last(s.messages))
    ensures ActionResult(search, s) == ActionResult(other, s) == Ok(Update([]))
  {
  }

  /** The agent's routing never fails on a non-empty history: it leads to
      the action node when tools are requested and to END otherwise. */
  lemma AgentRouting(s: State)
    requires |s.messages| > 0
    ensures Next(AgentNode, s) == Ok(if HasToolCalls(Last(s.messages)) then Goto(ActionNode) else End)
    ensures Next(ActionNode, s) == Ok(Goto(AgentNode))
  {
  }

  /** An agent step added exactly one model message, which is now the
      newest message of the snapshot. */
  predicate Replied(st: Step<Node, State, Update>) {
    |st.update.messages| == 1 && st.update.messages[0].AiMessage? &&
    |st.state.messages| > 0 && Last(st.state.messages) == st.update.messages[0]
  }

  /** Whatever a step of the role-play graph did, its snapshot is not
      empty, and an agent step added exactly the model's message. */
  lemma StepSnapshot(model: Model, search: Search, before: State, st: Step<Node, State, Update>)
    requires Follows(RolePlayGraph(model, search), before, st)
    ensures |st.state.messages| > 0
    ensures st.node == AgentNode ==> Replied(st)
  {
    assert NodeUpdate(model, search, st.node, before) == Ok(st.update);
    assert st.state == Merge(before, st.update);
  }

  /** Every snapshot of a chain of role-play steps is non-empty, each agent
      step added one model message, and the steps alternate between agent
      and action, taking the action node exactly after a tool request. */
  lemma ChainAlternates(model: Model, search: Search, s: State, steps: seq<Step<Node, State, Update>>)
    requires Chained(RolePlayGraph(model, search), AgentNode, s, steps)
    ensures forall i :: 0 <= i < |steps| ==>
      |steps[i].state.messages| > 0 && (steps[i].node == AgentNode ==> Replied(steps[i]))
    ensures forall i :: 0 < i < |steps| ==>
      if steps[i - 1].node == AgentNode
      then steps[i].node == ActionNode && HasToolCalls(Last(steps[i - 1].state.messages))
      else steps[i].node == AgentNode
  {
    var g := RolePlayGraph(model, search);
    forall i | 0 <= i < |steps|
      ensures |steps[i].state.messages| > 0 && (steps[i].node == AgentNode ==> Replied(steps[i]))
    {
      StepSnapshot(model, search, if i == 0 then s else steps[i - 1].state, steps[i]);
    }
    forall i | 0 < i < |steps|
      ensures if steps[i - 1].node == AgentNode
        then steps[i].node == ActionNode && HasToolCalls(Last(steps[i - 1].state.messages))
        else steps[i].node == AgentNode
    {
      assert g.next(steps[i - 1].node, steps[i - 1].state) == Ok(Goto(steps[i].node));
      AgentRouting(steps[i - 1].state);
    }
  }

  /** Every run of the role-play graph starts at the agent and alternates
      agent and action, taking the action node exactly when the agent's
      reply requested tools; a run that reaches END ends with a reply that
      requests none; and a run fails only through an exception of the model
      or the search tool, or the step bound, never through routing or an
      empty history. */
  lemma RolePlayRunShape(model: Model, search: Search, s: State, limit: nat)
    ensures var t := RunFrom(RolePlayGraph(model, search), AgentNode, s, limit);
      (|t.steps| > 0 ==> t.steps[0].node == AgentNode) &&
      forall i :: 0 <= i < |t.steps| ==>
        |t.steps[i].state.messages| > 0 && (t.steps[i].node == AgentNode ==> Replied(t.steps[i]))
    ensures var t := RunFrom(RolePlayGraph(model, search), AgentNode, s, limit);
      forall i :: 0 < i < |t.steps| ==>
        if t.steps[i - 1].node == AgentNode
        then t.steps[i].node == ActionNode && HasToolCalls(Last(t.steps[i - 1].state.messages))
        else t.steps[i].node == AgentNode
    ensures var t := RunFrom(RolePlayGraph(model, search), AgentNode, s, limit);
      t.error.None? ==>
        |t.steps| > 0 && Last(t.steps).node == AgentNode && IsReply(Last(Last(t.steps).state.messages))
    ensures var t := RunFrom(RolePlayGraph(model, search), AgentNode, s, limit);
      t.error.Some? ==> t.error.value.CapabilityError? || t.error.value == StepLimit
  {
    var g := RolePlayGraph(model, search);
    var t := RunFrom(g, AgentNode, s, limit);
    RunShape(g, AgentNode, s, limit);
    ChainAlternates(model, search, s, t.steps);
    if |t.steps| > 0 {
      AgentRouting(Last(t.steps).state);
    }
    if t.error.Some? && Due(g, AgentNode, t.steps).Some? && t.error.value != StepLimit {
      var n := Due(g, AgentNode, t.steps).value;
      var cur := Current(s, t.steps);
      assert NodeUpdate(model, search, n, cur) == Err(t.error.value);
      if n == ActionNode {
        assert t.steps != [];
        assert |cur.messages| > 0;
      }
    }
  }

  /** When the model answers, the agent step appends the answer, and the
      agent routes to the action node when it requests tools and to END
      otherwise. */
  lemma AgentAnswers(model: Model, search: Search, s: State, reply: AiReply)
    requires model(s.messages) == Returned(reply)
    ensures var st := Step(AgentNode, Update([FromReply(reply)]), State(s.messages + [FromReply(reply)]));
      Follows(RolePlayGraph(model, search), s, st) &&
      Next(AgentNode, st.state) == Ok(if |reply.toolCalls| > 0 then Goto(ActionNode) else End)
  {
    var s' := State(s.messages + [FromReply(reply)]);
    assert Last(s'.messages) == FromReply(reply);
  }

  /** When every requested search returns, the action step appends one
      answer per call. */
  lemma ActionAnswers(model: Model, search: Search, s: State, outputs: seq<string>)
    requires |s.messages| > 0
    requires |outputs| == |ToolCallsOf(Last(s.messages))| > 0
    requires forall i :: 0 <= i < |outputs| ==> search(ToolCallsOf(Last(s.messages))[i].args) == Returned(outputs[i])
    ensures var u := Update(Answers(ToolCallsOf(Last(s.messages)), outputs));
      Follows(RolePlayGraph(model, search), s, Step(ActionNode, u, State(s.messages + u.messages)))
  {
    var g := RolePlayGraph(model, search);
    var u := Update(Answers(ToolCallsOf(Last(s.messages)), outputs));
    ActionReturns(search, s, outputs);
    assert g.run(ActionNode, s) == Ok(u);
    assert g.merge(s, u) == State(s.messages + u.messages);
  }

  /** The action node's result when every requested search returns. */
  lemma ActionReturns(search: Search, s: State, outputs: seq<string>)
    requires |s.messages| > 0
    requires |outputs| == |ToolCallsOf(Last(s.messages))| > 0
    requires forall i :: 0 <= i < |outputs| ==> search(ToolCallsOf(Last(s.messages))[i].args) == Returned(outputs[i])
    ensures ActionResult(search, s) == Ok(Update(Answers(ToolCallsOf(Last(s.messages)), outputs)))
  {
    SearchAllReturns(search, ToolCallsOf(Last(s.messages)), outputs);
  }

  /** A run in which the model first calls the search tool and then
      answers: the visit order is agent, action, agent, END, and the history
      the model sees the second time holds its tool request followed by the
      tool answers. */
  lemma ToolRoundTrip(model: Model, search: Search, h0: seq<Message>,
                      first: AiReply, outputs: seq<string>, second: AiReply, limit: nat)
    requires limit >= 3
    requires |first.toolCalls| > 0 && |second.toolCalls| == 0
    requires |outputs| == |first.toolCalls|
    requires forall i :: 0 <= i < |outputs| ==> search(first.toolCalls[i].args) == Returned(outputs[i])
    requires model(h0) == Returned(first)
    requires model(h0 + [FromReply(first)] + Answers(first.toolCalls, outputs)) == Returned(second)
    ensures var h1 := h0 + [FromReply(first)];
      var h2 := h1 + Answers(first.toolCalls, outputs);
      RunFrom(RolePlayGraph(model, search), AgentNode, State(h0), limit) ==
        Trace([Step(AgentNode, Update([FromReply(first)]), State(h1)),
               Step(ActionNode, Update(Answers(first.toolCalls, outputs)), State(h2)),
               Step(AgentNode, Update([FromReply(second)]), State(h2 + [FromReply(second)]))], None)
  {
    var g := RolePlayGraph(model, search);
    var h1 := h0 + [FromReply(first)];
    var h2 := h1 + Answers(first.toolCalls, outputs);
    var st1 := Step(AgentNode, Update([FromReply(first)]), State(h1));
    var st2 := Step(ActionNode, Update(Answers(first.toolCalls, outputs)), State(h2));
    var st3 := Step(AgentNode, Update([FromReply(second)]), State(h2 + [FromReply(second)]));
    AgentAnswers(model, search, State(h0), first);
    assert ToolCallsOf(Last(h1)) == first.toolCalls;
    ActionAnswers(model, search, State(h1), outputs);
    AgentAnswers(model, search, State(h2), second);
    var steps := [st1, st2, st3];
    assert Chained(g, AgentNode, State(h0), steps);
    ChainedRun(g, AgentNode, State(h0), limit, steps);
  }

  /** A run that reached END captured the reply it ended with. */
  lemma CompletedRunReply(model: Model, search: Search, s: State, limit: nat)
    requires RunFrom(RolePlayGraph(model, search), AgentNode, s, limit).error.None?
    ensures var t := RunFrom(RolePlayGraph(model, search), AgentNode, s, limit);
      |t.steps| > 0 && |Last(t.steps).state.messages| > 0 &&
      CapturedReply(t.steps) == Some(Last(Last(t.steps).state.messages)) &&
      IsReply(Last(Last(t.steps).state.messages))
  {
    var t := RunFrom(RolePlayGraph(model, search), AgentNode, s, limit);
    RolePlayRunShape(model, search, s, limit);
    assert Replied(t.steps[|t.steps| - 1]);
    assert IsFinalReply(Last(t.steps));
  }

  /** A completed turn adds exactly two messages: the human message and the
      reply the run ended with. */
  lemma TurnKeepsFinalReply(model: Model, search: Search, history: seq<Message>, input: string, limit: nat)
    requires TurnResult(model, search, history, input, limit).Ok?
    ensures var t := Ask(model, search, history, input, limit);
      |t.steps| > 0 && |Last(t.steps).state.messages| > 0 &&
      TurnResult(model, search, history, input, limit).value ==
        history + [HumanMessage(input), Last(Last(t.steps).state.messages)]
    ensures IsReply(Last(TurnResult(model, search, history, input, limit).value))
  {
    CompletedRunReply(model, search, State(history + [HumanMessage(input)]), limit);
  }

  /** A failed turn fails through the model, the search tool or the step
      bound. */
  lemma TurnFailures(model: Model, search: Search, history: seq<Message>, input: string, limit: nat)
    requires TurnResult(model, search, history, input, limit).Err?
    ensures var e := TurnResult(model, search, history, input, limit).error;
      e.CapabilityError? || e == StepLimit
  {
    RolePlayRunShape(model, search, State(history + [HumanMessage(input)]), limit);
  }

  /** A session opens with the persona as system message followed by the
      character's introduction, and names the character by the stripped text
      of the reply to the name request. */
  lemma OpeningShape(model: Model, search: Search, persona: string, limit: nat)
    requires OpenSession(model, search, persona, limit).Ok?
    ensures var o := OpenSession(model, search, persona, limit).value;
      |o.history| == 2 && o.history[0] == SystemMessage(persona) && IsReply(o.history[1])
    ensures var named := Ask(model, search, [SystemMessage(persona)], NameQuestion, limit);
      |named.steps| > 0 && |Last(named.steps).state.messages| > 0 &&
      OpenSession(model, search, persona, limit).value.name == Strip(Last(Last(named.steps).state.messages).content)
  {
    var history := [SystemMessage(persona)];
    CompletedRunReply(model, search, State(history + [HumanMessage(NameQuestion)]), limit);
    CompletedRunReply(model, search, State(history + [HumanMessage(IntroQuestion)]), limit);
  }

  /** The exit commands are the empty input and "quit", "exit" and
      "goodbye" in any mixture of letter cases. */
  lemma ExitWords(input: string)
    ensures IsExitCommand(input) <==>
      input == "" || SameIgnoringCase(input, "quit") || SameIgnoringCase(input, "exit") ||
      SameIgnoringCase(input, "goodbye")
  {
    LowerMatches(input, "quit");
    LowerMatches(input, "exit");
    LowerMatches(input, "goodbye");
  }

  /** What one turn does to the history, and how it can fail. */
  lemma TurnFacts(model: Model, search: Search, history: seq<Message>, input: string, limit: nat)
    ensures var r := TurnResult(model, search, history, input, limit);
      r.Ok? ==>
        |r.value| == |history| + 2 && r.value[..|history|] == history &&
        r.value[|history|] == HumanMessage(input) && IsReply(r.value[|history| + 1])
    ensures var r := TurnResult(model, search, history, input, limit);
      r.Err? ==> r.error != InputExhausted
  {
    if TurnResult(model, search, history, input, limit).Ok? {
      TurnKeepsFinalReply(model, search, history, input, limit);
    } else {
      TurnFailures(model, search, history, input, limit);
    }
  }

  /** `full` is `history` followed by `n` completed turns for the first `n`
      inputs: each the human message of an input that is not an exit
      command, then a reply of the character. */
  predicate Transcript(history: seq<Message>, full: seq<Message>, inputs: seq<string>, n: nat) {
    n <= |inputs| && |full| == |history| + 2 * n && full[..|history|] == history &&
    forall k :: 0 <= k < n ==>
      !IsExitCommand(inputs[k]) && full[|history| + 2 * k] == HumanMessage(inputs[k]) &&
      IsReply(full[|history| + 2 * k + 1])
  }

  /** A completed turn in front of a transcript of the remaining inputs is
      a transcript of all of them. */
  lemma TranscriptCons(history: seq<Message>, h: seq<Message>, full: seq<Message>, inputs: seq<string>, n: nat)
    requires |inputs| > 0 && !IsExitCommand(inputs[0])
    requires |h| == |history| + 2 && h[..|history|] == history
    requires h[|history|] == HumanMessage(inputs[0]) && IsReply(h[|history| + 1])
    requires Transcript(h, full, inputs[1..], n)
    ensures Transcript(history, full, inputs, n + 1)
  {
    assert full[..|history|] == full[..|h|][..|history|];
    forall k | 0 <= k < n + 1
      ensures !IsExitCommand(inputs[k]) && full[|history| + 2 * k] == HumanMessage(inputs[k]) &&
        IsReply(full[|history| + 2 * k + 1])
    {
      if k == 0 {
        assert full[|history|] == full[..|h|][|history|];
        assert full[|history| + 1] == full[..|h|][|history| + 1];
      } else {
        assert inputs[1..][k - 1] == inputs[k];
        assert |history| + 2 * k == |h| + 2 * (k - 1);
      }
    }
  }

  /** The chat loop only ever appends: each completed turn adds its human
      message and the character's reply, in input order, and no turn is
      taken for an exit command. */
  lemma {:induction false} ConversationGrows(model: Model, search: Search, history: seq<Message>, inputs: seq<string>, limit: nat)
    ensures var r := Converse(model, search, history, inputs, limit);
      Transcript(history, r.history, inputs, r.turns)
    decreases |inputs|
  {
    if inputs != [] && !IsExitCommand(inputs[0]) && TurnResult(model, search, history, inputs[0], limit).Ok? {
      var h := TurnResult(model, search, history, inputs[0], limit).value;
      TurnFacts(model, search, history, inputs[0], limit);
      ConverseTurn(model, search, history, inputs, limit, h);
      ConversationGrows(model, search, h, inputs[1..], limit);
      var rest := Converse(model, search, h, inputs[1..], limit);
      TranscriptCons(history, h, rest.history, inputs, rest.turns);
    }
  }

  /** The session ends at the first exit command, at the first failed turn,
      or when the inputs run out; only the last is the end-of-input failure. */
  lemma {:induction false} ConversationEnds(model: Model, search: Search, history: seq<Message>, inputs: seq<string>, limit: nat)
    ensures var r := Converse(model, search, history, inputs, limit);
      r.turns <= |inputs| &&
      (r.failure.None? <==> r.turns < |inputs| && IsExitCommand(inputs[r.turns])) &&
      (r.failure == Some(InputExhausted) <==> r.turns == |inputs|)
    decreases |inputs|
  {
    if inputs != [] && !IsExitCommand(inputs[0]) {
      TurnFacts(model, search, history, inputs[0], limit);
      if TurnResult(model, search, history, inputs[0], limit).Ok? {
        var h := TurnResult(model, search, history, inputs[0], limit).value;
        ConverseTurn(model, search, history, inputs, limit, h);
        ConversationEnds(model, search, h, inputs[1..], limit);
        var rest := Converse(model, search, h, inputs[1..], limit);
        if rest.turns < |inputs[1..]| {
          assert inputs[1..][rest.turns] == inputs[rest.turns + 1];
        }
      }
    }
  }
}
