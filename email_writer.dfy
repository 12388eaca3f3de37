/** The email pipeline: five nodes in a strict line (researcher, drafter,
    translator, refiner, sender) over one shared state whose `messages`
    history is appended to and whose other keys are overwritten. */
module EmailWriter {
  import opened Common
  import opened Text
  import opened StateGraph

  /** The overwritten keys of the shared state. */
  datatype Field =
    | Topic | Language | RecipientEmail | SenderName
    | ResearchInfo | DraftEmail | TranslatedEmail | FinalEmail | ConfirmationMessage

  /** The key under which the source stores each field. */
  function Key(f: Field): string {
    match f
    case Topic => "topic"
    case Language => "language"
    case RecipientEmail => "recipient_email"
    case SenderName => "sender_name"
    case ResearchInfo => "research_info"
    case DraftEmail => "draft_email"
    case TranslatedEmail => "translated_email"
    case FinalEmail => "final_email"
    case ConfirmationMessage => "confirmation_message"
  }

  /** The shared state: the message history and the keys set so far (a key
      not in `fields` has not been set). */
  datatype State = State(messages: seq<Message>, fields: map<Field, string>)

  /** A node's partial update: `messages` when the update carries that key,
      and the overwritten keys it sets. */
  datatype Update = Update(messages: Option<seq<Message>>, fields: map<Field, string>)

  /** The state's reducers: `messages` is appended to, every other key in
      the update replaces the old value, and keys the update omits keep
      theirs. */
  function Merge(s: State, u: Update): (r: State)
    ensures u.messages.Some? ==> r.messages == s.messages + u.messages.value
    ensures u.messages.None? ==> r.messages == s.messages
    ensures forall f :: f in u.fields ==> f in r.fields && r.fields[f] == u.fields[f]
    ensures forall f :: f !in u.fields ==>
      (f in r.fields <==> f in s.fields) && (f in s.fields ==> r.fields[f] == s.fields[f])
  {
    var added := match u.messages case Some(m) => m case None => [];
    State(s.messages + added, s.fields + u.fields)
  }

  /** `state[key]`: the value, or the KeyError Python raises for an unset key. */
  function Get(s: State, f: Field): Result<string> {
    if f in s.fields then Ok(s.fields[f]) else Err(KeyError(Key(f)))
  }

  /** An update that sets exactly one key. */
  function Only(f: Field, v: string): Update {
    Update(None, map[f := v])
  }

  /** The state the command line builds: the four answers, with the
      language defaulting to "English" and the signature to "AI Writer"
      when left empty, and an empty history. */
  function Initial(topic: string, language: string, recipient: string, senderName: string): (s: State)
    ensures s.messages == []
    ensures s.fields.Keys == {Topic, Language, RecipientEmail, SenderName}
    ensures s.fields[Topic] == topic && s.fields[RecipientEmail] == recipient
    ensures s.fields[Language] == (if language == "" then "English" else language)
    ensures s.fields[SenderName] == (if senderName == "" then "AI Writer" else senderName)
  {
    State([], map[
      Topic := topic,
      Language := if language == "" then "English" else language,
      RecipientEmail := recipient,
      SenderName := if senderName == "" then "AI Writer" else senderName])
  }

  /** What each agent is asked, with the prompt wording left opaque: the
      request names the agent and carries the state values it is built from. */
  datatype Prompt =
    | ResearchRequest(topic: string)
    | DraftRequest(topic: string, senderName: string, researchInfo: string)
    | TranslationRequest(language: string, draft: string)
    | RefinementRequest(language: string, translated: string)

  /** The language model behind the four agents. */
  type Llm = Prompt -> Attempt<AiReply>

  /** What `research_node` returns: the research agent is asked about the
      topic, the search tool is run on every tool call it requests, in
      order, and the outputs are joined by newlines into `research_info`. */
  function ResearchResult(llm: Llm, search: Search, s: State): Result<Update> {
    var topic :- Get(s, Topic);
    var reply :- Lift(llm(ResearchRequest(topic)));
    var outputs :- SearchAll(search, reply.toolCalls);
    Ok(Only(ResearchInfo, Join("\n", outputs)))
  }

  /** `research_node`, with its loop that collects one output per tool call. */
  method ResearchNode(llm: Llm, search: Search, s: State) returns (r: Result<Update>)
    ensures r == ResearchResult(llm, search, s)
  {
    var topic :- Get(s, Topic);
    var reply :- Lift(llm(ResearchRequest(topic)));
    var calls := reply.toolCalls;
    var outputs: seq<string> := [];
    var i := 0;
    while i < |calls|
      invariant 0 <= i <= |calls|
      invariant SearchAll(search, calls[..i]) == Ok(outputs)
    {
      var output := search(calls[i].args);
      assert calls[..i + 1][..i] == calls[..i];
      if output.Raised? {
        SearchAllStops(search, calls, i + 1);
        return Err(CapabilityError(output.reason));
      }
      outputs := outputs + [output.value];
      i := i + 1;
    }
    assert calls[..i] == calls;
    return Ok(Only(ResearchInfo, Join("\n", outputs)));
  }

  /** `drafting_node`: the draft is written from the topic, the signature
      and the research. */
  function DraftingNode(llm: Llm, s: State): Result<Update> {
    var topic :- Get(s, Topic);
    var senderName :- Get(s, SenderName);
    var research :- Get(s, ResearchInfo);
    var reply :- Lift(llm(DraftRequest(topic, senderName, research)));
    Ok(Only(DraftEmail, reply.content))
  }

  /** `translation_node`: the draft is translated into the target language. */
  function TranslationNode(llm: Llm, s: State): Result<Update> {
    var language :- Get(s, Language);
    var draft :- Get(s, DraftEmail);
    var reply :- Lift(llm(TranslationRequest(language, draft)));
    Ok(Only(TranslatedEmail, reply.content))
  }

  /** `refining_node`: the translation is polished in the same language. */
  function RefiningNode(llm: Llm, s: State): Result<Update> {
    var language :- Get(s, Language);
    var translated :- Get(s, TranslatedEmail);
    var reply :- Lift(llm(RefinementRequest(language, translated)));
    Ok(Only(FinalEmail, reply.content))
  }

  /** The sender's credentials, as the environment holds them (None when the
      variable is not set). */
  datatype Credentials = Credentials(senderEmail: Option<string>, senderPassword: Option<string>)

  /** The message handed to the mail transport. */
  datatype Envelope = Envelope(sender: string, password: string, recipient: string, subject: string, body: string)

  /** How the transport ended: delivered; refused with an SMTP or SSL error
      (which the sender node catches); or broken by any other exception
      (which propagates). */
  datatype Delivery = Delivered | Refused(reason: string) | Broken(reason: string)

  type Transport = Envelope -> Delivery

  /** The sender node's report for missing information (two literals, so
      that the verifier can read its first characters). */
  const MissingInformation := "Error: " + "Missing required information to send email."
  const NoSubject := "No Subject"
  const Boundary := "\n\n"
  const SubjectTag := "Subject: "

  /** Python truthiness of an optional string. */
  predicate Truthy(o: Option<string>) {
    o.Some? && o.value != ""
  }

  /** The subject and body of the refined email: split at the first blank
      line, with every "Subject: " removed from the head and the head
      stripped; without a blank line, "No Subject" and the whole text. */
  function ParseEmail(content: string): (string, string) {
    match SplitOnce(content, Boundary)
    case Some((head, body)) => (Strip(RemoveAll(head, SubjectTag)), body)
    case None => (NoSubject, content)
  }

  /** The confirmation the sender node stores for a transport outcome. */
  function Confirmation(recipient: string, d: Delivery): Result<string> {
    match d
    case Delivered => Ok("Email successfully sent to " + recipient + "!")
    case Refused(e) => Ok("Failed to send email: " + e)
    case Broken(e) => Err(CapabilityError(e))
  }

  /** `sending_node`: checks that the credentials, the recipient and the
      content are all non-empty, parses the content and hands it to the
      transport; the outcome becomes `confirmation_message`. */
  function SendingNode(creds: Credentials, transport: Transport, s: State): Result<Update> {
    var recipient :- Get(s, RecipientEmail);
    var content :- Get(s, FinalEmail);
    if !(Truthy(creds.senderEmail) && Truthy(creds.senderPassword) && recipient != "" && content != "") then
      Ok(Only(ConfirmationMessage, MissingInformation))
    else
      var (subject, body) := ParseEmail(content);
      var envelope := Envelope(creds.senderEmail.value, creds.senderPassword.value, recipient, subject, body);
      var confirmation :- Confirmation(recipient, transport(envelope));
      Ok(Only(ConfirmationMessage, confirmation))
  }

  /** The graph's node names. */
  datatype Node = Researcher | Drafter | Translator | Refiner | Sender

  /** The order the edges fix. */
  const Pipeline: seq<Node> := [Researcher, Drafter, Translator, Refiner, Sender]

  /** The edge table: each node has one unconditional successor. */
  function Next(n: Node): Target<Node> {
    match n
    case Researcher => Goto(Drafter)
    case Drafter => Goto(Translator)
    case Translator => Goto(Refiner)
    case Refiner => Goto(Sender)
    case Sender => End
  }

  function NodeUpdate(llm: Llm, search: Search, creds: Credentials, transport: Transport, n: Node, s: State): Result<Update> {
    match n
    case Researcher => ResearchResult(llm, search, s)
    case Drafter => DraftingNode(llm, s)
    case Translator => TranslationNode(llm, s)
    case Refiner => RefiningNode(llm, s)
    case Sender => SendingNode(creds, transport, s)
  }

  /** The compiled workflow, entered at the researcher. */
  function EmailGraph(llm: Llm, search: Search, creds: Credentials, transport: Transport): Graph<Node, State, Update> {
    Graph(
      Researcher,
      (n: Node, s: State) => NodeUpdate(llm, search, creds, transport, n, s),
      Merge,
      (n: Node, s: State) => Ok(Next(n)))
  }

  /** The one key each node writes. */
  function Writes(n: Node): Field {
    match n
    case Researcher => ResearchInfo
    case Drafter => DraftEmail
    case Translator => TranslatedEmail
    case Refiner => FinalEmail
    case Sender => ConfirmationMessage
  }

  /** The keys each node reads from the state. */
  function Reads(n: Node): set<Field> {
    match n
    case Researcher => {Topic}
    case Drafter => {Topic, SenderName, ResearchInfo}
    case Translator => {Language, DraftEmail}
    case Refiner => {Language, TranslatedEmail}
    case Sender => {RecipientEmail, FinalEmail}
  }

  // ----- Lemmas -----

  /** A successful node returns an update that sets exactly its own key and
      leaves the history alone. */
  lemma NodeWritesOneField(llm: Llm, search: Search, creds: Credentials, transport: Transport, n: Node, s: State)
    requires NodeUpdate(llm, search, creds, transport, n, s).Ok?
    ensures NodeUpdate(llm, search, creds, transport, n, s).value.messages.None?
    ensures NodeUpdate(llm, search, creds, transport, n, s).value.fields.Keys == {Writes(n)}
  {
  }

  /** A node fails only by reading an unset key or through an exception of
      an external capability. */
  lemma NodeFailures(llm: Llm, search: Search, creds: Credentials, transport: Transport, n: Node, s: State)
    requires NodeUpdate(llm, search, creds, transport, n, s).Err?
    ensures var e := NodeUpdate(llm, search, creds, transport, n, s).error;
      (e.KeyError? && exists f :: f in Reads(n) && f !in s.fields && e == KeyError(Key(f))) ||
      e.CapabilityError?
  {
  }

  /** With capabilities that do not raise, a node succeeds exactly when the
      keys it reads are set; otherwise it raises KeyError for one of them. */
  lemma NodeNeedsItsKeys(llm: Llm, search: Search, creds: Credentials, transport: Transport, n: Node, s: State)
    requires forall p :: llm(p).Returned?
    requires forall a :: search(a).Returned?
    requires forall e :: !transport(e).Broken?
    ensures NodeUpdate(llm, search, creds, transport, n, s).Ok? <==> Reads(n) <= s.fields.Keys
  {
    if n == Researcher && Topic in s.fields {
      var reply := llm(ResearchRequest(s.fields[Topic])).value;
      assert SearchAll(search, reply.toolCalls).Ok?;
    }
  }

  /** `research_info` is the newline-join of one output per requested tool
      call, in call order, and the empty string when none was requested. */
  lemma ResearchJoinsOutputs(llm: Llm, search: Search, s: State, reply: AiReply, outputs: seq<string>)
    requires Topic in s.fields && llm(ResearchRequest(s.fields[Topic])) == Returned(reply)
    requires |outputs| == |reply.toolCalls|
    requires forall i :: 0 <= i < |outputs| ==> search(reply.toolCalls[i].args) == Returned(outputs[i])
    ensures ResearchResult(llm, search, s) == Ok(Only(ResearchInfo, Join("\n", outputs)))
    ensures outputs == [] ==> ResearchResult(llm, search, s) == Ok(Only(ResearchInfo, ""))
  {
    var found := SearchAll(search, reply.toolCalls);
    assert found.Ok?;
    assert found.value == outputs;
  }

  /** Missing information: when a credential, the recipient or the content
      is empty or unset, the node reports the fixed error text and the
      transport is never consulted (any two transports give the same). */
  lemma SendWithoutInformation(creds: Credentials, t1: Transport, t2: Transport, s: State)
    requires RecipientEmail in s.fields && FinalEmail in s.fields
    requires !(Truthy(creds.senderEmail) && Truthy(creds.senderPassword) &&
               s.fields[RecipientEmail] != "" && s.fields[FinalEmail] != "")
    ensures SendingNode(creds, t1, s) == SendingNode(creds, t2, s) == Ok(Only(ConfirmationMessage, MissingInformation))
  {
  }

  /** An unset recipient or content key is not reported as missing
      information: reading it raises KeyError, recipient first. */
  lemma SendWithoutKeys(creds: Credentials, transport: Transport, s: State)
    requires RecipientEmail !in s.fields || FinalEmail !in s.fields
    ensures SendingNode(creds, transport, s) ==
      Err(KeyError(if RecipientEmail !in s.fields then "recipient_email" else "final_email"))
  {
  }

  /** With everything present, the parsed email goes to the transport; a
      delivery or an SMTP/SSL refusal becomes the confirmation text, so the
      node does not raise on those, and only then does it differ from the
      missing-information text. */
  lemma SendReportsDelivery(creds: Credentials, transport: Transport, s: State)
    requires RecipientEmail in s.fields && FinalEmail in s.fields
    requires Truthy(creds.senderEmail) && Truthy(creds.senderPassword)
    requires s.fields[RecipientEmail] != "" && s.fields[FinalEmail] != ""
    ensures var (subject, body) := ParseEmail(s.fields[FinalEmail]);
      var recipient := s.fields[RecipientEmail];
      var d := transport(Envelope(creds.senderEmail.value, creds.senderPassword.value, recipient, subject, body));
      var r := SendingNode(creds, transport, s);
      (d == Delivered ==> r == Ok(Only(ConfirmationMessage, "Email successfully sent to " + recipient + "!"))) &&
      (d.Refused? ==> r == Ok(Only(ConfirmationMessage, "Failed to send email: " + d.reason))) &&
      (d.Broken? ==> r == Err(CapabilityError(d.reason))) &&
      (r.Ok? ==> r.value.fields[ConfirmationMessage] != MissingInformation)
  {
    var recipient := s.fields[RecipientEmail];
    var (subject, body) := ParseEmail(s.fields[FinalEmail]);
    var d := transport(Envelope(creds.senderEmail.value, creds.senderPassword.value, recipient, subject, body));
    var r := SendingNode(creds, transport, s);
    assert MissingInformation[1] == 'r';
    if d == Delivered {
      var text := "Email successfully sent to " + recipient + "!";
      assert text[1] == 'm';
      assert r == Ok(Only(ConfirmationMessage, text));
    } else if d.Refused? {
      var text := "Failed to send email: " + d.reason;
      assert text[0] == 'F';
      assert r == Ok(Only(ConfirmationMessage, text));
    }
  }

  /** With a blank line in the content, the body is everything after the
      first one, verbatim, and the subject is the text before it with every
      "Subject: " removed and the surrounding whitespace stripped. */
  lemma ParseAtFirstBlankLine(content: string, head: string, body: string)
    requires content == head + Boundary + body
    requires forall k :: 0 <= k < |head| ==> !OccursAt(content, Boundary, k)
    ensures ParseEmail(content) == (Strip(RemoveAll(head, SubjectTag)), body)
  {
    SplitOnceAt(content, Boundary, head, body);
  }

  /** Without a blank line, the subject is "No Subject" and the body is the
      whole content. */
  lemma ParseWithoutBlankLine(content: string)
    requires forall k :: 0 <= k <= |content| ==> !OccursAt(content, Boundary, k)
    ensures ParseEmail(content) == (NoSubject, content)
  {
  }

  /** The example's head holds no blank line. */
  lemma ExampleHeadHasNoBoundary(content: string, head: string)
    requires content == "Subject: Hello\n\nBody text" && head == "Subject: Hello"
    ensures forall k :: 0 <= k < |head| ==> !OccursAt(content, Boundary, k)
  {
    forall k | 0 <= k < |head| ensures !OccursAt(content, Boundary, k) {
      assert content[k] == head[k] != '\n';
    }
  }

  /** The example's subject line loses its tag and keeps the rest. */
  lemma ExampleSubject()
    ensures Strip(RemoveAll("Subject: Hello", SubjectTag)) == "Hello"
  {
    var rest := "Hello";
    assert "Subject: Hello" == [] + SubjectTag + rest;
    RemoveAllFirst([], SubjectTag, rest);
    assert forall k :: 0 <= k <= |rest| ==> !OccursAt(rest, SubjectTag, k);
    RemoveAllAbsent(rest, SubjectTag);
    assert [] + rest + [] == rest;
    assert rest[0] == 'H' && rest[|rest| - 1] == 'o';
    LetterNotSpace(rest[0]);
    LetterNotSpace(rest[|rest| - 1]);
    assert Unpadded(rest);
    StripPadded([], rest, []);
  }

  /** The refiner's intended shape parses into its two parts. */
  lemma ParseExample()
    ensures ParseEmail("Subject: Hello\n\nBody text") == ("Hello", "Body text")
  {
    var content := "Subject: Hello\n\nBody text";
    var head := "Subject: Hello";
    assert content == head + Boundary + "Body text";
    ExampleHeadHasNoBoundary(content, head);
    ParseAtFirstBlankLine(content, head, "Body text");
    ExampleSubject();
  }

  /** Step i of an email run is the i-th node of the pipeline. */
  lemma {:induction false} StepIsPipeline(g: Graph<Node, State, Update>, init: State, steps: seq<Step<Node, State, Update>>, i: nat)
    requires g.entry == Researcher && forall n, s :: g.next(n, s) == Ok(Next(n))
    requires Chained(g, Researcher, init, steps)
    requires i < |steps|
    ensures i < |Pipeline| && steps[i].node == Pipeline[i]
  {
    if i > 0 {
      StepIsPipeline(g, init, steps, i - 1);
      assert g.next(steps[i - 1].node, steps[i - 1].state) == Ok(Goto(steps[i].node));
    }
  }

  /** The executor visits researcher, drafter, translator, refiner and
      sender, in that order and nothing else. */
  lemma EmailRunVisits(llm: Llm, search: Search, creds: Credentials, transport: Transport, init: State, limit: nat)
    ensures var t := RunFrom(EmailGraph(llm, search, creds, transport), Researcher, init, limit);
      |t.steps| <= |Pipeline| && forall i :: 0 <= i < |t.steps| ==> t.steps[i].node == Pipeline[i]
  {
    var g := EmailGraph(llm, search, creds, transport);
    var t := RunFrom(g, Researcher, init, limit);
    RunChained(g, Researcher, init, limit);
    forall i | 0 <= i < |t.steps| ensures i < |Pipeline| && t.steps[i].node == Pipeline[i] {
      StepIsPipeline(g, init, t.steps, i);
    }
    if |t.steps| > 0 {
      StepIsPipeline(g, init, t.steps, |t.steps| - 1);
    }
  }

  /** The executor reaches END exactly when all five nodes ran, and with a
      bound of at least five steps it never stops for the bound. */
  lemma EmailRunFollowsPipeline(llm: Llm, search: Search, creds: Credentials, transport: Transport, init: State, limit: nat)
    requires limit >= |Pipeline|
    ensures var t := RunFrom(EmailGraph(llm, search, creds, transport), Researcher, init, limit);
      |t.steps| <= |Pipeline| &&
      (forall i :: 0 <= i < |t.steps| ==> t.steps[i].node == Pipeline[i]) &&
      (t.error.None? <==> |t.steps| == |Pipeline|) &&
      t.error != Some(StepLimit)
  {
    var g := EmailGraph(llm, search, creds, transport);
    var t := RunFrom(g, Researcher, init, limit);
    EmailRunVisits(llm, search, creds, transport, init, limit);
    if t.error.None? {
      RunEnds(g, Researcher, init, limit);
      assert Next(Last(t.steps).node) == End;
    } else {
      RunFails(g, Researcher, init, limit);
      if Due(g, Researcher, t.steps).Some? && t.error.value == StepLimit && |t.steps| < limit {
        NodeFailures(llm, search, creds, transport, Due(g, Researcher, t.steps).value, Current(init, t.steps));
      }
    }
  }

  /** The keys the first `k` nodes of the pipeline write. */
  function Done(k: nat): set<Field>
    requires k <= |Pipeline|
  {
    if k == 0 then {} else Done(k - 1) + {Writes(Pipeline[k - 1])}
  }

  /** A step adds its node's key to the keys it started with. */
  lemma StepKeys(llm: Llm, search: Search, creds: Credentials, transport: Transport,
                 before: State, st: Step<Node, State, Update>)
    requires Follows(EmailGraph(llm, search, creds, transport), before, st)
    ensures st.state.fields.Keys == before.fields.Keys + {Writes(st.node)}
  {
    NodeWritesOneField(llm, search, creds, transport, st.node, before);
    assert st.state == Merge(before, st.update);
  }

  /** The snapshot after node i holds exactly the keys of the input state
      and the keys of the nodes that ran so far. */
  lemma {:induction false} SnapshotKeys(llm: Llm, search: Search, creds: Credentials, transport: Transport,
                                        init: State, steps: seq<Step<Node, State, Update>>, i: nat)
    requires Chained(EmailGraph(llm, search, creds, transport), Researcher, init, steps)
    requires i < |steps| <= |Pipeline|
    requires forall j :: 0 <= j < |steps| ==> steps[j].node == Pipeline[j]
    ensures steps[i].state.fields.Keys == init.fields.Keys + Done(i + 1)
  {
    StepKeys(llm, search, creds, transport, if i == 0 then init else steps[i - 1].state, steps[i]);
    if i > 0 {
      SnapshotKeys(llm, search, creds, transport, init, steps, i - 1);
    }
  }

  /** Each node reads only the four answers and keys that earlier nodes
      of the pipeline write. */
  lemma ReadsAreAvailable(k: nat, inputs: set<Field>)
    requires k < |Pipeline|
    requires {Topic, Language, RecipientEmail, SenderName} <= inputs
    ensures Reads(Pipeline[k]) <= inputs + Done(k)
  {
  }

  /** After a proper prefix of the pipeline, the next node finds every key
      it reads, so with no external call raising it succeeds. */
  lemma NextNodeRuns(llm: Llm, search: Search, creds: Credentials, transport: Transport,
                     init: State, steps: seq<Step<Node, State, Update>>)
    requires Chained(EmailGraph(llm, search, creds, transport), Researcher, init, steps)
    requires |steps| < |Pipeline|
    requires forall j :: 0 <= j < |steps| ==> steps[j].node == Pipeline[j]
    requires {Topic, Language, RecipientEmail, SenderName} <= init.fields.Keys
    requires forall p :: llm(p).Returned?
    requires forall a :: search(a).Returned?
    requires forall e :: !transport(e).Broken?
    ensures var g := EmailGraph(llm, search, creds, transport);
      Due(g, Researcher, steps) == Some(Pipeline[|steps|]) &&
      g.run(Pipeline[|steps|], Current(init, steps)).Ok?
  {
    var g := EmailGraph(llm, search, creds, transport);
    var k := |steps|;
    var cur := Current(init, steps);
    if k > 0 {
      assert Last(steps) == steps[k - 1];
      SnapshotKeys(llm, search, creds, transport, init, steps, k - 1);
      assert cur.fields.Keys == init.fields.Keys + Done(k);
      assert g.next(Last(steps).node, Last(steps).state) == Ok(Next(Pipeline[k - 1]));
    }
    ReadsAreAvailable(k, init.fields.Keys);
    NodeNeedsItsKeys(llm, search, creds, transport, Pipeline[k], cur);
    assert g.run(Pipeline[k], cur) == NodeUpdate(llm, search, creds, transport, Pipeline[k], cur);
  }

  /** When the input state holds the four answers and no external call
      raises, the run reaches END after all five nodes. */
  lemma EmailRunSucceeds(llm: Llm, search: Search, creds: Credentials, transport: Transport, init: State, limit: nat)
    requires limit >= |Pipeline|
    requires {Topic, Language, RecipientEmail, SenderName} <= init.fields.Keys
    requires forall p :: llm(p).Returned?
    requires forall a :: search(a).Returned?
    requires forall e :: !transport(e).Broken?
    ensures var t := RunFrom(EmailGraph(llm, search, creds, transport), Researcher, init, limit);
      t.error.None? && |t.steps| == |Pipeline|
  {
    var g := EmailGraph(llm, search, creds, transport);
    var t := RunFrom(g, Researcher, init, limit);
    EmailRunFollowsPipeline(llm, search, creds, transport, init, limit);
    if t.error.Some? {
      RunFails(g, Researcher, init, limit);
      RunChained(g, Researcher, init, limit);
      NextNodeRuns(llm, search, creds, transport, init, t.steps);
      assert false;
    }
  }

  /** The whole pipeline writes the five answer keys. */
  lemma AllDone()
    ensures Done(|Pipeline|) == {ResearchInfo, DraftEmail, TranslatedEmail, FinalEmail, ConfirmationMessage}
  {
    assert Done(1) == {ResearchInfo};
    assert Done(2) == {ResearchInfo, DraftEmail};
    assert Done(3) == {ResearchInfo, DraftEmail, TranslatedEmail};
    assert Done(4) == {ResearchInfo, DraftEmail, TranslatedEmail, FinalEmail};
  }

  /** A complete chain of the five pipeline nodes ends in a snapshot with
      the input keys and the five keys the nodes write. */
  lemma CompleteChainKeys(llm: Llm, search: Search, creds: Credentials, transport: Transport,
                          init: State, steps: seq<Step<Node, State, Update>>)
    requires Chained(EmailGraph(llm, search, creds, transport), Researcher, init, steps)
    requires |steps| == |Pipeline|
    requires forall j :: 0 <= j < |steps| ==> steps[j].node == Pipeline[j]
    ensures Last(steps).state.fields.Keys ==
      init.fields.Keys + {ResearchInfo, DraftEmail, TranslatedEmail, FinalEmail, ConfirmationMessage}
  {
    SnapshotKeys(llm, search, creds, transport, init, steps, 4);
    AllDone();
    assert Last(steps) == steps[4];
  }

  /** After such a run the last snapshot holds exactly the input keys and
      the five keys the nodes write, the confirmation among them. */
  lemma EmailRunCompletes(llm: Llm, search: Search, creds: Credentials, transport: Transport, init: State, limit: nat)
    requires limit >= |Pipeline|
    requires {Topic, Language, RecipientEmail, SenderName} <= init.fields.Keys
    requires forall p :: llm(p).Returned?
    requires forall a :: search(a).Returned?
    requires forall e :: !transport(e).Broken?
    ensures var t := RunFrom(EmailGraph(llm, search, creds, transport), Researcher, init, limit);
      t.error.None? && |t.steps| == |Pipeline| &&
      Last(t.steps).state.fields.Keys == init.fields.Keys + {ResearchInfo, DraftEmail, TranslatedEmail, FinalEmail, ConfirmationMessage}
  {
    var g := EmailGraph(llm, search, creds, transport);
    RunChained(g, Researcher, init, limit);
    EmailRunFollowsPipeline(llm, search, creds, transport, init, limit);
    EmailRunSucceeds(llm, search, creds, transport, init, limit);
    CompleteChainKeys(llm, search, creds, transport, init, RunFrom(g, Researcher, init, limit).steps);
  }
}
