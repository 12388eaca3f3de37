/** Values shared by the email pipeline and the role-play pipeline: the
    messages that flow through a graph, the tool-call requests a model can
    make, the outcomes of the opaque external capabilities, and the failures
    that end a run. */
module Common {

  datatype Option<T> = None | Some(value: T)

  /** Why a node, a routing function or a whole run stopped with an error
      (each is an exception that propagates to the caller in the source). */
  datatype Failure =
    | KeyError(key: string)            // a node read a state key nobody set
    | IndexError                       // the "last message" of an empty history
    | CapabilityError(reason: string)  // the model, the search tool or the transport raised
    | RoutingError(branch: string)     // a routing label with no branch in the edge table
    | StepLimit                        // the run did not reach END within its step bound
    | InputExhausted                   // the interactive loop asked for input that was not there

  datatype Result<T> = Ok(value: T) | Err(error: Failure) {
    predicate IsFailure() { Err? }

    function PropagateFailure<U>(): Result<U>
      requires Err?
    {
      Err(error)
    }

    function Extract(): T
      requires Ok?
    {
      value
    }
  }

  /** What an opaque external call gives back: a value, or the text of the
      exception it raised. */
  datatype Attempt<T> = Returned(value: T) | Raised(reason: string)

  /** An external call's exception becomes a run failure. */
  function Lift<T>(a: Attempt<T>): Result<T> {
    match a
    case Returned(v) => Ok(v)
    case Raised(e) => Err(CapabilityError(e))
  }

  /** The structured arguments of a tool call, by argument name. */
  type Args = map<string, string>

  datatype ToolCall = ToolCall(id: string, name: string, args: Args)

  /** What the language model answers: text, and possibly tool-call requests. */
  datatype AiReply = AiReply(content: string, toolCalls: seq<ToolCall>)

  datatype Message =
    | SystemMessage(content: string)
    | HumanMessage(content: string)
    | AiMessage(content: string, toolCalls: seq<ToolCall>)
    | ToolMessage(content: string, toolCallId: string)

  function FromReply(r: AiReply): Message {
    AiMessage(r.content, r.toolCalls)
  }

  /** The tool calls a message carries; messages of other roles have none
      (the source's `hasattr(m, "tool_calls")` test). */
  function ToolCallsOf(m: Message): seq<ToolCall> {
    if m.AiMessage? then m.toolCalls else []
  }

  predicate HasToolCalls(m: Message) {
    |ToolCallsOf(m)| > 0
  }

  function Last<T>(s: seq<T>): T
    requires |s| > 0
  {
    s[|s| - 1]
  }

  /** The search tool: structured arguments in, stringified output or an
      exception out. */
  type Search = Args -> Attempt<string>

  /** Invokes `search` on each call's arguments, in call order, stopping at
      the first exception; on success, one output per call. */
  function SearchAll(search: Search, calls: seq<ToolCall>): (r: Result<seq<string>>)
    ensures r.Ok? ==>
      |r.value| == |calls| &&
      forall i :: 0 <= i < |calls| ==> search(calls[i].args) == Returned(r.value[i])
    ensures r.Err? ==>
      exists i :: 0 <= i < |calls| && search(calls[i].args).Raised? &&
        r.error == CapabilityError(search(calls[i].args).reason) &&
        forall j :: 0 <= j < i ==> search(calls[j].args).Returned?
    ensures (forall i :: 0 <= i < |calls| ==> search(calls[i].args).Returned?) ==> r.Ok?
  {
    if |calls| == 0 then Ok([])
    else
      var front := SearchAll(search, calls[..|calls| - 1]);
      if front.Err? then Err(front.error)
      else match search(Last(calls).args)
        case Raised(e) => Err(CapabilityError(e))
        case Returned(out) => Ok(front.value + [out])
  }

  /** One more call extends the outputs by its own output, or fails with
      its exception. */
  lemma SearchAllSnoc(search: Search, calls: seq<ToolCall>, i: nat)
    requires i < |calls| && SearchAll(search, calls[..i]).Ok?
    ensures SearchAll(search, calls[..i + 1]) ==
      match search(calls[i].args)
      case Raised(e) => Err(CapabilityError(e))
      case Returned(out) => Ok(SearchAll(search, calls[..i]).value + [out])
  {
    assert calls[..i + 1][..i] == calls[..i];
    assert Last(calls[..i + 1]) == calls[i];
  }

  /** When every call returns, the outputs are exactly the returned values. */
  lemma SearchAllReturns(search: Search, calls: seq<ToolCall>, outputs: seq<string>)
    requires |outputs| == |calls|
    requires forall i :: 0 <= i < |calls| ==> search(calls[i].args) == Returned(outputs[i])
    ensures SearchAll(search, calls) == Ok(outputs)
  {
    var r := SearchAll(search, calls);
    assert r.Ok?;
    forall i | 0 <= i < |calls| ensures r.value[i] == outputs[i] {
      assert search(calls[i].args) == Returned(r.value[i]);
    }
    assert r.value == outputs;
  }

  /** Once a prefix of the calls has hit an exception, the remaining calls
      change nothing: the first failure is the result. */
  lemma {:induction false} SearchAllStops(search: Search, calls: seq<ToolCall>, k: nat)
    requires k <= |calls|
    requires SearchAll(search, calls[..k]).Err?
    ensures SearchAll(search, calls) == SearchAll(search, calls[..k])
    decreases |calls| - k
  {
    if k == |calls| {
      assert calls[..k] == calls;
    } else {
      assert calls[..k + 1][..k] == calls[..k];
      SearchAllStops(search, calls, k + 1);
    }
  }
}
