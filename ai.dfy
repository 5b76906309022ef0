/**
 * One conversational turn of ai.py (`message_step`): the user's message is
 * appended to the caller's transcript, and while the model answers with a
 * function call the call is dispatched through the registry and its result
 * appended as a "function" message. The chat endpoint is replaced by a
 * scripted sequence of responses: the k-th call to the endpoint returns the
 * k-th response.
 */
module Ai {
  import opened Wrappers
  import opened Registry

  /** The `function_call` of a model response, its arguments already parsed. */
  datatype FunctionCall = FunctionCall(name: string, arguments: Args)

  /** A model response: plain text, or a request to call a function. */
  datatype Response = Response(content: Option<string>, functionCall: Option<FunctionCall>)

  /** A transcript message, by role. */
  datatype Message =
    | System(content: string)
    | User(content: string)
    | Assistant(content: string)
    | FunctionResult(name: string, output: Json)

  /** What one call to the chat endpoint is given: the transcript and the schema. */
  datatype ChatCall = ChatCall(messages: seq<Message>, functions: seq<Declaration>)

  /** How a turn ends: `messages[-1]` is returned, or an error propagates. */
  datatype Outcome = Returned(message: Message) | Raised(error: Error)

  /** The messages a turn appends, and how it ends. */
  datatype StepResult = StepResult(appended: seq<Message>, outcome: Outcome)

  /** The function messages appended after the user message, and the error that stopped the loop, if any. */
  datatype Trace = Trace(appended: seq<Message>, raised: Option<Error>)

  /** The number of function-call responses before the first plain reply. */
  function CallsBeforeReply(script: seq<Response>): (n: nat)
    ensures n <= |script|
    ensures forall j :: 0 <= j < n ==> script[j].functionCall.Some?
    ensures n < |script| ==> script[n].functionCall.None?
  {
    if script == [] || script[0].functionCall.None? then 0
    else 1 + CallsBeforeReply(script[1..])
  }

  /** The scripted model eventually answers without a function call. */
  predicate HasReply(script: seq<Response>)
  {
    CallsBeforeReply(script) < |script|
  }

  /** `execute_function` applied to a parsed `function_call`: its name and its arguments. */
  function Dispatch(entries: seq<Entry>, call: FunctionCall): Result<Json, Error>
  {
    Execute(entries, call.name, call.arguments)
  }

  /**
   * The loop of `message_step`, run from the response `script[0]` on. It
   * appends one message per function call it dispatches, stops without
   * appending at the first plain reply, and stops early only when a dispatch
   * raises, in which case nothing is appended for that call.
   */
  function Continue(entries: seq<Entry>, script: seq<Response>): (t: Trace)
    requires HasReply(script)
    ensures |t.appended| <= CallsBeforeReply(script)
    ensures t.raised.None? <==> |t.appended| == CallsBeforeReply(script)
    decreases |script|
  {
    if script[0].functionCall.None? then Trace([], None)
    else
      var call := script[0].functionCall.value;
      match Dispatch(entries, call)
      case Failure(e) => Trace([], Some(e))
      case Success(out) =>
        var rest := Continue(entries, script[1..]);
        Trace([FunctionResult(call.name, out)] + rest.appended, rest.raised)
  }

  /** The whole turn: the user message, the function messages, and what is returned. */
  function Step(userMessage: string, entries: seq<Entry>, script: seq<Response>): StepResult
    requires HasReply(script)
  {
    var t := Continue(entries, script);
    var appended := [User(userMessage)] + t.appended;
    StepResult(appended,
      if t.raised.Some? then Raised(t.raised.value) else Returned(appended[|appended| - 1]))
  }

  // ---------------------------------------------------------------------------
  // Properties of one turn

  /** The loop stops early only at a call whose dispatch raises, and passes that error on. */
  lemma {:induction false} ContinueRaised(entries: seq<Entry>, script: seq<Response>)
    requires HasReply(script)
    requires Continue(entries, script).raised.Some?
    ensures
      var k := |Continue(entries, script).appended|;
      && script[k].functionCall.Some?
      && Dispatch(entries, script[k].functionCall.value) == Failure(Continue(entries, script).raised.value)
  {
    if script[0].functionCall.Some? && Dispatch(entries, script[0].functionCall.value).Success? {
      ContinueRaised(entries, script[1..]);
      var k := |Continue(entries, script[1..]).appended|;
      assert script[1..][k] == script[k + 1];
    }
  }

  /**
   * The j-th appended message answers the j-th response: it is a "function"
   * message with the requested name and the registry's result for it.
   */
  lemma {:induction false} ContinueAt(entries: seq<Entry>, script: seq<Response>, j: nat)
    requires HasReply(script)
    requires j < |Continue(entries, script).appended|
    ensures script[j].functionCall.Some?
    ensures Dispatch(entries, script[j].functionCall.value).Success?
    ensures Continue(entries, script).appended[j] ==
      FunctionResult(script[j].functionCall.value.name,
                     Dispatch(entries, script[j].functionCall.value).value)
  {
    if j > 0 {
      ContinueAt(entries, script[1..], j - 1);
      assert script[1..][j - 1] == script[j];
    }
  }

  /** A call the loop reaches and whose dispatch succeeds is answered by the k-th appended message. */
  lemma ContinueAnswers(entries: seq<Entry>, script: seq<Response>, k: nat, out: Json)
    requires HasReply(script)
    requires k < CallsBeforeReply(script) && k <= |Continue(entries, script).appended|
    requires Dispatch(entries, script[k].functionCall.value) == Success(out)
    ensures k < |Continue(entries, script).appended|
    ensures Continue(entries, script).appended[k] == FunctionResult(script[k].functionCall.value.name, out)
  {
    if k == |Continue(entries, script).appended| {
      ContinueRaised(entries, script);
    } else {
      ContinueAt(entries, script, k);
    }
  }

  /** A call the loop reaches and whose dispatch raises ends the loop with that error. */
  lemma ContinueStops(entries: seq<Entry>, script: seq<Response>, k: nat, e: Error)
    requires HasReply(script)
    requires k < CallsBeforeReply(script) && k <= |Continue(entries, script).appended|
    requires Dispatch(entries, script[k].functionCall.value) == Failure(e)
    ensures |Continue(entries, script).appended| == k
    ensures Continue(entries, script).raised == Some(e)
  {
    if k < |Continue(entries, script).appended| {
      ContinueAt(entries, script, k);
    }
    ContinueRaised(entries, script);
  }

  /**
   * A turn appends the user message first and then only "function" messages;
   * the model's reply is never appended. A turn that does not raise grows the
   * transcript by one plus the number of function calls before the reply.
   */
  lemma StepAppends(userMessage: string, entries: seq<Entry>, script: seq<Response>)
    requires HasReply(script)
    ensures Step(userMessage, entries, script).appended[0] == User(userMessage)
    ensures forall j :: 1 <= j < |Step(userMessage, entries, script).appended| ==>
      Step(userMessage, entries, script).appended[j].FunctionResult?
    ensures Step(userMessage, entries, script).outcome.Returned? <==>
      |Step(userMessage, entries, script).appended| == 1 + CallsBeforeReply(script)
  {
    forall j | 1 <= j < |Step(userMessage, entries, script).appended|
      ensures Step(userMessage, entries, script).appended[j].FunctionResult?
    {
      ContinueAt(entries, script, j - 1);
    }
  }

  /**
   * The turn returns the last appended message, not the model's reply: the
   * user message when no function was called, otherwise the result of the
   * last call.
   */
  lemma StepReturnsLastAppended(userMessage: string, entries: seq<Entry>, script: seq<Response>)
    requires HasReply(script)
    requires Step(userMessage, entries, script).outcome.Returned?
    ensures CallsBeforeReply(script) == 0 ==>
      Step(userMessage, entries, script).outcome.message == User(userMessage)
    ensures CallsBeforeReply(script) > 0 ==>
      var call := script[CallsBeforeReply(script) - 1].functionCall.value;
      && Dispatch(entries, call).Success?
      && Step(userMessage, entries, script).outcome.message ==
           FunctionResult(call.name, Dispatch(entries, call).value)
  {
  }

  /**
   * A requested name no entry carries does not stop the loop: it yields a
   * "function" message whose content is the not-found sentence.
   */
  lemma UnknownNamesNeverRaise(userMessage: string, entries: seq<Entry>, script: seq<Response>)
    requires HasReply(script)
    requires forall j, i :: 0 <= j < CallsBeforeReply(script) && 0 <= i < |entries| ==>
      entries[i].name != script[j].functionCall.value.name
    ensures Step(userMessage, entries, script).outcome.Returned?
    ensures |Step(userMessage, entries, script).appended| == 1 + CallsBeforeReply(script)
    ensures forall j :: 0 <= j < CallsBeforeReply(script) ==>
      var name := script[j].functionCall.value.name;
      Step(userMessage, entries, script).appended[j + 1] == FunctionResult(name, JStr(NotFound(name)))
  {
  }

  /** When every declared function has an implementation bound, no turn raises. */
  lemma AllBoundNeverRaises(userMessage: string, entries: seq<Entry>, script: seq<Response>)
    requires HasReply(script)
    requires forall i :: 0 <= i < |entries| ==> entries[i].func.Some?
    ensures Step(userMessage, entries, script).outcome.Returned?
  {
    if Continue(entries, script).raised.Some? {
      ContinueRaised(entries, script);
    }
  }

  /**
   * The c-th chat call of a turn was given the transcript up to and including
   * the c-th message of the turn, and the schema `schema`.
   */
  ghost predicate Observed(chats: seq<ChatCall>, prior: seq<Message>, turn: seq<Message>,
                           schema: seq<Declaration>)
  {
    && |chats| == |turn|
    && forall c :: 0 <= c < |chats| ==> chats[c] == ChatCall(prior + turn[..c + 1], schema)
  }

  lemma ObservedExtend(chats: seq<ChatCall>, prior: seq<Message>, turn: seq<Message>,
                       schema: seq<Declaration>, m: Message)
    requires Observed(chats, prior, turn, schema)
    ensures Observed(chats + [ChatCall(prior + turn + [m], schema)], prior, turn + [m], schema)
  {
  }

  /** The caller-owned transcript list, which a turn appends to in place. */
  class Transcript {
    var messages: seq<Message>

    constructor (initial: seq<Message>)
      ensures messages == initial
    {
      messages := initial;
    }
  }

  /**
   * `message_step`. The ghost `chats` records what each call to the chat
   * endpoint is given: the transcript as it stands and the memoised schema.
   */
  method MessageStep(userMessage: string, messages: Transcript, functions: FunctionRegistry,
                     script: seq<Response>)
    returns (outcome: Outcome, ghost chats: seq<ChatCall>)
    requires functions.Valid()
    requires HasReply(script)
    modifies messages, functions`functionDescriptions
    ensures functions.Valid()
    ensures functions.functionDescriptions == Some(Describe(functions.functions))
    ensures messages.messages ==
      old(messages.messages) + Step(userMessage, functions.functions, script).appended
    ensures outcome == Step(userMessage, functions.functions, script).outcome
    ensures Observed(chats, old(messages.messages),
                     Step(userMessage, functions.functions, script).appended,
                     Describe(functions.functions))
  {
    ghost var prior := messages.messages;
    ghost var entries := functions.functions;
    ghost var trace := Continue(entries, script);
    messages.messages := messages.messages + [User(userMessage)];
    ghost var turn := [User(userMessage)];
    var descriptions := functions.GetFunctionDescriptions();
    var k := 0;
    var response := script[k];
    chats := [ChatCall(messages.messages, descriptions)];
    var count := 0;
    while response.functionCall.Some?
      invariant k <= CallsBeforeReply(script) && response == script[k]
      invariant count == k && |turn| == k + 1 && turn[0] == User(userMessage)
      invariant functions.Valid() && functions.functions == entries
      invariant functions.functionDescriptions == Some(Describe(entries))
      invariant messages.messages == prior + turn
      invariant k <= |trace.appended| && turn[1..] == trace.appended[..k]
      invariant Observed(chats, prior, turn, Describe(entries))
      decreases |script| - k
    {
      var call := response.functionCall.value;
      var content := functions.ExecuteFunction(call.name, call.arguments);
      if content.Failure? {
        ContinueStops(entries, script, k, content.error);
        assert turn == [User(userMessage)] + trace.appended;
        outcome := Raised(content.error);
        return;
      }
      ContinueAnswers(entries, script, k, content.value);
      var result := FunctionResult(call.name, content.value);
      messages.messages := messages.messages + [result];
      ObservedExtend(chats, prior, turn, Describe(entries), result);
      assert (turn + [result])[1..] == trace.appended[..k + 1];
      turn := turn + [result];
      descriptions := functions.GetFunctionDescriptions();
      k := k + 1;
      response := script[k];
      chats := chats + [ChatCall(messages.messages, descriptions)];
      count := count + 1;
    }
    assert turn == [User(userMessage)] + trace.appended;
    outcome := Returned(messages.messages[|messages.messages| - 1]);
  }
}
