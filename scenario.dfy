/**
 * A client of the two models: one declared function `add`, bound to integer
 * addition; the model first asks for add(2, 3), then answers "5". The turn
 * returns the function message, not the model's answer.
 */
module AiScenario {
  import opened Wrappers
  import opened Registry
  import opened Ai

  method AddScenario()
  {
    var schema := JObject(map["type" := JStr("object")]);
    var functions := new FunctionRegistry([Declaration("add", "Add two integers", schema)]);
    var add := (args: Args) =>
      if "a" in args && "b" in args && args["a"].JNum? && args["b"].JNum?
      then JNum(args["a"].n + args["b"].n) else JNull;
    var registered := functions.RegisterFunction("add", add);
    assert FirstMatch(Load([Declaration("add", "Add two integers", schema)]), "add") == Some(0);
    assert registered == Success(());

    var messages := new Transcript([System("You are a helpful assistant")]);
    var call := FunctionCall("add", map["a" := JNum(2), "b" := JNum(3)]);
    var script := [Response(None, Some(call)), Response(Some("5"), None)];
    assert CallsBeforeReply(script[1..]) == 0;
    var outcome, chats := MessageStep("what is 2+3", messages, functions, script);

    assert Dispatch(functions.functions, call) == Success(JNum(5));
    assert Continue(functions.functions, script[1..]) == Trace([], None);
    assert outcome == Returned(FunctionResult("add", JNum(5)));
    assert messages.messages == [System("You are a helpful assistant"), User("what is 2+3"),
                                 FunctionResult("add", JNum(5))];
    assert |chats| == 2 && chats[1].messages == messages.messages;
  }

  /**
   * Memoisation: binding an implementation after the schema was computed
   * leaves the cached schema valid, and a second measurement with another
   * encoding returns the first length.
   */
  method MemoisationScenario(f: Impl)
  {
    var decls := [Declaration("web_search", "Search the web", JNull)];
    var functions := new FunctionRegistry(decls);
    var first := functions.GetFunctionDescriptions();
    DescribeLoad(decls);
    assert first == decls;
    var registered := functions.RegisterFunction("web_search", f);
    assert FirstMatch(Load(decls), "web_search") == Some(0);
    assert functions.functions[0].name == "web_search" && |functions.functions| == 1;
    var second := functions.GetFunctionDescriptions();
    assert second == first;
    var n := functions.GetTokenLength(d => |d| * 7);
    var m := functions.GetTokenLength(d => 0);
    assert n == 7 && m == 7;
    assert FirstMatch(functions.functions, "python") == None;
    var missing := functions.RegisterFunction("python", f);
    assert missing == Failure(ValueError(NotRegistered("python")));
  }
}
