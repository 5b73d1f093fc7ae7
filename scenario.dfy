/** Two scripted conversations: a single `add` call followed by a plain answer, and a
    call to `askDatabase`, a tool the provider is told about but that is not registered. */
module Scenario {
  import opened Wrappers
  import opened Errors
  import opened Values
  import opened Tools
  import opened Messages
  import opened Provider
  import opened ChatModel
  import opened Agent
  import opened AgentProperties

  const AddArguments: string := "{\"options\":{\"a\":2,\"b\":3}}"

  /** `JSON.parse` on the one argument text these scenarios use. */
  function ParseArguments(s: string): Option<Value> {
    if s == AddArguments then Some(Record("options", Obj(map["a" := Num(2), "b" := Num(3)]))) else None
  }

  const AddCall: ToolCall := ToolCall("call_1", "add", AddArguments)
  const AskCall: ToolCall := ToolCall("call_2", "askDatabase", AddArguments)

  const AddScript: seq<Response> := [
    Completion([Turn(None, Some([AddCall]))]),
    Completion([Turn(Some("Result is 5"), None)])
  ]

  const AskScript: seq<Response> := [
    Completion([Turn(None, Some([AddCall, AskCall, AddCall]))]),
    Completion([Turn(Some("never read"), None)])
  ]

  const Seed: seq<Message> := [SystemMsg("You are a calculator"), UserMsg("What is 2 + 3?")]

  function ToolList(): seq<ToolDefinition> {
    seq(|DeclaredNames|, i requires 0 <= i < |DeclaredNames| => ToolDefinition(DeclaredNames[i]))
  }

  const AddReply: Message := ToolMsg("call_1", "add", "5")

  /** The `add` call is answered with "5". */
  lemma AddCallAnswered(ext: ExternalTools)
    ensures DispatchCall(Available(ext), ParseArguments, AddCall) == Success(AddReply)
  {
    var options := Obj(map["a" := Num(2), "b" := Num(3)]);
    assert CallOptions(ParseArguments, AddCall) == Some(options);
    assert Add(options) == Some(Num(5));
    assert ToString(Num(5)) == "5";
  }

  function AddEnv(ext: ExternalTools): Env {
    Env(Available(ext), ParseArguments, AddScript, DefaultModelName, ToolList())
  }

  function AskEnv(ext: ExternalTools): Env {
    Env(Available(ext), ParseArguments, AskScript, DefaultModelName, ToolList())
  }

  // The intermediate states of the two runs: the first request and the turns received.
  const FirstSent: seq<Request> := [Request(DefaultModelName, Seed, ToolList())]
  const AddTurn: Turn := Turn(None, Some([AddCall]))
  const AnswerTurn: Turn := Turn(Some("Result is 5"), None)
  const AskTurn: Turn := Turn(None, Some([AddCall, AskCall, AddCall]))
  const AddConversation: seq<Message> := Seed + [AssistantMsg(AddTurn)]
  const AskConversation: seq<Message> := Seed + [AssistantMsg(AskTurn)]
  const SecondSent: seq<Request> := FirstSent + [Request(DefaultModelName, AddConversation + [AddReply], ToolList())]
  const FinalConversation: seq<Message> := AddConversation + [AddReply] + [AssistantMsg(AnswerTurn)]

  lemma {:induction false} FirstRound(ext: ExternalTools)
    ensures Run(AddEnv(ext), [], Seed) == Continue(AddEnv(ext), FirstSent, AddTurn, AddConversation)
    ensures Run(AskEnv(ext), [], Seed) == Continue(AskEnv(ext), FirstSent, AskTurn, AskConversation)
  {
    assert Complete(AddScript, 0) == Success(AddTurn);
    assert Complete(AskScript, 0) == Success(AskTurn);
    assert [] + FirstSent == FirstSent;
  }

  lemma {:induction false} AddSecondRound(ext: ExternalTools)
    ensures Continue(AddEnv(ext), FirstSent, AddTurn, AddConversation)
         == Continue(AddEnv(ext), SecondSent, AnswerTurn, FinalConversation)
  {
    AddCallAnswered(ext);
    assert DispatchFrom(Available(ext), ParseArguments, [AddCall], 0) == Dispatched([AddReply], None);
    assert Complete(AddScript, 1) == Success(AnswerTurn);
  }

  lemma {:induction false} AskFails(ext: ExternalTools)
    ensures Continue(AskEnv(ext), FirstSent, AskTurn, AskConversation)
         == Outcome(AskConversation + [AddReply], FirstSent, Failure(UnknownToolError("askDatabase")))
  {
    AskDispatch(ext);
  }

  /** The `askDatabase` call names no registered tool. */
  lemma AskCallUnknown(ext: ExternalTools)
    ensures DispatchCall(Available(ext), ParseArguments, AskCall) == Failure(UnknownToolError("askDatabase"))
  {
    assert "askDatabase" !in Available(ext);
    assert CallOptions(ParseArguments, AskCall).Some?;
  }

  /** Dispatching the three calls stops at `askDatabase`, after one reply. */
  lemma {:induction false} AskDispatch(ext: ExternalTools)
    ensures DispatchFrom(Available(ext), ParseArguments, AskTurn.toolCalls.value, 0)
         == Dispatched([AddReply], Some(UnknownToolError("askDatabase")))
  {
    var calls := AskTurn.toolCalls.value;
    AddCallAnswered(ext);
    AskCallUnknown(ext);
    assert DispatchFrom(Available(ext), ParseArguments, calls, 1) == Dispatched([], Some(UnknownToolError("askDatabase")));
  }

  /** One `add` call, then the answer: system, user, assistant, tool, assistant; the tool
      reply is "5"; two round trips; the output is the final content. */
  lemma AddScenario(ext: ExternalTools)
    ensures var o := Run(AddEnv(ext), [], Seed);
      && |o.conversation| == 5
      && o.conversation[3] == AddReply
      && |o.sent| == 2
      && o.result == Success(Record("output", Str("Result is 5")))
  {
    FirstRound(ext);
    AddSecondRound(ext);
    assert Continue(AddEnv(ext), SecondSent, AnswerTurn, FinalConversation)
        == Outcome(FinalConversation, SecondSent, Success(OutputOf(AnswerTurn)));
  }

  /** The first call is answered, the call to the unregistered `askDatabase` fails the
      invocation: nothing is appended for it or for the call after it, and no second
      request is sent. */
  lemma UnknownToolScenario(ext: ExternalTools)
    ensures var o := Run(AskEnv(ext), [], Seed);
      && |o.conversation| == 4
      && o.conversation[3] == AddReply
      && |o.sent| == 1
      && o.result == Failure(UnknownToolError("askDatabase"))
  {
    FirstRound(ext);
    AskFails(ext);
  }

  /** The same scenario on the objects themselves: a chat model seeded from its options,
      an agent over it, one invocation. */
  method RunAddScenario(ext: ExternalTools) returns (r: Result<Value, Error>, conversation: seq<Message>)
    ensures r == Success(Record("output", Str("Result is 5")))
    ensures |conversation| == 5 && conversation[..2] == Seed
    ensures conversation[3] == AddReply
  {
    var options := ChatModelOptions(None, None, Some("You are a calculator"), Some("What is 2 + 3?"));
    var chat := new ChatModelNode(options, AddScript);
    var agent := new AgentNode(chat, ToolList());
    AddScenario(ext);
    r := agent.Invoke(ParseArguments, ext);
    conversation := chat.messages;
    RequestLog(AddEnv(ext), [], Seed);
  }
}
