/** `AIAgentNode`: the tool-calling loop. The functions state what one invocation
    appends, how many requests it sends and what it returns; the class method
    does it step by step on the shared conversation and is proved to agree. */
module Agent {
  import opened Wrappers
  import opened Errors
  import opened Values
  import opened Tools
  import opened Messages
  import opened Provider
  import opened ChatModel

  /** The replies appended for one turn's tool calls, and the error that stopped them. */
  datatype Dispatched = Dispatched(replies: seq<Message>, failure: Option<Error>)

  /** Where one invocation leaves the conversation and the client's request log, and
      what it returns. */
  datatype Outcome = Outcome(conversation: seq<Message>, sent: seq<Request>, result: Result<Value, Error>)

  /** What stays fixed during one invocation: the tools it resolves against, `JSON.parse`,
      the provider's script, and the model name and tool list every request carries. */
  datatype Env = Env(reg: Registry, parse: string -> Option<Value>, script: seq<Response>,
                     model: string, tools: seq<ToolDefinition>)

  /** `JSON.parse(arguments).options`; `None` where that throws. */
  function CallOptions(parse: string -> Option<Value>, call: ToolCall): Option<Value> {
    match parse(call.arguments)
    case None => None
    case Some(args) => Property(args, "options")
  }

  /** One tool call, with its name already resolved to `resolved`: arguments are parsed
      first, then the options read, then the tool called, then its result turned into
      the reply's text, as JavaScript evaluates `AVAILABLE_TOOLS[name](args.options)` and
      then `${result}`. */
  function DispatchResolved(resolved: Option<Tool>, parse: string -> Option<Value>, call: ToolCall): Result<Message, Error> {
    match CallOptions(parse, call)
    case None => Failure(ArgumentParseError(call.id))
    case Some(options) =>
      match resolved
      case None => Failure(UnknownToolError(call.name))
      case Some(tool) =>
        match tool(options)
        case None => Failure(ToolExecutionError(call.name))
        case Some(v) =>
          match Text(v)
          case None => Failure(ReplyTextError(call.name))
          case Some(t) => Success(ToolMsg(call.id, call.name, t))
  }

  /** The result of a registered tool on the call's options. */
  ghost function ToolResult(reg: Registry, parse: string -> Option<Value>, call: ToolCall): Option<Value>
    requires call.name in reg && CallOptions(parse, call).Some?
  {
    reg[call.name](CallOptions(parse, call).value)
  }

  /** One tool call against the registry. A successful call yields a `tool` message that
      answers it: same id, same tool name (its text is stated by `DispatchCallCases`). */
  function DispatchCall(reg: Registry, parse: string -> Option<Value>, call: ToolCall): (r: Result<Message, Error>)
    ensures r.Success? ==> r.value.ToolMsg? && r.value.toolCallId == call.id && r.value.name == call.name
  {
    DispatchResolved(Lookup(reg, call.name), parse, call)
  }

  /** A tool call succeeds exactly when the arguments yield options, the name is
      registered, the tool returns and its result has a text; that text is the reply's.
      Each way of failing has its own error, naming the call. */
  lemma DispatchCallCases(reg: Registry, parse: string -> Option<Value>, call: ToolCall)
    ensures var r := DispatchCall(reg, parse, call);
      && (r.Success? <==>
            && CallOptions(parse, call).Some? && call.name in reg
            && ToolResult(reg, parse, call).Some? && !ConversionThrows(ToolResult(reg, parse, call).value))
      && (r.Success? ==> r.value.content == ToString(ToolResult(reg, parse, call).value))
      && (r.Failure? ==>
            r.error == (if CallOptions(parse, call).None? then ArgumentParseError(call.id)
                        else if call.name !in reg then UnknownToolError(call.name)
                        else if ToolResult(reg, parse, call).None? then ToolExecutionError(call.name)
                        else ReplyTextError(call.name)))
  {
  }

  function Prefixed(replies: seq<Message>, d: Dispatched): Dispatched {
    Dispatched(replies + d.replies, d.failure)
  }

  /** The calls `calls[i..]`, in list order, until the first one that fails. */
  function DispatchFrom(reg: Registry, parse: string -> Option<Value>, calls: seq<ToolCall>, i: nat): (d: Dispatched)
    requires i <= |calls|
    decreases |calls| - i
  {
    if i == |calls| then Dispatched([], None)
    else match DispatchCall(reg, parse, calls[i])
      case Failure(e) => Dispatched([], Some(e))
      case Success(m) => Prefixed([m], DispatchFrom(reg, parse, calls, i + 1))
  }

  /** The replies answer a prefix of the calls, one each and in list order; the prefix is
      all of them, or it stops right before the first call that fails. */
  lemma {:induction false} DispatchFromShape(reg: Registry, parse: string -> Option<Value>, calls: seq<ToolCall>, i: nat)
    requires i <= |calls|
    ensures var d := DispatchFrom(reg, parse, calls, i);
      && |d.replies| <= |calls| - i
      && (forall n :: 0 <= n < |d.replies| ==> DispatchCall(reg, parse, calls[i + n]) == Success(d.replies[n]))
      && (d.failure.None? ==> |d.replies| == |calls| - i)
      && (d.failure.Some? ==>
            && |d.replies| < |calls| - i
            && DispatchCall(reg, parse, calls[i + |d.replies|]) == Failure(d.failure.value))
    decreases |calls| - i
  {
    if i < |calls| && DispatchCall(reg, parse, calls[i]).Success? {
      DispatchFromShape(reg, parse, calls, i + 1);
      var d := DispatchFrom(reg, parse, calls, i);
      var rest := DispatchFrom(reg, parse, calls, i + 1);
      forall n | 0 <= n < |d.replies|
        ensures DispatchCall(reg, parse, calls[i + n]) == Success(d.replies[n])
      {
        if n > 0 {
          assert d.replies[n] == rest.replies[n - 1];
          assert calls[i + n] == calls[(i + 1) + (n - 1)];
        }
      }
    }
  }

  /** An invocation on conversation `conv`, with `sent` already in the client's log:
      request, append the turn, then go on as `Continue` says. */
  function Run(env: Env, sent: seq<Request>, conv: seq<Message>): Outcome {
    var sent' := sent + [Request(env.model, conv, env.tools)];
    match Complete(env.script, |sent|)
    case Failure(e) => Outcome(conv, sent', Failure(e))
    case Success(turn) => Continue(env, sent', turn, conv + [AssistantMsg(turn)])
  }

  /** The loop, once `turn` has been appended to `conv`: stop if the turn carries no
      `tool_calls`; otherwise answer every call, request again, append the new turn and
      go on from it. */
  function Continue(env: Env, sent: seq<Request>, turn: Turn, conv: seq<Message>): Outcome
    requires |sent| <= |env.script|
    decreases |env.script| - |sent|
  {
    match turn.toolCalls
    case None => Outcome(conv, sent, Success(OutputOf(turn)))
    case Some(calls) =>
      var d := DispatchFrom(env.reg, env.parse, calls, 0);
      if d.failure.Some? then Outcome(conv + d.replies, sent, Failure(d.failure.value))
      else
        var sent' := sent + [Request(env.model, conv + d.replies, env.tools)];
        match Complete(env.script, |sent|)
        case Failure(e) => Outcome(conv + d.replies, sent', Failure(e))
        case Success(next) => Continue(env, sent', next, conv + d.replies + [AssistantMsg(next)])
  }

  class AgentNode {
    const chatModel: ChatModelNode
    const tools: seq<ToolDefinition>

    constructor (chatModel: ChatModelNode, tools: seq<ToolDefinition>)
      ensures this.chatModel == chatModel && this.tools == tools
    {
      this.chatModel := chatModel;
      this.tools := tools;
    }

    /** The inner loop: answer every call of one turn, in list order, appending one
        `tool` message per call and stopping at the first call that throws. */
    method AnswerCalls(reg: Registry, parse: string -> Option<Value>, calls: seq<ToolCall>)
      returns (failure: Option<Error>)
      modifies chatModel
      ensures chatModel.messages == old(chatModel.messages) + DispatchFrom(reg, parse, calls, 0).replies
      ensures failure == DispatchFrom(reg, parse, calls, 0).failure
    {
      ghost var goal := DispatchFrom(reg, parse, calls, 0);
      ghost var before := chatModel.messages;
      for i := 0 to |calls|
        invariant before + goal.replies == chatModel.messages + DispatchFrom(reg, parse, calls, i).replies
        invariant goal.failure == DispatchFrom(reg, parse, calls, i).failure
      {
        var m := DispatchCall(reg, parse, calls[i]);
        if m.Failure? {
          assert chatModel.messages + [] == chatModel.messages;
          return Some(m.error);
        }
        ghost var rest := DispatchFrom(reg, parse, calls, i + 1).replies;
        assert chatModel.messages + ([m.value] + rest) == (chatModel.messages + [m.value]) + rest;
        chatModel.messages := chatModel.messages + [m.value];
      }
      assert chatModel.messages + [] == chatModel.messages;
      return None;
    }

    /** `getCompletion(messages, this.tools)` followed by `messages.push`: a turn that
        arrives is appended at once. */
    method RequestTurn() returns (r: Result<Turn, Error>)
      modifies chatModel, chatModel.client
      ensures r == Complete(chatModel.client.script, |old(chatModel.client.sent)|)
      ensures chatModel.client.sent == old(chatModel.client.sent) + [Request(chatModel.modelName, old(chatModel.messages), tools)]
      ensures chatModel.messages == old(chatModel.messages) + (if r.Success? then [AssistantMsg(r.value)] else [])
    {
      r := chatModel.GetCompletion(chatModel.messages, tools);
      if r.Success? {
        chatModel.messages := chatModel.messages + [AssistantMsg(r.value)];
      } else {
        assert chatModel.messages + [] == chatModel.messages;
      }
    }

    /** The tool-calling loop over the chat model's own conversation, with `AVAILABLE_TOOLS`
        built from `ext` and `JSON.parse` given as `parse`. */
    method Invoke(parse: string -> Option<Value>, ext: ExternalTools) returns (r: Result<Value, Error>)
      modifies chatModel, chatModel.client
      ensures var o := Run(Env(Available(ext), parse, chatModel.client.script, chatModel.modelName, tools),
                           old(chatModel.client.sent), old(chatModel.messages));
        && chatModel.messages == o.conversation
        && chatModel.client.sent == o.sent
        && r == o.result
    {
      var client := chatModel.client;
      ghost var env := Env(Available(ext), parse, client.script, chatModel.modelName, tools);
      ghost var goal := Run(env, client.sent, chatModel.messages);

      var reply := RequestTurn();
      if reply.Failure? {
        return Failure(reply.error);
      }
      var aiMessage := reply.value;

      while aiMessage.toolCalls.Some?
        invariant |client.sent| <= |client.script|
        invariant Continue(env, client.sent, aiMessage, chatModel.messages) == goal
        decreases |client.script| - |client.sent|
      {
        var failure := AnswerCalls(Available(ext), parse, aiMessage.toolCalls.value);
        if failure.Some? {
          return Failure(failure.value);
        }
        reply := RequestTurn();
        if reply.Failure? {
          return Failure(reply.error);
        }
        aiMessage := reply.value;
      }
      return Success(OutputOf(aiMessage));
    }
  }
}
