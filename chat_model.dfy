/** `ChatModelNode`: owns the conversation and performs single round trips. */
module ChatModel {
  import opened Wrappers
  import opened Errors
  import opened Values
  import opened Messages
  import opened Provider

  /** The constructor's options; `None` is a property left `undefined`. */
  datatype ChatModelOptions = ChatModelOptions(
    modelName: Option<string>,
    provider: Option<string>,
    systemMessage: Option<string>,
    userMessage: Option<string>)

  const DefaultModelName: string := "gpt-4o-mini"

  /** What `invoke` returns when the `k`-th request is answered from `script`. */
  function ChatResult(script: seq<Response>, k: nat): Result<Value, Error> {
    match Complete(script, k)
    case Success(turn) => Success(OutputOf(turn))
    case Failure(e) => Failure(e)
  }

  class ChatModelNode {
    const modelName: string
    const client: Client
    var messages: seq<Message>

    /** Seeds the conversation with exactly a system and a user message. `network` is the
        script the new client's service will answer from. */
    constructor (options: ChatModelOptions, network: seq<Response>)
      ensures modelName == options.modelName.GetOr(DefaultModelName)
      ensures messages == [SystemMsg(options.systemMessage.GetOr("")), UserMsg(options.userMessage.GetOr(""))]
      ensures fresh(client) && client.script == network && client.sent == []
      ensures Correlated(messages)
    {
      client := new Client(network);
      modelName := options.modelName.GetOr(DefaultModelName);
      messages := [SystemMsg(options.systemMessage.GetOr("")), UserMsg(options.userMessage.GetOr(""))];
    }

    /** Sends `msgs` and the tool list; returns the first candidate's message. */
    method GetCompletion(msgs: seq<Message>, tools: seq<ToolDefinition>) returns (r: Result<Turn, Error>)
      modifies client
      ensures client.sent == old(client.sent) + [Request(modelName, msgs, tools)]
      ensures r == Complete(client.script, |old(client.sent)|)
    {
      r := client.CreateCompletion(modelName, msgs, tools);
    }

    /** One round trip with no tools; the response is not added to the conversation. */
    method Invoke(data: Value) returns (r: Result<Value, Error>)
      modifies client
      ensures messages == old(messages)
      ensures client.sent == old(client.sent) + [Request(modelName, messages, [])]
      ensures r == ChatResult(client.script, |old(client.sent)|)
    {
      var reply := GetCompletion(messages, []);
      match reply
      case Success(turn) => r := Success(OutputOf(turn));
      case Failure(e) => r := Failure(e);
    }
  }
}
