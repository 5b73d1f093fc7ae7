/** The completion provider, replaced by a finite script of responses. The `n`-th
    request a client sends is answered by the `n`-th response of its script. */
module Provider {
  import opened Wrappers
  import opened Errors
  import opened Messages

  /** A tool schema entry; only the name matters to the orchestration layer. */
  datatype ToolDefinition = ToolDefinition(name: string)

  /** The body of `chat.completions.create`. */
  datatype Request = Request(model: string, messages: seq<Message>, tools: seq<ToolDefinition>)

  /** What the service answers: candidate turns, or nothing at all. */
  datatype Response = Completion(choices: seq<Turn>) | Unavailable

  /** The message of the first candidate of the `k`-th response; a script that has run
      out answers like an unavailable service. */
  function Complete(script: seq<Response>, k: nat): Result<Turn, Error> {
    if k >= |script| then Failure(ProviderError)
    else match script[k]
      case Unavailable => Failure(ProviderError)
      case Completion(choices) => if |choices| == 0 then Failure(EmptyChoices) else Success(choices[0])
  }

  /** The OpenAI client: it records every request it sends. */
  class Client {
    const script: seq<Response>
    var sent: seq<Request>

    constructor (script: seq<Response>)
      ensures this.script == script && sent == []
    {
      this.script := script;
      sent := [];
    }

    method CreateCompletion(model: string, messages: seq<Message>, tools: seq<ToolDefinition>)
      returns (r: Result<Turn, Error>)
      modifies this
      ensures sent == old(sent) + [Request(model, messages, tools)]
      ensures r == Complete(script, |old(sent)|)
    {
      r := Complete(script, |sent|);
      sent := sent + [Request(model, messages, tools)];
    }
  }
}
