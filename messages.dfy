/** Chat messages and the conversation they make up. */
module Messages {
  import opened Wrappers
  import opened Values

  /** `{id, function: {name, arguments}}`; `arguments` is JSON text. */
  datatype ToolCall = ToolCall(id: string, name: string, arguments: string)

  /** An assistant turn as the provider returns it: `content` may be `null`, and
      `tool_calls` may be absent (`None`) or a list, possibly empty. */
  datatype Turn = Turn(content: Option<string>, toolCalls: Option<seq<ToolCall>>)

  datatype Message =
    | SystemMsg(content: string)
    | UserMsg(content: string)
    | AssistantMsg(turn: Turn)
    | ToolMsg(toolCallId: string, name: string, content: string)

  /** `{output: message.content}`. */
  function OutputOf(t: Turn): Value {
    Record("output", if t.content.Some? then Str(t.content.value) else Null)
  }

  /** The assistant turns of a conversation, in order. */
  function Assistants(s: seq<Message>): seq<Turn> {
    if s == [] then []
    else (if s[0].AssistantMsg? then [s[0].turn] else []) + Assistants(s[1..])
  }

  lemma {:induction false} AssistantsAppend(a: seq<Message>, b: seq<Message>)
    ensures Assistants(a + b) == Assistants(a) + Assistants(b)
    decreases |a|
  {
    if a != [] {
      assert (a + b)[1..] == a[1..] + b;
      AssistantsAppend(a[1..], b);
    } else {
      assert a + b == b;
    }
  }

  /** Does `m` request a tool call with this id and tool name? */
  predicate Requests(m: Message, id: string, name: string) {
    m.AssistantMsg? && m.turn.toolCalls.Some?
    && exists c :: c in m.turn.toolCalls.value && c.id == id && c.name == name
  }

  /** Every tool message answers a call requested by an earlier assistant message. */
  ghost predicate Correlated(conv: seq<Message>) {
    forall i :: 0 <= i < |conv| && conv[i].ToolMsg? ==>
      exists j :: 0 <= j < i && Requests(conv[j], conv[i].toolCallId, conv[i].name)
  }
}
