/** What the tool-calling loop guarantees, proved about the functions that specify it. */
module AgentProperties {
  import opened Wrappers
  import opened Errors
  import opened Values
  import opened Tools
  import opened Messages
  import opened Provider
  import opened Agent

  /** Request `i` of the outcome carries exactly the conversation the turn answering it is
      appended to: when the script answers it, that turn comes right after the messages
      sent; when it does not, the request is the last one and nothing came after it. */
  ghost predicate RequestAnswered(env: Env, o: Outcome, i: nat)
    requires i < |o.sent|
  {
    var k := |o.sent[i].messages|;
    match Complete(env.script, i)
    case Success(t) => k < |o.conversation| && o.conversation[k] == AssistantMsg(t)
    case Failure(_) => k == |o.conversation| && i == |o.sent| - 1
  }

  /** Every request sent during an invocation carries the model name, the tool list and
      a conversation that lies between the starting one and the final one, namely the
      conversation its answer is appended to; each request carries more messages than
      the one before it. */
  ghost predicate RequestsBetween(env: Env, sent: seq<Request>, conv: seq<Message>, o: Outcome) {
    && (forall i :: |sent| <= i < |o.sent| ==>
          && o.sent[i].model == env.model
          && o.sent[i].tools == env.tools
          && conv <= o.sent[i].messages <= o.conversation
          && RequestAnswered(env, o, i))
    && (forall i, j :: |sent| <= i < j < |o.sent| ==> |o.sent[i].messages| < |o.sent[j].messages|)
  }

  lemma {:induction false} ContinueGrows(env: Env, sent: seq<Request>, turn: Turn, conv: seq<Message>)
    requires |sent| <= |env.script|
    ensures var o := Continue(env, sent, turn, conv);
      && sent <= o.sent && |o.sent| <= |env.script| + 1
      && conv <= o.conversation
      && RequestsBetween(env, sent, conv, o)
    decreases |env.script| - |sent|
  {
    var o := Continue(env, sent, turn, conv);
    if turn.toolCalls.Some? {
      var d := DispatchFrom(env.reg, env.parse, turn.toolCalls.value, 0);
      if d.failure.None? {
        var sent' := sent + [Request(env.model, conv + d.replies, env.tools)];
        var c := Complete(env.script, |sent|);
        if c.Success? {
          var conv' := conv + d.replies + [AssistantMsg(c.value)];
          ContinueGrows(env, sent', c.value, conv');
          assert conv <= conv + d.replies <= conv';
          assert o.sent[|sent|] == sent'[|sent|];
          forall j | |sent'| <= j < |o.sent|
            ensures |conv + d.replies| < |o.sent[j].messages|
          {
            assert conv' <= o.sent[j].messages;
          }
        }
      }
    }
  }

  /** From any point of the loop the conversation and the request log only grow. This is
      the part of `ContinueGrows` most proofs need; stated apart, it keeps the request
      contents out of those proofs, which are costly enough already. */
  lemma ContinueExtends(env: Env, sent: seq<Request>, turn: Turn, conv: seq<Message>)
    requires |sent| <= |env.script|
    ensures var o := Continue(env, sent, turn, conv);
      sent <= o.sent && |o.sent| <= |env.script| + 1 && conv <= o.conversation
  {
    ContinueGrows(env, sent, turn, conv);
  }

  /** The conversation and the request log only grow: what was there before an
      invocation stays, its first request carries the conversation as it was, and
      with a finite script it sends at most one request more than the script answers. */
  lemma RequestLog(env: Env, sent: seq<Request>, conv: seq<Message>)
    ensures var o := Run(env, sent, conv);
      && sent < o.sent && o.sent[|sent|] == Request(env.model, conv, env.tools)
      && (|o.sent| <= |env.script| + 1 || |o.sent| == |sent| + 1)
      && conv <= o.conversation
      && RequestsBetween(env, sent, conv, o)
  {
    var sent' := sent + [Request(env.model, conv, env.tools)];
    var c := Complete(env.script, |sent|);
    if c.Success? {
      ContinueGrows(env, sent', c.value, conv + [AssistantMsg(c.value)]);
    }
  }

  // ---------------------------------------------------------------------------
  // The replies to one turn's tool calls.

  lemma {:induction false} NoAssistants(s: seq<Message>)
    requires forall i :: 0 <= i < |s| ==> s[i].ToolMsg?
    ensures Assistants(s) == []
    decreases |s|
  {
    if s != [] {
      NoAssistants(s[1..]);
    }
  }

  /** Reply `j` answers call `j`: same id, same tool name, and the text of the tool's
      result. All calls are answered unless one fails; that one and those after it are not. */
  lemma RepliesAnswerCalls(reg: Registry, parse: string -> Option<Value>, calls: seq<ToolCall>)
    ensures var d := DispatchFrom(reg, parse, calls, 0);
      && |d.replies| <= |calls|
      && (forall j :: 0 <= j < |d.replies| ==>
            && calls[j].name in reg
            && CallOptions(parse, calls[j]).Some?
            && reg[calls[j].name](CallOptions(parse, calls[j]).value).Some?
            && !ConversionThrows(reg[calls[j].name](CallOptions(parse, calls[j]).value).value)
            && d.replies[j] == ToolMsg(calls[j].id, calls[j].name,
                                       ToString(reg[calls[j].name](CallOptions(parse, calls[j]).value).value)))
      && (d.failure.None? <==> |d.replies| == |calls|)
      && (d.failure.Some? ==> DispatchCall(reg, parse, calls[|d.replies|]) == Failure(d.failure.value))
      && Assistants(d.replies) == []
  {
    DispatchFromShape(reg, parse, calls, 0);
    var d := DispatchFrom(reg, parse, calls, 0);
    RepliesAreToolMsgs(reg, parse, calls);
    forall j | 0 <= j < |d.replies|
      ensures && calls[j].name in reg
              && CallOptions(parse, calls[j]).Some?
              && reg[calls[j].name](CallOptions(parse, calls[j]).value).Some?
              && !ConversionThrows(reg[calls[j].name](CallOptions(parse, calls[j]).value).value)
              && d.replies[j] == ToolMsg(calls[j].id, calls[j].name,
                                         ToString(reg[calls[j].name](CallOptions(parse, calls[j]).value).value))
    {
      assert calls[0 + j] == calls[j];
      assert DispatchCall(reg, parse, calls[j]) == Success(d.replies[j]);
    }
  }

  lemma RepliesAreToolMsgs(reg: Registry, parse: string -> Option<Value>, calls: seq<ToolCall>)
    ensures var d := DispatchFrom(reg, parse, calls, 0);
      && (forall j :: 0 <= j < |d.replies| ==> d.replies[j].ToolMsg?)
      && Assistants(d.replies) == []
  {
    DispatchFromShape(reg, parse, calls, 0);
    var d := DispatchFrom(reg, parse, calls, 0);
    forall j | 0 <= j < |d.replies| ensures d.replies[j].ToolMsg? {
      assert DispatchCall(reg, parse, calls[0 + j]) == Success(d.replies[j]);
    }
    NoAssistants(d.replies);
  }

  // ---------------------------------------------------------------------------
  // Turns, round trips and the loop exit.

  /** The invocation failed because a request failed, not because a tool call did. */
  predicate RequestFailed(r: Result<Value, Error>) {
    r.Failure? && (r.error.ProviderError? || r.error.EmptyChoices?)
  }

  /** How many of the turns carry `tool_calls`. */
  function CallingTurns(ts: seq<Turn>): (n: nat)
    ensures n <= |ts|
  {
    if ts == [] then 0 else (if ts[0].toolCalls.Some? then 1 else 0) + CallingTurns(ts[1..])
  }

  /** The facts `ContinueTurns` states, for one outcome. */
  ghost predicate TurnsMatch(env: Env, sent: seq<Request>, turn: Turn, conv: seq<Message>, o: Outcome) {
    && conv <= o.conversation
    && var a := Assistants(o.conversation[|conv|..]);
    && |a| + (if RequestFailed(o.result) then 1 else 0) == |o.sent| - |sent|
    && (forall i :: 0 <= i < |a| ==> Complete(env.script, |sent| + i) == Success(a[i]))
    && (o.result.Success? ==> |o.sent| - |sent| == CallingTurns([turn] + a))
  }

  lemma AssistantsAfterReplies(conv: seq<Message>, replies: seq<Message>, next: Turn, c: seq<Message>)
    requires Assistants(replies) == []
    requires conv + replies + [AssistantMsg(next)] <= c
    ensures conv <= c
    ensures Assistants(c[|conv|..]) == [next] + Assistants(c[|conv + replies + [AssistantMsg(next)]|..])
  {
    var conv' := conv + replies + [AssistantMsg(next)];
    assert c == conv' + c[|conv'|..];
    assert c[|conv|..] == replies + [AssistantMsg(next)] + c[|conv'|..];
    AssistantsAppend(replies + [AssistantMsg(next)], c[|conv'|..]);
    AssistantsAppend(replies, [AssistantMsg(next)]);
  }

  /** The step of `ContinueTurns` where the replies are appended and the next turn arrives. */
  lemma TurnsAdvance(env: Env, sent: seq<Request>, turn: Turn, conv: seq<Message>,
                     replies: seq<Message>, next: Turn, o: Outcome)
    requires Assistants(replies) == [] && turn.toolCalls.Some?
    requires Complete(env.script, |sent|) == Success(next)
    requires TurnsMatch(env, sent + [Request(env.model, conv + replies, env.tools)], next,
                        conv + replies + [AssistantMsg(next)], o)
    ensures TurnsMatch(env, sent, turn, conv, o)
  {
    var sent' := sent + [Request(env.model, conv + replies, env.tools)];
    var conv' := conv + replies + [AssistantMsg(next)];
    var a' := Assistants(o.conversation[|conv'|..]);
    AssistantsAfterReplies(conv, replies, next, o.conversation);
    var a := Assistants(o.conversation[|conv|..]);
    forall i | 0 <= i < |a| ensures Complete(env.script, |sent| + i) == Success(a[i]) {
      if i > 0 {
        assert Complete(env.script, |sent'| + (i - 1)) == Success(a'[i - 1]);
      }
    }
    assert ([turn] + a)[1..] == [next] + a';
  }

  /** The appended assistant turns are the script's answers, in order; one request is sent
      per turn received, plus the one that failed if the provider failed; on success one
      request is sent per turn that carries tool calls (`turn` included). */
  lemma {:induction false} ContinueTurns(env: Env, sent: seq<Request>, turn: Turn, conv: seq<Message>)
    requires |sent| <= |env.script|
    ensures TurnsMatch(env, sent, turn, conv, Continue(env, sent, turn, conv))
    decreases |env.script| - |sent|
  {
    ContinueExtends(env, sent, turn, conv);
    var o := Continue(env, sent, turn, conv);
    if turn.toolCalls.None? {
      assert o.conversation[|conv|..] == [];
      assert [turn] + [] == [turn];
    } else {
      var calls := turn.toolCalls.value;
      var d := DispatchFrom(env.reg, env.parse, calls, 0);
      RepliesAreToolMsgs(env.reg, env.parse, calls);
      if d.failure.Some? {
        assert o.conversation[|conv|..] == d.replies;
        DispatchFromShape(env.reg, env.parse, calls, 0);
        assert DispatchCall(env.reg, env.parse, calls[0 + |d.replies|]).Failure?;
      } else {
        var c := Complete(env.script, |sent|);
        if c.Failure? {
          assert o.conversation[|conv|..] == d.replies;
        } else {
          var sent' := sent + [Request(env.model, conv + d.replies, env.tools)];
          ContinueTurns(env, sent', c.value, conv + d.replies + [AssistantMsg(c.value)]);
          TurnsAdvance(env, sent, turn, conv, d.replies, c.value, o);
        }
      }
    }
  }

  /** Requests and turns of a whole invocation: the `i`-th appended assistant turn is the
      answer to the `i`-th request; on success the invocation sent one request more than
      it received turns with tool calls. */
  lemma TurnsAndRounds(env: Env, sent: seq<Request>, conv: seq<Message>)
    ensures var o := Run(env, sent, conv);
      && conv <= o.conversation
      && var a := Assistants(o.conversation[|conv|..]);
      && |a| + (if RequestFailed(o.result) then 1 else 0) == |o.sent| - |sent|
      && (forall i :: 0 <= i < |a| ==> Complete(env.script, |sent| + i) == Success(a[i]))
      && (o.result.Success? ==> |o.sent| - |sent| == 1 + CallingTurns(a))
  {
    var o := Run(env, sent, conv);
    var c := Complete(env.script, |sent|);
    if c.Failure? {
      assert o.conversation[|conv|..] == [];
    } else {
      var sent' := sent + [Request(env.model, conv, env.tools)];
      var conv' := conv + [AssistantMsg(c.value)];
      ContinueTurns(env, sent', c.value, conv');
      var a' := Assistants(o.conversation[|conv'|..]);
      assert o.conversation[|conv|..] == [AssistantMsg(c.value)] + o.conversation[|conv'|..];
      AssistantsAppend([AssistantMsg(c.value)], o.conversation[|conv'|..]);
      var a := Assistants(o.conversation[|conv|..]);
      assert a == [c.value] + a';
      forall i | 0 <= i < |a| ensures Complete(env.script, |sent| + i) == Success(a[i]) {
        if i > 0 {
          assert Complete(env.script, |sent'| + (i - 1)) == Success(a'[i - 1]);
        }
      }
    }
  }

  /** The loop from `turn` on, where `turn` is the last message so far, ends in success
      exactly when the last message is then an assistant turn without tool calls, and
      it returns that turn's content. */
  lemma {:induction false} ContinueExit(env: Env, sent: seq<Request>, turn: Turn, conv: seq<Message>)
    requires |sent| <= |env.script|
    requires |conv| > 0 && conv[|conv| - 1] == AssistantMsg(turn)
    ensures var o := Continue(env, sent, turn, conv);
      && |o.conversation| > 0
      && var last := o.conversation[|o.conversation| - 1];
      && (o.result.Success? <==> last.AssistantMsg? && last.turn.toolCalls.None?)
      && (o.result.Success? ==> o.result == Success(OutputOf(last.turn)))
    decreases |env.script| - |sent|
  {
    if turn.toolCalls.Some? {
      var calls := turn.toolCalls.value;
      var d := DispatchFrom(env.reg, env.parse, calls, 0);
      RepliesAreToolMsgs(env.reg, env.parse, calls);
      var c := Complete(env.script, |sent|);
      if d.failure.None? && c.Success? {
        var sent' := sent + [Request(env.model, conv + d.replies, env.tools)];
        ContinueExit(env, sent', c.value, conv + d.replies + [AssistantMsg(c.value)]);
      } else if d.replies != [] {
        assert (conv + d.replies)[|conv + d.replies| - 1] == d.replies[|d.replies| - 1];
      } else {
        assert conv + d.replies == conv;
      }
    }
  }

  /** The loop exits exactly when the latest assistant turn has no `tool_calls`, and the
      invocation then returns `{output: content}` of that turn. */
  lemma LoopExit(env: Env, sent: seq<Request>, conv: seq<Message>)
    ensures var o := Run(env, sent, conv);
      && (o.result.Success? <==>
            && |o.conversation| > |conv|
            && o.conversation[|o.conversation| - 1].AssistantMsg?
            && o.conversation[|o.conversation| - 1].turn.toolCalls.None?)
      && (o.result.Success? ==> o.result == Success(OutputOf(o.conversation[|o.conversation| - 1].turn)))
  {
    var c := Complete(env.script, |sent|);
    if c.Success? {
      var sent' := sent + [Request(env.model, conv, env.tools)];
      var conv' := conv + [AssistantMsg(c.value)];
      ContinueExit(env, sent', c.value, conv');
      ContinueExtends(env, sent', c.value, conv');
    }
  }

  // ---------------------------------------------------------------------------
  // Where the tool replies go.

  /** The assistant turn at `p` requests tool calls; the replies to them follow it
      directly, and after them comes the next assistant turn, or the conversation ends. */
  ghost predicate AnsweredAt(env: Env, c: seq<Message>, p: nat)
    requires p < |c| && c[p].AssistantMsg? && c[p].turn.toolCalls.Some?
  {
    var d := DispatchFrom(env.reg, env.parse, c[p].turn.toolCalls.value, 0);
    && p + 1 + |d.replies| <= |c|
    && c[p + 1 .. p + 1 + |d.replies|] == d.replies
    && (p + 1 + |d.replies| < |c| ==> d.failure.None? && c[p + 1 + |d.replies|].AssistantMsg?)
  }

  ghost predicate AllAnsweredFrom(env: Env, c: seq<Message>, from: int) {
    forall p: nat :: from <= p < |c| && c[p].AssistantMsg? && c[p].turn.toolCalls.Some? ==> AnsweredAt(env, c, p)
  }

  lemma {:induction false} ContinueOrder(env: Env, sent: seq<Request>, turn: Turn, conv: seq<Message>)
    requires |sent| <= |env.script|
    requires |conv| > 0 && conv[|conv| - 1] == AssistantMsg(turn)
    ensures AllAnsweredFrom(env, Continue(env, sent, turn, conv).conversation, |conv| - 1)
    decreases |env.script| - |sent|
  {
    var o := Continue(env, sent, turn, conv);
    ContinueExtends(env, sent, turn, conv);
    if turn.toolCalls.Some? {
      var calls := turn.toolCalls.value;
      var d := DispatchFrom(env.reg, env.parse, calls, 0);
      RepliesAreToolMsgs(env.reg, env.parse, calls);
      var c := Complete(env.script, |sent|);
      if d.failure.None? && c.Success? {
        var sent' := sent + [Request(env.model, conv + d.replies, env.tools)];
        var conv' := conv + d.replies + [AssistantMsg(c.value)];
        ContinueOrder(env, sent', c.value, conv');
        ContinueExtends(env, sent', c.value, conv');
        TurnAnswered(env, conv, turn, d, c.value, o.conversation);
      } else {
        assert o.conversation == conv + d.replies;
        RepliesEnd(env, conv, turn, d);
      }
    }
  }

  /** An invocation that stops after the replies to the last turn's calls. */
  lemma RepliesEnd(env: Env, conv: seq<Message>, turn: Turn, d: Dispatched)
    requires |conv| > 0 && conv[|conv| - 1] == AssistantMsg(turn) && turn.toolCalls.Some?
    requires d == DispatchFrom(env.reg, env.parse, turn.toolCalls.value, 0)
    requires forall j :: 0 <= j < |d.replies| ==> d.replies[j].ToolMsg?
    ensures AllAnsweredFrom(env, conv + d.replies, |conv| - 1)
  {
  }

  lemma TurnAnswered(env: Env, conv: seq<Message>, turn: Turn, d: Dispatched, next: Turn, c: seq<Message>)
    requires |conv| > 0 && conv[|conv| - 1] == AssistantMsg(turn) && turn.toolCalls.Some?
    requires d == DispatchFrom(env.reg, env.parse, turn.toolCalls.value, 0) && d.failure.None?
    requires forall j :: 0 <= j < |d.replies| ==> d.replies[j].ToolMsg?
    requires conv + d.replies + [AssistantMsg(next)] <= c
    requires AllAnsweredFrom(env, c, |conv + d.replies + [AssistantMsg(next)]| - 1)
    ensures AllAnsweredFrom(env, c, |conv| - 1)
  {
    var conv' := conv + d.replies + [AssistantMsg(next)];
    var p0 := |conv| - 1;
    assert AnsweredAt(env, c, p0) by {
      assert c[p0] == conv'[p0];
      assert c[p0 + 1 .. p0 + 1 + |d.replies|] == conv'[p0 + 1 .. p0 + 1 + |d.replies|] == d.replies;
      assert c[p0 + 1 + |d.replies|] == conv'[p0 + 1 + |d.replies|];
    }
    forall p: nat | p0 < p < |conv'| - 1
      ensures !c[p].AssistantMsg?
    {
      assert c[p] == conv'[p] == d.replies[p - |conv|];
    }
  }

  /** Tool-reply ordering: right after every assistant turn an invocation appends that
      requests tool calls come the replies to those calls (reply `j` for call `j`, see
      `RepliesAnswerCalls`), and then the next assistant turn or the end. */
  lemma ToolReplyOrder(env: Env, sent: seq<Request>, conv: seq<Message>)
    ensures AllAnsweredFrom(env, Run(env, sent, conv).conversation, |conv|)
  {
    var c := Complete(env.script, |sent|);
    if c.Success? {
      var sent' := sent + [Request(env.model, conv, env.tools)];
      ContinueOrder(env, sent', c.value, conv + [AssistantMsg(c.value)]);
    }
  }

  // ---------------------------------------------------------------------------
  // Tool messages answer requested calls.

  lemma CorrelatedAfterReplies(reg: Registry, parse: string -> Option<Value>, conv: seq<Message>, turn: Turn)
    requires Correlated(conv)
    requires |conv| > 0 && conv[|conv| - 1] == AssistantMsg(turn) && turn.toolCalls.Some?
    ensures Correlated(conv + DispatchFrom(reg, parse, turn.toolCalls.value, 0).replies)
  {
    var calls := turn.toolCalls.value;
    var d := DispatchFrom(reg, parse, calls, 0);
    RepliesAnswerCalls(reg, parse, calls);
    var c := conv + d.replies;
    forall i | 0 <= i < |c| && c[i].ToolMsg?
      ensures exists j :: 0 <= j < i && Requests(c[j], c[i].toolCallId, c[i].name)
    {
      if i < |conv| {
        var j :| 0 <= j < i && Requests(conv[j], conv[i].toolCallId, conv[i].name);
        assert c[j] == conv[j];
      } else {
        var call := calls[i - |conv|];
        assert c[i] == d.replies[i - |conv|];
        assert call in calls;
        assert Requests(c[|conv| - 1], c[i].toolCallId, c[i].name);
      }
    }
  }

  lemma CorrelatedAfterTurn(conv: seq<Message>, turn: Turn)
    requires Correlated(conv)
    ensures Correlated(conv + [AssistantMsg(turn)])
  {
    var c := conv + [AssistantMsg(turn)];
    forall i | 0 <= i < |c| && c[i].ToolMsg?
      ensures exists j :: 0 <= j < i && Requests(c[j], c[i].toolCallId, c[i].name)
    {
      var j :| 0 <= j < i && Requests(conv[j], conv[i].toolCallId, conv[i].name);
      assert c[j] == conv[j];
    }
  }

  lemma {:induction false} ContinueCorrelated(env: Env, sent: seq<Request>, turn: Turn, conv: seq<Message>)
    requires |sent| <= |env.script|
    requires Correlated(conv) && |conv| > 0 && conv[|conv| - 1] == AssistantMsg(turn)
    ensures Correlated(Continue(env, sent, turn, conv).conversation)
    decreases |env.script| - |sent|
  {
    if turn.toolCalls.Some? {
      var d := DispatchFrom(env.reg, env.parse, turn.toolCalls.value, 0);
      CorrelatedAfterReplies(env.reg, env.parse, conv, turn);
      var c := Complete(env.script, |sent|);
      if d.failure.None? && c.Success? {
        CorrelatedAfterTurn(conv + d.replies, c.value);
        var sent' := sent + [Request(env.model, conv + d.replies, env.tools)];
        ContinueCorrelated(env, sent', c.value, conv + d.replies + [AssistantMsg(c.value)]);
      }
    }
  }

  /** Every tool message an invocation appends answers a call that an earlier assistant
      turn requested, with the same id and tool name. */
  lemma CorrelationPreserved(env: Env, sent: seq<Request>, conv: seq<Message>)
    requires Correlated(conv)
    ensures Correlated(Run(env, sent, conv).conversation)
  {
    var c := Complete(env.script, |sent|);
    if c.Success? {
      CorrelatedAfterTurn(conv, c.value);
      var sent' := sent + [Request(env.model, conv, env.tools)];
      ContinueCorrelated(env, sent', c.value, conv + [AssistantMsg(c.value)]);
    }
  }

  // ---------------------------------------------------------------------------
  // A failing tool call ends the invocation.

  lemma {:induction false} FirstFailure(reg: Registry, parse: string -> Option<Value>, calls: seq<ToolCall>, i: nat, j: nat)
    requires i <= j < |calls|
    requires forall n :: i <= n < j ==> DispatchCall(reg, parse, calls[n]).Success?
    requires DispatchCall(reg, parse, calls[j]).Failure?
    ensures |DispatchFrom(reg, parse, calls, i).replies| == j - i
    ensures DispatchFrom(reg, parse, calls, i).failure == Some(DispatchCall(reg, parse, calls[j]).error)
    decreases j - i
  {
    if i < j {
      FirstFailure(reg, parse, calls, i + 1, j);
    }
  }

  /** When call `j` is the first of the turn's calls to fail (an unknown tool, arguments
      that do not parse, a tool that throws), the replies to the calls before it stay,
      nothing is appended for it or later calls, no further request is sent, and the
      invocation fails with that call's error. */
  lemma FailingCallStops(env: Env, sent: seq<Request>, turn: Turn, conv: seq<Message>, j: nat)
    requires |sent| <= |env.script|
    requires turn.toolCalls.Some? && j < |turn.toolCalls.value|
    requires forall i :: 0 <= i < j ==> DispatchCall(env.reg, env.parse, turn.toolCalls.value[i]).Success?
    requires DispatchCall(env.reg, env.parse, turn.toolCalls.value[j]).Failure?
    ensures var o := Continue(env, sent, turn, conv);
      && |o.conversation| == |conv| + j
      && conv <= o.conversation
      && (forall i :: 0 <= i < j ==>
            o.conversation[|conv| + i] == DispatchCall(env.reg, env.parse, turn.toolCalls.value[i]).value)
      && o.sent == sent
      && o.result == Failure(DispatchCall(env.reg, env.parse, turn.toolCalls.value[j]).error)
  {
    var calls := turn.toolCalls.value;
    var d := DispatchFrom(env.reg, env.parse, calls, 0);
    DispatchFromShape(env.reg, env.parse, calls, 0);
    FirstFailure(env.reg, env.parse, calls, 0, j);
    assert calls[0 + j] == calls[j];
    forall i | 0 <= i < j
      ensures (conv + d.replies)[|conv| + i] == DispatchCall(env.reg, env.parse, calls[i]).value
    {
      assert DispatchCall(env.reg, env.parse, calls[0 + i]) == Success(d.replies[i]);
    }
  }

  // ---------------------------------------------------------------------------
  // The finding about name resolution (see README).

  /** Asked to call `toString`, which is not a registered tool, the code as written finds
      the inherited method and appends a reply "[object Object]"; with own-property
      resolution the call fails as an unknown tool. */
  lemma InheritedNameDispatch(ext: ExternalTools, parse: string -> Option<Value>, call: ToolCall)
    requires call.name == "toString" && CallOptions(parse, call).Some?
    ensures DispatchResolved(PropertyLookup(Available(ext), call.name), parse, call)
            == Success(ToolMsg(call.id, "toString", "[object Object]"))
    ensures DispatchCall(Available(ext), parse, call) == Failure(UnknownToolError("toString"))
  {
    InheritedNameResolves(ext, "toString");
  }
}
