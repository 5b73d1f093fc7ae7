# autoflow orchestration core in Dafny

This project models the orchestration layer of autoflow's `main.js`. That layer is:

- a workflow runner that takes a trigger node's output and threads it through a chain of nodes;
- a chat model node that owns a conversation and makes single round trips to a completion provider;
- an agent node that runs the tool-calling loop over that conversation;
- the `AVAILABLE_TOOLS` registry and the calculator tools.

The completion provider is modelled as a `Client` that answers its `n`-th request with the `n`-th entry of a finite script. Past the end of the script, or where an entry is `Unavailable`, it fails like an unreachable service. `JSON.parse` and the tools that touch the clock, the file system or `eval` are parameters.

Each loop in the source is a method with its invariants:

- `AgentNode.Invoke` is the `while` loop.
- `AgentNode.AnswerCalls` is the inner `for` loop over `tool_calls`.
- `Workflow.Run` is the `for await` loop.

These methods work in place on the chat model's `messages` and on the client's request log. The two agent methods are proved against specification functions:

- `Agent.Run` and `Agent.Continue` give the conversation, the request log and the result one invocation ends with.
- `Agent.DispatchFrom` gives one turn's tool replies.

The properties of the loop are then proved as lemmas about those functions, in `AgentProperties`.

`Workflow.Run` is proved against `Workflow.Invocation`, which gives what one node returns and the state it leaves, from the state it finds. The method's contract threads each node's result into the next node's input, gives the state each node that shares no object with another is left in, and says which nodes' states the run leaves alone.

Modules, one per file:

- `Wrappers`: `Option`, `Result`.
- `Errors`: the error kinds.
- `Values`: JavaScript values, property access and template-literal text.
- `Tools`: JavaScript `+` and `*`, the calculator, the registry and name resolution.
- `Messages`: tool calls, turns, messages and the correlation invariant.
- `Provider`: requests, responses and the scripted client.
- `ChatModel`: `ChatModelNode`.
- `Agent`: `AIAgentNode` and the loop's specification.
- `AgentProperties`: what the loop guarantees.
- `Workflow`: `TriggerNode`, the behaviour-free nodes and `Workflow`.
- `Scenario`: two concrete scripted runs.

Three behaviours of the code are easy to misread. The model follows the code in the first two; for the third it models the code as written and the intended rule side by side:

- **Empty `tool_calls`.** The loop tests the presence of `tool_calls`, not whether it is non-empty. A turn with an empty list is answered by nothing and requested again, because an empty array is truthy.
- **Missing `options`.** Arguments that parse but have no `options` field do not fail at parse time. `undefined` is passed to the tool, and destructuring it throws inside the tool. So for `add` and `mul` this is a `ToolExecutionError`, not an `ArgumentParseError`. Only text that does not parse, or that parses to `null`, gives `ArgumentParseError`.
- **Unregistered names.** A name that is not an own entry of the registry may still resolve through inheritance (see Findings). The as-written resolution is `Tools.PropertyLookup`. The loop uses the intended rule, under which such a name is an `UnknownToolError`.

## Model

| member | source | states |
|---|---|---|
| Values.NatToString | main.js:169 | the decimal text of a natural number is non-empty and all digits |
| Values.NatToStringRoundTrip | main.js:169 | reading the decimal text of `n` back gives `n` |
| Values.NumToStringRoundTrip | main.js:169 | the text `${result}` of an integer result reads back as that integer, sign included |
| Tools.Add | main.js:65-67 | throws exactly when `options` is `undefined` or `null`, or when an operand present is an object with its own `toString` key (or an array holding one), as `a + b` then does; two numbers give their sum; two strings give their concatenation; a missing operand gives NaN when the other operand is missing too or is not text-like |
| Tools.Mul | main.js:62-64 | throws exactly when `options` is `undefined` or `null`, or when an operand present cannot be converted, as `a * b` then does; two numbers give their product; a missing operand gives NaN |
| Tools.DeclaredVersusRegistered | main.js:217-334 | against the registry `AVAILABLE_TOOLS` as built at main.js:89-97: of the tool names declared to the provider only `askDatabase` is unregistered; `text2sql` and `serpAPI` are registered but never declared |
| Tools.PropertyLookup | main.js:164 | property access agrees with own-entry resolution (`Tools.Lookup`) on every registered name and every name that is not inherited; on an inherited name the registry does not hold (`toString`, `toLocaleString`, `valueOf`) it resolves a method where own-entry resolution finds none |
| Tools.InheritedNameResolves | main.js:164 | `toString` is not registered, own-property lookup misses it, and property access resolves it to a method returning "[object Object]" |
| Messages.AssistantsAppend | main.js:158 | the assistant turns of a concatenation are those of each part, in order |
| Provider.Client.CreateCompletion | main.js:129-137 | the request is logged with its model, messages and tools, and is answered by the script entry at its position in the log: the entry's first candidate when it has one, `EmptyChoices` when it has none, `ProviderError` when the service is unavailable or the script has run out |
| ChatModel.ChatModelNode.constructor | main.js:112-127 | model name defaulting to "gpt-4o-mini"; the conversation is exactly system then user message, each defaulting to empty text; a new client with an empty log |
| ChatModel.ChatModelNode.GetCompletion | main.js:129-137 | one request with this model, the given messages and tools is logged and answered from the script |
| ChatModel.ChatModelNode.Invoke | main.js:139-144 | the conversation is unchanged; one request with no tools is logged; the result is `{output: content}` of the first candidate, exactly an object with the one key `output` holding the content or `null`, or the round trip's error |
| Agent.DispatchCall | main.js:161-171 | a successful call yields a tool message carrying the call's id and name |
| Agent.DispatchCallCases | main.js:161-171 | a call succeeds exactly when its arguments parse to a value with readable `options`, the name is an own entry of the registry, the tool returns, and its result has a text; that text is the reply's content; otherwise the error is `ArgumentParseError`, `UnknownToolError`, `ToolExecutionError` or `ReplyTextError`, in that order of checking |
| Agent.DispatchFromShape | main.js:161-171 | the replies answer a prefix of the calls, one each and in order; the prefix is all of them, or it ends right before the first call that fails |
| Agent.AgentNode.AnswerCalls | main.js:161-171 | the conversation grows by exactly `DispatchFrom`'s replies and the returned failure is `DispatchFrom`'s |
| Agent.AgentNode.RequestTurn | main.js:157-158 | one request carrying the current conversation and the tool list is logged; a turn that arrives is appended at once, and a failure appends nothing |
| Agent.AgentNode.constructor | main.js:148-152 | the agent keeps the given chat model and tool list |
| Agent.AgentNode.Invoke | main.js:154-180 | the loop leaves the conversation, the request log and the result exactly as `Run` specifies for the state it started from |
| AgentProperties.ContinueGrows | main.js:157-175 | from any point of the loop the conversation and the log only grow; every new request carries the model, the tool list and the conversation exactly as it stood when it was sent: the turn it is answered with is appended right after that conversation, and a failed request is the last one, after which nothing is appended; each new request carries more messages than the one before it |
| AgentProperties.ContinueExtends | main.js:157-175 | from any point of the loop the conversation and the request log only grow, and at most one request is sent past the script's length (the growth part of `ContinueGrows`, stated apart so that the other proofs need not reason about request contents) |
| AgentProperties.RequestLog | main.js:154-180 | append-only: earlier messages and requests stay; the first request carries the conversation as it was; every request carries the conversation as it stood when it was sent, and its answer is appended right after it; each request carries more messages than the one before it; at most one request past the script's length |
| AgentProperties.RepliesAnswerCalls | main.js:161-171 | reply `j` has `tool_call_id` and `name` of call `j` and the text of the registered tool's result; all calls are answered exactly when none fails; otherwise the first unanswered call is the one that failed; no reply is an assistant turn |
| AgentProperties.RepliesAreToolMsgs | main.js:166-171 | every reply is a tool message |
| AgentProperties.ContinueTurns | main.js:160-175 | from any point of the loop the appended assistant turns are the script's answers in order; requests equal turns received, plus one if the provider failed; on success requests equal the turns that carried tool calls |
| AgentProperties.TurnsAndRounds | main.js:157-179 | over a whole invocation the `i`-th appended assistant turn is the answer to the `i`-th request; on success the number of round trips is 1 plus the number of tool-calling turns |
| AgentProperties.ContinueExit | main.js:160-179 | from any point of the loop: success exactly when the last message is then an assistant turn without `tool_calls`, returning its `{output: content}` |
| AgentProperties.LoopExit | main.js:157-179 | an invocation succeeds exactly when it appended something and its last message is an assistant turn without `tool_calls`, and then it returns `{output: content}` of that turn: an object whose only key `output` holds the content or `null` |
| AgentProperties.ContinueOrder | main.js:160-175 | from any point of the loop every assistant turn with tool calls is directly followed by its replies, then by the next assistant turn or the end |
| AgentProperties.TurnAnswered | main.js:161-174 | one step of the loop keeps that ordering from the new turn back to the previous one |
| AgentProperties.ToolReplyOrder | main.js:160-175 | tool-result ordering: after each appended assistant turn with tool calls come exactly its replies, before the next assistant turn |
| AgentProperties.CorrelatedAfterReplies | main.js:166-171 | appending one turn's replies keeps every tool message answering an earlier requested call |
| AgentProperties.CorrelatedAfterTurn | main.js:158 | appending an assistant turn keeps that correlation |
| AgentProperties.ContinueCorrelated | main.js:160-175 | from any point of the loop the correlation is kept |
| AgentProperties.CorrelationPreserved | main.js:154-180 | if every tool message answered an earlier call before an invocation, the same holds after it |
| AgentProperties.FirstFailure | main.js:161-165 | when call `j` is the first failing call, the replies are exactly `j` long and the failure is that call's error |
| AgentProperties.FailingCallStops | main.js:161-165 | the first failing call ends the invocation: replies to the earlier calls stay, nothing for it or later calls, no further request, its error is the result |
| AgentProperties.InheritedNameDispatch | main.js:164 | dispatching `toString` as written appends "[object Object]"; with own-property resolution it fails as an unknown tool |
| Workflow.InvokeNode | main.js:209-211 | the `invoke` each call site reaches: the trigger returns `{type: 'manual'}` (main.js:104-108) and a behaviour-free node its fixed value, both changing nothing; a chat model node returns `ChatModelNode.Invoke`'s result, logs exactly one request carrying its conversation and no tools, and keeps its conversation; an agent node returns `Agent.Run`'s result and is left with `Agent.Run`'s conversation and request log; nodes that share no object with it keep their state |
| Workflow.Workflow.constructor | main.js:203-206 | the workflow keeps its trigger and its node list |
| Workflow.Workflow.Run | main.js:208-214 | the trigger runs first on `undefined` and each node's input is the previous node's output; each result is what that node returns from the state it found, and a node sharing no object with an earlier one found its initial state; all results before the last succeed, the run returns the last, and it succeeds only after every node ran; each node that ran and shares no object with another that ran is left in the state its own invocation gives; nodes that did not run and share no object with those that did keep their state |
| Scenario.AddScenario | main.js:154-180 | one `add` call, then an answer: the conversation has 5 messages, the tool reply is "5", two round trips, output `{output: "Result is 5"}` |
| Scenario.AddCallAnswered | main.js:161-170 | the `add` call with options `{a: 2, b: 3}` is answered with a tool message whose content is "5" |
| Scenario.AskCallUnknown | main.js:164 | a call naming `askDatabase`, declared to the provider but not registered, fails with `UnknownToolError("askDatabase")` |
| Scenario.AskDispatch | main.js:161-165 | dispatching `add`, `askDatabase`, `add` yields one reply and stops with `UnknownToolError("askDatabase")` |
| Scenario.UnknownToolScenario | main.js:161-165 | a turn calling `add`, `askDatabase`, `add`: one reply, then the invocation fails with `UnknownToolError("askDatabase")` after a single request |
| Scenario.RunAddScenario | main.js:112-180 | the add scenario on a chat model built from its options and an agent over it: the seed stays first, the tool reply is "5", the output is "Result is 5" |

## Left out

- Database seeding (main.js:9-45) is one-shot SQLite I/O whose errors are only logged; it is not part of this model.
- The OpenAI client and the network are replaced by the scripted `Client`. A response's other fields, and messages being sent as shared objects, are not modelled.
- `getCurrentTime`, `jsREPL` and `readFile` touch the clock, `eval` and the file system. They enter as the parameters in `ExternalTools`, and their effects (a thrown error or a value) are whatever the parameter says.
- `JSON.parse` enters as a parameter `parse`, where `None` is a syntax error.
- Numbers are integers: there is no floating point, no overflow to `Infinity` and no exponent form in the text of large numbers.
- Tools.Mul: a string or array operand is taken as NaN. JavaScript would convert numeric text (`"3" * 2` is 6, `[3] * 2` is 6).
- Values.Property: only the property names the layer reads are modelled. `length` and indices on strings and arrays are not.
- Tools.PropertyLookup: only the inherited methods whose result's text is "[object Object]" (`toString`, `toLocaleString`, `valueOf`) are modelled. The other inherited members, such as `hasOwnProperty`, `isPrototypeOf`, `propertyIsEnumerable` and `constructor`, are not.
- `tool_calls` entries without a `function` member, and `arguments` that are not text, are not modelled. Calls always carry an id, a name and argument text.
- ChatModel.ChatModelNode.constructor: options are always given. `new ChatModelNode()` throws in JavaScript. A property set to `null` is not modelled, since JavaScript defaults replace only `undefined`. The `provider` option is accepted and ignored, as in the source.
- The tool schema literal (main.js:217-334) is reduced to its tool names.
- The behaviour-free node classes (main.js:100-102, 183-200) are one `Inert` variant holding the value they return.
- `async`/`await` scheduling is not modelled. Every step in the source is awaited in order, so the model is sequential.
- Workflow.Workflow.Run: the state a node finds is pinned to its initial state only for a node that shares no object with an earlier node. Where two nodes share a chat model, the later one finds whatever the earlier one left; the contract gives its result and the state it leaves as a function of that state, but does not compose the two effects into the final state.
- Agent.AgentNode.Invoke: tool names are resolved against the registry's own entries (`Tools.Lookup`), where main.js:164 uses property access, which also reaches inherited methods such as `toString`. The as-written resolution is modelled beside it (see Findings).
- Values.ConversionThrows: the only conversions modelled as throwing are an object with its own `toString` key and an array holding one. A getter, a `Symbol.toPrimitive` or a `valueOf` that throws are not modelled.
- There is no iteration cap on the loop, as in the source. Termination comes from the finite script: a script that is used up answers with `ProviderError`.

## Findings

| source | as written | input that shows it | evidently intended | confidence | as-written member | corrected member |
|---|---|---|---|---|---|---|
| main.js:164 | `AVAILABLE_TOOLS[toolFn.name]` resolves names from the object prototype as well as registered tools | a tool call named `toString` with arguments `{"options":{}}` calls `Object.prototype.toString` and appends a tool message "[object Object]" | a name that is not a registered tool fails the invocation as an unknown tool | medium, not executed | Tools.PropertyLookup, AgentProperties.InheritedNameDispatch | Agent.DispatchCallCases, Agent.AgentNode.Invoke |
