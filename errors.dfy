/** The ways a node invocation can fail. Nothing in the orchestration layer catches
    an exception, so each of these aborts the agent invocation and the workflow run. */
module Errors {

  datatype Error =
    | ProviderError                    // the completion request itself failed
    | EmptyChoices                     // the response had no candidate, so `choices[0].message` throws
    | ArgumentParseError(callId: string) // `JSON.parse` threw, or it produced `null` and `.options` threw
    | UnknownToolError(name: string)   // the registry has no such tool, so calling `undefined` throws
    | ToolExecutionError(name: string) // the resolved tool threw
    | ReplyTextError(name: string)     // the tool's result has no text: `${result}` threw
}
