/** The Azure OpenAI chat-completions shapes the proxy sends and reads. */
module OpenAI {
  import opened Wrappers
  import opened Json

  datatype Role = System | User | Assistant | Tool

  /** A function invocation on an outbound message; `arguments` is JSON text. */
  datatype FunctionCall = FunctionCall(name: string, arguments: string)

  /** `kind` is the wire field `type`, always "function"; `call` is the wire field `function`. */
  datatype ToolCall = ToolCall(id: string, kind: string, call: FunctionCall)

  /** An outbound chat message. `None` in `toolCalls`/`toolCallId` means the key is
      not written; `None` in `content` is a JSON `null`. */
  datatype ChatMessage = ChatMessage(
    role: Role,
    content: Option<string>,
    toolCalls: Option<seq<ToolCall>>,
    toolCallId: Option<string>)

  /** `name` is `None` when the declaration had no name. */
  datatype FunctionDefinition = FunctionDefinition(name: Option<string>, description: string, parameters: Json)

  /** `definition` is the wire field `function`. */
  datatype ToolDefinition = ToolDefinition(kind: string, definition: FunctionDefinition)

  /** The outbound request; `None` in an optional field means the key is not written. */
  datatype ChatCompletionRequest = ChatCompletionRequest(
    model: string,
    messages: seq<ChatMessage>,
    maxTokens: int,
    stream: bool,
    temperature: Option<real>,
    topP: Option<real>,
    tools: Option<seq<ToolDefinition>>,
    toolChoice: Option<string>,
    stop: Option<seq<string>>)

  // ---------------------------------------------------------------------------
  // A complete (non-streaming) response, as far as the proxy reads it
  // ---------------------------------------------------------------------------

  /** `arguments` is `None` when it is JSON `null`. */
  datatype ResponseFunction = ResponseFunction(name: string, arguments: Option<string>)

  /** `call` is the wire field `function`. */
  datatype ResponseToolCall = ResponseToolCall(id: string, call: ResponseFunction)

  datatype ResponseMessage = ResponseMessage(content: Option<string>, toolCalls: Option<seq<ResponseToolCall>>)

  datatype Choice = Choice(message: ResponseMessage, finishReason: Option<string>)

  datatype CompletionUsage = CompletionUsage(promptTokens: int, completionTokens: int)

  /** `choices` may be empty and `usage` absent; the converter fails on both. */
  datatype ChatCompletion = ChatCompletion(
    id: string,
    model: Option<string>,
    choices: seq<Choice>,
    usage: Option<CompletionUsage>)

  // ---------------------------------------------------------------------------
  // One streamed chunk, as far as the proxy reads it
  // ---------------------------------------------------------------------------

  /** A tool-call fragment: `name` is that of `function.name`. */
  datatype ToolCallDelta = ToolCallDelta(id: Option<string>, name: Option<string>)

  /** A missing or null `tool_calls` is the empty sequence. */
  datatype Delta = Delta(content: Option<string>, toolCalls: seq<ToolCallDelta>)

  datatype StreamChoice = StreamChoice(delta: Delta, finishReason: Option<string>)

  /** A missing `choices` key is the empty sequence. */
  datatype ChatCompletionChunk = ChatCompletionChunk(id: Option<string>, model: Option<string>, choices: seq<StreamChoice>)
}
