/** The Anthropic Messages API shapes the proxy accepts and returns. */
module Anthropic {
  import opened Wrappers
  import opened Json

  /** The `content` of a tool_result block: a string, any other JSON value
      (normally a list of blocks), or no `content` key at all. A string content
      is always `ResultText`, so `ResultValue` never stands for a `JString`. */
  datatype ToolResultContent =
    | ResultText(text: string)
    | ResultValue(value: Json)
    | ResultAbsent

  /** One element of a message's block list. `Unrecognized` stands for an element
      that is not an object or whose `type` is none of the three the proxy reads. */
  datatype ContentBlock =
    | Text(text: string)
    | ToolUse(id: string, name: string, input: Json)
    | ToolResult(toolUseId: string, content: ToolResultContent)
    | Unrecognized

  /** A message's `content`: a string, a block list, or anything else (absent, null, ...). */
  datatype MessageContent =
    | PlainText(text: string)
    | Blocks(blocks: seq<ContentBlock>)
    | OtherContent

  /** A message as a dict; the role is read as a string since messages that are
      not validated as `AnthropicMessage` may carry any role. */
  datatype Message = Message(role: string, content: MessageContent)

  /** A tool declaration; each field may be missing from a dict declaration. */
  datatype ToolDeclaration = ToolDeclaration(name: Option<string>, description: Option<string>, inputSchema: Option<Json>)

  datatype MessagesRequest = MessagesRequest(
    model: string,
    messages: seq<Message>,
    maxTokens: int,
    system: Option<string>,
    temperature: Option<real>,
    topP: Option<real>,
    stream: bool,
    tools: Option<seq<ToolDeclaration>>,
    stopSequences: Option<seq<string>>)

  datatype Usage = Usage(inputTokens: int, outputTokens: int)

  /** `kind` is the wire field `type`. */
  datatype MessageResponse = MessageResponse(
    id: string,
    kind: string,
    role: string,
    content: seq<ContentBlock>,
    model: string,
    stopReason: string,
    usage: Usage)
}
