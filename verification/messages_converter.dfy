/** Anthropic messages (typed content blocks) to OpenAI chat messages (flat
    role/content, with `tool_calls` arrays and `role: tool` results). */
module MessagesConverter {
  import opened Wrappers
  import opened Strings
  import opened Json
  import opened Anthropic
  import opened OpenAI
  import opened ToolsConverter

  // ---------------------------------------------------------------------------
  // Partitioning a block list by tag, each group in its original order
  // ---------------------------------------------------------------------------

  function TextsOf(blocks: seq<ContentBlock>): (texts: seq<string>)
    ensures |texts| <= |blocks|
    ensures forall k :: 0 <= k < |texts| ==> Text(texts[k]) in blocks
  {
    if |blocks| == 0 then []
    else (if blocks[0].Text? then [blocks[0].text] else []) + TextsOf(blocks[1..])
  }

  function ToolUsesOf(blocks: seq<ContentBlock>): (uses: seq<ContentBlock>)
    ensures |uses| <= |blocks|
    ensures forall k :: 0 <= k < |uses| ==> uses[k].ToolUse? && uses[k] in blocks
  {
    if |blocks| == 0 then []
    else (if blocks[0].ToolUse? then [blocks[0]] else []) + ToolUsesOf(blocks[1..])
  }

  function ToolResultsOf(blocks: seq<ContentBlock>): (results: seq<ContentBlock>)
    ensures |results| <= |blocks|
    ensures forall k :: 0 <= k < |results| ==> results[k].ToolResult? && results[k] in blocks
  {
    if |blocks| == 0 then []
    else (if blocks[0].ToolResult? then [blocks[0]] else []) + ToolResultsOf(blocks[1..])
  }

  /** Each partition distributes over concatenation and keeps a one-block list
      exactly when the block has its tag: together, every block of the kind is
      collected, and in block order. */
  lemma {:induction false} TextsOfAppend(a: seq<ContentBlock>, b: seq<ContentBlock>)
    ensures TextsOf(a + b) == TextsOf(a) + TextsOf(b)
  {
    if |a| == 0 {
      assert a + b == b;
    } else {
      assert (a + b)[0] == a[0];
      assert (a + b)[1..] == a[1..] + b;
      TextsOfAppend(a[1..], b);
    }
  }

  lemma TextsOfSingle(block: ContentBlock)
    ensures TextsOf([block]) == if block.Text? then [block.text] else []
  {
    assert [block][1..] == [];
  }

  lemma {:induction false} ToolUsesOfAppend(a: seq<ContentBlock>, b: seq<ContentBlock>)
    ensures ToolUsesOf(a + b) == ToolUsesOf(a) + ToolUsesOf(b)
  {
    if |a| == 0 {
      assert a + b == b;
    } else {
      assert (a + b)[0] == a[0];
      assert (a + b)[1..] == a[1..] + b;
      ToolUsesOfAppend(a[1..], b);
    }
  }

  lemma ToolUsesOfSingle(block: ContentBlock)
    ensures ToolUsesOf([block]) == if block.ToolUse? then [block] else []
  {
    assert [block][1..] == [];
  }

  lemma {:induction false} ToolResultsOfAppend(a: seq<ContentBlock>, b: seq<ContentBlock>)
    ensures ToolResultsOf(a + b) == ToolResultsOf(a) + ToolResultsOf(b)
  {
    if |a| == 0 {
      assert a + b == b;
    } else {
      assert (a + b)[0] == a[0];
      assert (a + b)[1..] == a[1..] + b;
      ToolResultsOfAppend(a[1..], b);
    }
  }

  lemma ToolResultsOfSingle(block: ContentBlock)
    ensures ToolResultsOf([block]) == if block.ToolResult? then [block] else []
  {
    assert [block][1..] == [];
  }

  // ---------------------------------------------------------------------------
  // One block to its OpenAI counterpart
  // ---------------------------------------------------------------------------

  /** A tool_use block as an OpenAI tool call; the input travels as JSON text. */
  function ToolUseToCall(block: ContentBlock, dumps: Encoder): (call: ToolCall)
    requires block.ToolUse?
    ensures call.kind == "function"
    ensures call.id == ToCallId(block.id)
    ensures call.call == FunctionCall(block.name, dumps(block.input))
  {
    ToolCall(ToCallId(block.id), "function", FunctionCall(block.name, dumps(block.input)))
  }

  /** The text of a tool result: a string as-is, a missing one as "", anything else serialised. */
  function ResultText(content: ToolResultContent, dumps: Encoder): (text: string)
    ensures content.ResultText? ==> text == content.text
    ensures content.ResultAbsent? ==> text == ""
    ensures content.ResultValue? ==> text == dumps(content.value)
  {
    match content
    case ResultText(text) => text
    case ResultAbsent => ""
    case ResultValue(value) => dumps(value)
  }

  /** A tool_result block as a `role: tool` message answering the call it names. */
  function ToolResultToMessage(block: ContentBlock, dumps: Encoder): (message: ChatMessage)
    requires block.ToolResult?
    ensures message.role == Tool && message.toolCalls.None?
    ensures message.toolCallId == Some(ToCallId(block.toolUseId))
    ensures block.content.ResultText? ==> message.content == Some(block.content.text)
    ensures block.content.ResultAbsent? ==> message.content == Some("")
    ensures block.content.ResultValue? ==> message.content == Some(dumps(block.content.value))
  {
    ChatMessage(Tool, Some(ResultText(block.content, dumps)), None, Some(ToCallId(block.toolUseId)))
  }

  // ---------------------------------------------------------------------------
  // One message
  // ---------------------------------------------------------------------------

  predicate IsConversationRole(role: string) {
    role == "user" || role == "assistant"
  }

  function RoleOf(role: string): (r: Role)
    requires IsConversationRole(role)
    ensures r == User <==> role == "user"
    ensures r == Assistant <==> role == "assistant"
  {
    if role == "user" then User else Assistant
  }

  /** The space-joined text of the text blocks. */
  function JoinedText(blocks: seq<ContentBlock>): string {
    Join(TextsOf(blocks), " ")
  }

  /** The OpenAI messages one Anthropic message becomes: none, one, or one per
      tool result. The role decides which group of blocks is looked at first. */
  function ConvertMessage(m: Message, dumps: Encoder): (out: seq<ChatMessage>)
    ensures !IsConversationRole(m.role) || m.content.OtherContent? ==> out == []
    ensures IsConversationRole(m.role) && m.content.PlainText? ==>
              out == [ChatMessage(RoleOf(m.role), Some(m.content.text), None, None)]
    ensures IsConversationRole(m.role) && m.content.Blocks? ==>
              var uses := ToolUsesOf(m.content.blocks);
              var results := ToolResultsOf(m.content.blocks);
              var texts := TextsOf(m.content.blocks);
              if m.role == "assistant" && |uses| > 0 then
                && |out| == 1 && out[0].role == Assistant && out[0].toolCallId.None?
                && out[0].content == (if |texts| == 0 then None else Some(Join(texts, " ")))
                && out[0].toolCalls.Some? && |out[0].toolCalls.value| == |uses|
                && forall k :: 0 <= k < |uses| ==> out[0].toolCalls.value[k] == ToolUseToCall(uses[k], dumps)
              else if m.role == "user" && |results| > 0 then
                && |out| == |results|
                && forall k :: 0 <= k < |results| ==> out[k] == ToolResultToMessage(results[k], dumps)
              else if |texts| > 0 then
                out == [ChatMessage(RoleOf(m.role), Some(Join(texts, " ")), None, None)]
              else
                out == []
  {
    if !IsConversationRole(m.role) then []
    else
      match m.content
      case PlainText(text) => [ChatMessage(RoleOf(m.role), Some(text), None, None)]
      case OtherContent => []
      case Blocks(blocks) =>
        var uses := ToolUsesOf(blocks);
        var results := ToolResultsOf(blocks);
        var texts := TextsOf(blocks);
        if m.role == "assistant" && |uses| > 0 then
          var calls := seq(|uses|, k requires 0 <= k < |uses| => ToolUseToCall(uses[k], dumps));
          var content := if |texts| == 0 then None else Some(Join(texts, " "));
          [ChatMessage(Assistant, content, Some(calls), None)]
        else if m.role == "user" && |results| > 0 then
          seq(|results|, k requires 0 <= k < |results| => ToolResultToMessage(results[k], dumps))
        else if |texts| > 0 then
          [ChatMessage(RoleOf(m.role), Some(Join(texts, " ")), None, None)]
        else
          []
  }

  // ---------------------------------------------------------------------------
  // The whole conversation
  // ---------------------------------------------------------------------------

  /** The messages' conversions, concatenated in input order. Only the system
      prompt produces a system message, so none appears here. */
  function ConvertEach(messages: seq<Message>, dumps: Encoder): (out: seq<ChatMessage>)
    ensures |messages| == 0 ==> out == []
    ensures forall k :: 0 <= k < |out| ==> out[k].role != System
  {
    if |messages| == 0 then []
    else
      var head := ConvertMessage(messages[0], dumps);
      var tail := ConvertEach(messages[1..], dumps);
      ConvertMessageHasNoSystem(messages[0], dumps);
      AllAppend(head, tail, (m: ChatMessage) => m.role != System);
      head + tail
  }

  /** `anthropic_messages_to_openai`: a non-empty system prompt becomes a leading
      system message, then each message's conversion follows in input order. */
  function ConvertMessages(messages: seq<Message>, system: Option<string>, dumps: Encoder): (out: seq<ChatMessage>)
    ensures Truthy(system) ==>
              |out| >= 1 && out[0] == ChatMessage(System, system, None, None) && out[1..] == ConvertEach(messages, dumps)
    ensures !Truthy(system) ==> out == ConvertEach(messages, dumps)
  {
    var prefix := if Truthy(system) then [ChatMessage(System, system, None, None)] else [];
    prefix + ConvertEach(messages, dumps)
  }

  // ---------------------------------------------------------------------------
  // Properties of the conversion
  // ---------------------------------------------------------------------------

  /** Conversion distributes over concatenation: relative order is preserved and
      each message's outputs stay contiguous. */
  lemma {:induction false} ConvertEachAppend(a: seq<Message>, b: seq<Message>, dumps: Encoder)
    ensures ConvertEach(a + b, dumps) == ConvertEach(a, dumps) + ConvertEach(b, dumps)
  {
    if |a| == 0 {
      assert a + b == b;
    } else {
      assert (a + b)[0] == a[0];
      assert (a + b)[1..] == a[1..] + b;
      ConvertEachAppend(a[1..], b, dumps);
    }
  }

  /** A message whose content is a string comes out as one message with the same role and text. */
  lemma StringContentIdentity(messages: seq<Message>, k: nat, dumps: Encoder)
    requires k < |messages|
    requires IsConversationRole(messages[k].role) && messages[k].content.PlainText?
    ensures var out := ConvertEach(messages, dumps);
            var before := |ConvertEach(messages[..k], dumps)|;
            before < |out| && out[before] == ChatMessage(RoleOf(messages[k].role), Some(messages[k].content.text), None, None)
  {
    var m := messages[k];
    assert messages == messages[..k] + ([m] + messages[k + 1..]);
    ConvertEachAppend(messages[..k], [m] + messages[k + 1..], dumps);
    assert ([m] + messages[k + 1..])[1..] == messages[k + 1..];
    var single := ChatMessage(RoleOf(m.role), Some(m.content.text), None, None);
    assert ConvertEach([m] + messages[k + 1..], dumps) == [single] + ConvertEach(messages[k + 1..], dumps);
    var out := ConvertEach(messages, dumps);
    assert out == ConvertEach(messages[..k], dumps) + ([single] + ConvertEach(messages[k + 1..], dumps));
    assert out[|ConvertEach(messages[..k], dumps)|] == single;
  }

  /** A property of every message of two lists holds of every message of their concatenation. */
  lemma AllAppend(head: seq<ChatMessage>, tail: seq<ChatMessage>, P: ChatMessage -> bool)
    requires forall k :: 0 <= k < |head| ==> P(head[k])
    requires forall k :: 0 <= k < |tail| ==> P(tail[k])
    ensures forall k :: 0 <= k < |head + tail| ==> P((head + tail)[k])
  {
    forall k | 0 <= k < |head + tail| ensures P((head + tail)[k]) {
      if k >= |head| {
        assert (head + tail)[k] == tail[k - |head|];
      }
    }
  }

  lemma ConvertMessageHasNoSystem(m: Message, dumps: Encoder)
    ensures forall k :: 0 <= k < |ConvertMessage(m, dumps)| ==> ConvertMessage(m, dumps)[k].role != System
  {
  }

  /** The output holds a system message exactly when the system prompt is non-empty, and then it is first. */
  lemma SystemMessageIffPrompt(messages: seq<Message>, system: Option<string>, dumps: Encoder)
    ensures var out := ConvertMessages(messages, system, dumps);
            (exists k :: 0 <= k < |out| && out[k].role == System) <==> Truthy(system)
    ensures var out := ConvertMessages(messages, system, dumps);
            Truthy(system) ==> out[0].role == System && out[0].content == system
  {
    var out := ConvertMessages(messages, system, dumps);
    if Truthy(system) {
      assert out[0].role == System;
    } else {
      assert out == ConvertEach(messages, dumps);
    }
  }

  /** The shape OpenAI expects of a message: `tool_call_id` exactly on tool
      messages, `tool_calls` only on assistant messages and never empty, and
      a null content only beside tool calls. */
  predicate WellFormed(m: ChatMessage) {
    && (m.toolCallId.Some? <==> m.role == Tool)
    && (m.toolCalls.Some? ==> m.role == Assistant && |m.toolCalls.value| > 0)
    && (m.content.None? ==> m.toolCalls.Some?)
  }

  lemma ConvertMessageWellFormed(m: Message, dumps: Encoder)
    ensures forall k :: 0 <= k < |ConvertMessage(m, dumps)| ==> WellFormed(ConvertMessage(m, dumps)[k])
  {
  }

  lemma {:induction false} ConvertMessagesWellFormed(messages: seq<Message>, system: Option<string>, dumps: Encoder)
    ensures forall k :: 0 <= k < |ConvertMessages(messages, system, dumps)| ==> WellFormed(ConvertMessages(messages, system, dumps)[k])
  {
    ConvertEachWellFormed(messages, dumps);
  }

  lemma {:induction false} ConvertEachWellFormed(messages: seq<Message>, dumps: Encoder)
    ensures forall k :: 0 <= k < |ConvertEach(messages, dumps)| ==> WellFormed(ConvertEach(messages, dumps)[k])
  {
    if |messages| > 0 {
      ConvertMessageWellFormed(messages[0], dumps);
      ConvertEachWellFormed(messages[1..], dumps);
      var head := ConvertMessage(messages[0], dumps);
      var tail := ConvertEach(messages[1..], dumps);
      AllAppend(head, tail, WellFormed);
    }
  }

  // ---------------------------------------------------------------------------
  // Tool ids across the conversion
  // ---------------------------------------------------------------------------

  /** Every tool id in the message is in Anthropic's namespace. */
  predicate HasAnthropicIds(m: Message) {
    m.content.Blocks? ==>
      forall k :: 0 <= k < |m.content.blocks| ==>
        (m.content.blocks[k].ToolUse? ==> StartsWith(m.content.blocks[k].id, AnthropicIdPrefix))
        && (m.content.blocks[k].ToolResult? ==> StartsWith(m.content.blocks[k].toolUseId, AnthropicIdPrefix))
  }

  /** Every tool id in the message is in OpenAI's namespace. */
  predicate HasOpenAIIds(m: ChatMessage) {
    && (m.toolCallId.Some? ==> StartsWith(m.toolCallId.value, OpenAIIdPrefix))
    && (m.toolCalls.Some? ==> forall k :: 0 <= k < |m.toolCalls.value| ==> StartsWith(m.toolCalls.value[k].id, OpenAIIdPrefix))
  }

  lemma ToCallIdInOpenAINamespace(id: string)
    requires StartsWith(id, AnthropicIdPrefix)
    ensures StartsWith(ToCallId(id), OpenAIIdPrefix)
  {
    assert (OpenAIIdPrefix + id[|AnthropicIdPrefix|..])[..|OpenAIIdPrefix|] == OpenAIIdPrefix;
  }

  lemma ConvertMessageIds(m: Message, dumps: Encoder)
    requires HasAnthropicIds(m)
    ensures forall k :: 0 <= k < |ConvertMessage(m, dumps)| ==> HasOpenAIIds(ConvertMessage(m, dumps)[k])
  {
    var out := ConvertMessage(m, dumps);
    if IsConversationRole(m.role) && m.content.Blocks? {
      var blocks := m.content.blocks;
      var uses := ToolUsesOf(blocks);
      var results := ToolResultsOf(blocks);
      forall k | 0 <= k < |uses| ensures StartsWith(ToCallId(uses[k].id), OpenAIIdPrefix) {
        var j :| 0 <= j < |blocks| && blocks[j] == uses[k];
        ToCallIdInOpenAINamespace(uses[k].id);
      }
      forall k | 0 <= k < |results| ensures StartsWith(ToCallId(results[k].toolUseId), OpenAIIdPrefix) {
        var j :| 0 <= j < |blocks| && blocks[j] == results[k];
        ToCallIdInOpenAINamespace(results[k].toolUseId);
      }
    }
  }

  /** Anthropic tool ids in, OpenAI tool ids out, throughout the conversation. */
  lemma {:induction false} ConvertEachIds(messages: seq<Message>, dumps: Encoder)
    requires forall k :: 0 <= k < |messages| ==> HasAnthropicIds(messages[k])
    ensures forall k :: 0 <= k < |ConvertEach(messages, dumps)| ==> HasOpenAIIds(ConvertEach(messages, dumps)[k])
  {
    if |messages| > 0 {
      ConvertMessageIds(messages[0], dumps);
      ConvertEachIds(messages[1..], dumps);
      var head := ConvertMessage(messages[0], dumps);
      var tail := ConvertEach(messages[1..], dumps);
      AllAppend(head, tail, HasOpenAIIds);
    }
  }

  /** An OpenAI tool call as it comes back from OpenAI in a response. */
  function EchoedCall(call: ToolCall): ResponseToolCall {
    ResponseToolCall(call.id, ResponseFunction(call.call.name, Some(call.call.arguments)))
  }

  /** A tool_use sent to OpenAI as a tool call and read back from a response is
      the original block, when its id is in Anthropic's namespace and decoding
      undoes encoding on its input. */
  lemma ToolUseRoundTrip(block: ContentBlock, dumps: Encoder, loads: Decoder)
    requires block.ToolUse? && StartsWith(block.id, AnthropicIdPrefix)
    requires dumps(block.input) != "" && loads(dumps(block.input)) == Some(block.input)
    ensures ToolCallToToolUse(EchoedCall(ToolUseToCall(block, dumps)), loads) == block
  {
    ToolUseIdRoundTrip(block.id);
  }

  /** The joined text of a text-only reply splits back into its blocks' texts
      when none of them contains a space. */
  lemma JoinedTextSplitsBack(blocks: seq<ContentBlock>)
    requires |TextsOf(blocks)| > 0
    requires forall k :: 0 <= k < |TextsOf(blocks)| ==> ' ' !in TextsOf(blocks)[k]
    ensures Split(JoinedText(blocks), ' ') == TextsOf(blocks)
  {
    SplitJoin(TextsOf(blocks), ' ');
  }

  // ---------------------------------------------------------------------------
  // Block order is output order
  // ---------------------------------------------------------------------------

  /** The tool_result block at position `j` of a user message is answered by the
      tool message at the position counting the tool_result blocks before it. */
  lemma ToolMessageAnswersResult(m: Message, j: nat, dumps: Encoder)
    requires m.role == "user" && m.content.Blocks? && j < |m.content.blocks|
    requires m.content.blocks[j].ToolResult?
    ensures var k := |ToolResultsOf(m.content.blocks[..j])|;
            k < |ConvertMessage(m, dumps)| && ConvertMessage(m, dumps)[k] == ToolResultToMessage(m.content.blocks[j], dumps)
  {
    var blocks := m.content.blocks;
    assert blocks == blocks[..j] + [blocks[j]] + blocks[j + 1..];
    ToolResultsOfAppend(blocks[..j] + [blocks[j]], blocks[j + 1..]);
    ToolResultsOfAppend(blocks[..j], [blocks[j]]);
    ToolResultsOfSingle(blocks[j]);
    var k := |ToolResultsOf(blocks[..j])|;
    assert ToolResultsOf(blocks)[k] == blocks[j];
  }

  /** The tool_use block at position `j` of an assistant message becomes the
      tool call at the position counting the tool_use blocks before it. */
  lemma ToolCallFollowsUse(m: Message, j: nat, dumps: Encoder)
    requires m.role == "assistant" && m.content.Blocks? && j < |m.content.blocks|
    requires m.content.blocks[j].ToolUse?
    ensures var out := ConvertMessage(m, dumps);
            var k := |ToolUsesOf(m.content.blocks[..j])|;
            |out| == 1 && out[0].toolCalls.Some? && k < |out[0].toolCalls.value|
            && out[0].toolCalls.value[k] == ToolUseToCall(m.content.blocks[j], dumps)
  {
    var blocks := m.content.blocks;
    assert blocks == blocks[..j] + [blocks[j]] + blocks[j + 1..];
    ToolUsesOfAppend(blocks[..j] + [blocks[j]], blocks[j + 1..]);
    ToolUsesOfAppend(blocks[..j], [blocks[j]]);
    ToolUsesOfSingle(blocks[j]);
    var k := |ToolUsesOf(blocks[..j])|;
    assert ToolUsesOf(blocks)[k] == blocks[j];
  }

  /** The text of the text block at position `j` is the piece of the joined text
      at the position counting the text blocks before it. */
  lemma TextFollowsBlock(blocks: seq<ContentBlock>, j: nat)
    requires j < |blocks| && blocks[j].Text?
    ensures var k := |TextsOf(blocks[..j])|;
            k < |TextsOf(blocks)| && TextsOf(blocks)[k] == blocks[j].text
  {
    assert blocks == blocks[..j] + [blocks[j]] + blocks[j + 1..];
    TextsOfAppend(blocks[..j] + [blocks[j]], blocks[j + 1..]);
    TextsOfAppend(blocks[..j], [blocks[j]]);
    TextsOfSingle(blocks[j]);
  }
}
