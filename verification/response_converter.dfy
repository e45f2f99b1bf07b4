/** One complete OpenAI chat completion to one Anthropic message. */
module ResponseConverter {
  import opened Wrappers
  import opened Strings
  import opened Json
  import opened Anthropic
  import opened OpenAI
  import opened StopReasons
  import opened ToolsConverter

  /** The two shape violations that abort the conversion: an empty `choices`
      list (an IndexError) and a missing `usage` (a KeyError). */
  datatype ShapeError = NoChoices | MissingUsage

  /** The tool calls of a message; `null` or missing reads as none. */
  function CallsOf(message: ResponseMessage): (calls: seq<ResponseToolCall>)
    ensures message.toolCalls.None? ==> calls == []
    ensures message.toolCalls.Some? ==> calls == message.toolCalls.value
  {
    message.toolCalls.ValueOr([])
  }

  /** A text block when the content is non-empty, then one tool_use block per tool call, in order. */
  function ContentOf(message: ResponseMessage, loads: Decoder): (content: seq<ContentBlock>)
    ensures var offset := if Truthy(message.content) then 1 else 0;
            && |content| == offset + |CallsOf(message)|
            && (Truthy(message.content) ==> content[0] == Text(message.content.value))
            && forall k :: 0 <= k < |CallsOf(message)| ==>
                 content[offset + k] == ToolCallToToolUse(CallsOf(message)[k], loads)
    ensures forall k :: 0 <= k < |content| ==> content[k].Text? || content[k].ToolUse?
  {
    var text := if Truthy(message.content) then [Text(message.content.value)] else [];
    var calls := CallsOf(message);
    text + seq(|calls|, k requires 0 <= k < |calls| => ToolCallToToolUse(calls[k], loads))
  }

  /** `convert_azure_to_anthropic_response`. Only the first choice is read;
      `originalRequestId` is accepted and ignored, as the Python function does. */
  function ConvertResponse(response: ChatCompletion, originalRequestId: Option<string>, loads: Decoder)
    : (r: Result<MessageResponse, ShapeError>)
    ensures |response.choices| == 0 ==> r == Failure(NoChoices)
    ensures |response.choices| > 0 && response.usage.None? ==> r == Failure(MissingUsage)
    ensures r.Success? <==> |response.choices| > 0 && response.usage.Some?
    ensures r.Success? ==>
              var m := r.value;
              && m.id == "msg_" + response.id
              && m.kind == "message" && m.role == "assistant"
              && m.content == ContentOf(response.choices[0].message, loads)
              && m.model == response.model.ValueOr("unknown")
              && IsStopReason(m.stopReason)
              && m.stopReason == StopReasonFor(response.choices[0].finishReason.ValueOr("stop"))
              && m.usage.inputTokens == response.usage.value.promptTokens
              && m.usage.outputTokens == response.usage.value.completionTokens
  {
    if |response.choices| == 0 then Failure(NoChoices)
    else
      var choice := response.choices[0];
      var content := ContentOf(choice.message, loads);
      var stopReason := StopReasonFor(choice.finishReason.ValueOr("stop"));
      match response.usage
      case None => Failure(MissingUsage)
      case Some(usage) =>
        Success(MessageResponse(
          "msg_" + response.id, "message", "assistant", content,
          response.model.ValueOr("unknown"), stopReason,
          Usage(usage.promptTokens, usage.completionTokens)))
  }

  /** Choices after the first never influence the result. */
  lemma OnlyFirstChoiceMatters(a: ChatCompletion, b: ChatCompletion, loads: Decoder)
    requires |a.choices| > 0 && |b.choices| > 0 && a.choices[0] == b.choices[0]
    requires a.id == b.id && a.model == b.model && a.usage == b.usage
    ensures ConvertResponse(a, None, loads) == ConvertResponse(b, None, loads)
  {
  }

  /** The original request id has no effect on the result. */
  lemma RequestIdIgnored(response: ChatCompletion, requestId: string, loads: Decoder)
    ensures ConvertResponse(response, Some(requestId), loads) == ConvertResponse(response, None, loads)
  {
  }

  /** A finish reason that is missing (or null) reads as a normal end of turn. */
  lemma MissingFinishReasonIsEndTurn(response: ChatCompletion, loads: Decoder)
    requires |response.choices| > 0 && response.usage.Some? && response.choices[0].finishReason.None?
    ensures ConvertResponse(response, None, loads).value.stopReason == "end_turn"
  {
  }

  /** A plain text answer: id prefixed, one text block, usage copied. */
  lemma PlainAnswerExample(loads: Decoder)
    ensures var response := ChatCompletion("abc", Some("gpt-4o"),
              [Choice(ResponseMessage(Some("Hi"), None), Some("stop"))], Some(CompletionUsage(10, 2)));
            ConvertResponse(response, None, loads) == Success(MessageResponse(
              "msg_abc", "message", "assistant", [Text("Hi")], "gpt-4o", "end_turn", Usage(10, 2)))
  {
    var message := ResponseMessage(Some("Hi"), None);
    assert Truthy(message.content);
    assert ContentOf(message, loads) == [Text("Hi")];
    assert StopReasonFor("stop") == "end_turn";
    assert "msg_" + "abc" == "msg_abc";
  }
}
