/** The finish-reason vocabulary translation shared by the unary and streaming paths. */
module StopReasons {

  /** The Anthropic stop reasons the proxy can produce. */
  predicate IsStopReason(r: string) {
    r == "end_turn" || r == "tool_use" || r == "max_tokens" || r == "stop_sequence"
  }

  /** `stop_reason_map.get(finish_reason, "end_turn")`. Each non-default
      Anthropic reason comes from exactly one OpenAI finish reason, so a
      client can tell from `tool_use` that the model asked for tools. */
  function StopReasonFor(finishReason: string): (r: string)
    ensures IsStopReason(r)
    ensures r == "tool_use" <==> finishReason == "tool_calls"
    ensures r == "max_tokens" <==> finishReason == "length"
    ensures r == "stop_sequence" <==> finishReason == "content_filter"
    ensures r == "end_turn" <==> finishReason !in {"tool_calls", "length", "content_filter"}
  {
    match finishReason
    case "stop" => "end_turn"
    case "tool_calls" => "tool_use"
    case "length" => "max_tokens"
    case "content_filter" => "stop_sequence"
    case _ => "end_turn"
  }
}
