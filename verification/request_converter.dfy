/** The outbound request: model mapping, message and tool conversion, and
    which optional fields are written. */
module RequestConverter {
  import opened Wrappers
  import opened Json
  import opened Anthropic
  import opened OpenAI
  import opened ToolsConverter
  import opened MessagesConverter

  /** The deployment used for a model the mapping does not list. */
  const DefaultDeployment: string := "gpt-4o-mini"

  /** `config.model_mapping.get(model, "gpt-4o-mini")`: a lookup that never fails. */
  function DeploymentFor(mapping: map<string, string>, model: string): (deployment: string)
    ensures model in mapping ==> deployment == mapping[model]
    ensures model !in mapping ==> deployment == DefaultDeployment
    ensures deployment in mapping.Values || deployment == DefaultDeployment
  {
    if model in mapping then mapping[model] else DefaultDeployment
  }

  function ConvertTools(tools: seq<ToolDeclaration>): (defs: seq<ToolDefinition>)
    ensures |defs| == |tools|
    ensures forall k :: 0 <= k < |tools| ==> defs[k] == ToolToFunction(tools[k])
  {
    seq(|tools|, k requires 0 <= k < |tools| => ToolToFunction(tools[k]))
  }

  /** `convert_anthropic_to_azure_request`. Model, messages, max_tokens and stream
      are always written; temperature and top_p when given; tools (with
      `tool_choice: "auto"`) and stop only when the lists are non-empty. */
  function ConvertRequest(request: MessagesRequest, mapping: map<string, string>, dumps: Encoder)
    : (out: ChatCompletionRequest)
    ensures out.model == DeploymentFor(mapping, request.model)
    ensures out.messages == ConvertMessages(request.messages, request.system, dumps)
    ensures out.maxTokens == request.maxTokens && out.stream == request.stream
    ensures out.temperature.Some? <==> request.temperature.Some?
    ensures out.temperature.Some? ==> out.temperature.value == request.temperature.value
    ensures out.topP.Some? <==> request.topP.Some?
    ensures out.topP.Some? ==> out.topP.value == request.topP.value
    ensures out.tools.Some? <==> request.tools.Some? && |request.tools.value| > 0
    ensures out.tools.Some? ==>
              && |out.tools.value| == |request.tools.value|
              && forall k :: 0 <= k < |out.tools.value| ==>
                   out.tools.value[k] == ToolToFunction(request.tools.value[k])
    ensures out.toolChoice.Some? <==> out.tools.Some?
    ensures out.toolChoice.Some? ==> out.toolChoice.value == "auto"
    ensures out.stop.Some? <==> request.stopSequences.Some? && |request.stopSequences.value| > 0
    ensures out.stop.Some? ==> out.stop.value == request.stopSequences.value
  {
    var tools :=
      if request.tools.Some? && |request.tools.value| > 0 then Some(ConvertTools(request.tools.value)) else None;
    ChatCompletionRequest(
      DeploymentFor(mapping, request.model),
      ConvertMessages(request.messages, request.system, dumps),
      request.maxTokens,
      request.stream,
      request.temperature,
      request.topP,
      tools,
      if tools.Some? then Some("auto") else None,
      if request.stopSequences.Some? && |request.stopSequences.value| > 0 then request.stopSequences else None)
  }

  /** Each declared tool reaches OpenAI under its own name, in declaration order. */
  lemma ToolNamesPreserved(request: MessagesRequest, mapping: map<string, string>, dumps: Encoder)
    requires request.tools.Some? && |request.tools.value| > 0
    ensures var out := ConvertRequest(request, mapping, dumps);
            out.tools.Some?
            && forall k :: 0 <= k < |request.tools.value| ==>
                 out.tools.value[k].definition.name == request.tools.value[k].name
  {
  }

  /** An unmapped model goes to the default deployment. */
  lemma UnmappedModelUsesDefault(request: MessagesRequest, dumps: Encoder)
    ensures ConvertRequest(request, map["claude-opus-4-5-20251101" := "gpt-4o"], dumps).model ==
              if request.model == "claude-opus-4-5-20251101" then "gpt-4o" else DefaultDeployment
  {
  }
}
