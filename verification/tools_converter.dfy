/** Tool declarations and tool calls between the two formats, including the
    tool-id namespaces: Anthropic ids carry `toolu_`, OpenAI ids carry `call_`. */
module ToolsConverter {
  import opened Wrappers
  import opened Strings
  import opened Json
  import opened Anthropic
  import opened OpenAI

  const AnthropicIdPrefix: string := "toolu_"
  const OpenAIIdPrefix: string := "call_"

  // ---------------------------------------------------------------------------
  // Id namespaces: a first-occurrence substitution, anywhere in the id
  // ---------------------------------------------------------------------------

  /** OpenAI call id to Anthropic tool_use id: the first `call_` becomes `toolu_`. */
  function ToToolUseId(id: string): (r: string)
    ensures StartsWith(id, OpenAIIdPrefix) ==> r == AnthropicIdPrefix + id[|OpenAIIdPrefix|..]
    ensures (forall i :: !OccursAt(id, OpenAIIdPrefix, i)) ==> r == id
    ensures forall i :: IsFirstOccurrence(id, OpenAIIdPrefix, i) ==>
              r == id[..i] + AnthropicIdPrefix + id[i + |OpenAIIdPrefix|..]
  {
    ReplaceFirstAtFront(id, OpenAIIdPrefix, AnthropicIdPrefix);
    ReplaceFirst(id, OpenAIIdPrefix, AnthropicIdPrefix)
  }

  /** Anthropic tool_use id to OpenAI call id: the first `toolu_` becomes `call_`. */
  function ToCallId(id: string): (r: string)
    ensures StartsWith(id, AnthropicIdPrefix) ==> r == OpenAIIdPrefix + id[|AnthropicIdPrefix|..]
    ensures (forall i :: !OccursAt(id, AnthropicIdPrefix, i)) ==> r == id
    ensures forall i :: IsFirstOccurrence(id, AnthropicIdPrefix, i) ==>
              r == id[..i] + OpenAIIdPrefix + id[i + |AnthropicIdPrefix|..]
  {
    ReplaceFirstAtFront(id, AnthropicIdPrefix, OpenAIIdPrefix);
    ReplaceFirst(id, AnthropicIdPrefix, OpenAIIdPrefix)
  }

  /** An OpenAI id sent back to OpenAI after a trip through Anthropic's namespace is unchanged. */
  lemma CallIdRoundTrip(id: string)
    requires StartsWith(id, OpenAIIdPrefix)
    ensures ToCallId(ToToolUseId(id)) == id
  {
    var u := ToToolUseId(id);
    assert StartsWith(u, AnthropicIdPrefix) by {
      assert u[..|AnthropicIdPrefix|] == AnthropicIdPrefix;
    }
    assert u[|AnthropicIdPrefix|..] == id[|OpenAIIdPrefix|..];
    assert OpenAIIdPrefix + id[|OpenAIIdPrefix|..] == id[..|OpenAIIdPrefix|] + id[|OpenAIIdPrefix|..];
  }

  /** Symmetrically, an Anthropic id survives the trip through OpenAI's namespace. */
  lemma ToolUseIdRoundTrip(id: string)
    requires StartsWith(id, AnthropicIdPrefix)
    ensures ToToolUseId(ToCallId(id)) == id
  {
    var c := ToCallId(id);
    assert StartsWith(c, OpenAIIdPrefix) by {
      assert c[..|OpenAIIdPrefix|] == OpenAIIdPrefix;
    }
    assert c[|OpenAIIdPrefix|..] == id[|AnthropicIdPrefix|..];
    assert AnthropicIdPrefix + id[|AnthropicIdPrefix|..] == id[..|AnthropicIdPrefix|] + id[|AnthropicIdPrefix|..];
  }

  /** Because the substitution matches anywhere, the round trip fails for an id
      in which `toolu_` occurs before the first `call_`. */
  lemma RoundTripNeedsLeadingPrefix()
    ensures ToCallId(ToToolUseId("xtoolu_call_")) == "xcall_toolu_"
  {
    ExampleCallOccurrence();
    assert "xtoolu_call_"[..7] + AnthropicIdPrefix + "xtoolu_call_"[12..] == "xtoolu_toolu_";
    ExampleToolUseOccurrence();
    assert "xtoolu_toolu_"[..1] + OpenAIIdPrefix + "xtoolu_toolu_"[7..] == "xcall_toolu_";
  }

  lemma ExampleCallOccurrence()
    ensures IsFirstOccurrence("xtoolu_call_", OpenAIIdPrefix, 7)
  {
    var s := "xtoolu_call_";
    assert s[7..12] == OpenAIIdPrefix;
    forall j | 0 <= j < 7 ensures !OccursAt(s, OpenAIIdPrefix, j) {
      assert s[j] != 'c';
    }
  }

  lemma ExampleToolUseOccurrence()
    ensures IsFirstOccurrence("xtoolu_toolu_", AnthropicIdPrefix, 1)
  {
    var s := "xtoolu_toolu_";
    assert s[1..7] == AnthropicIdPrefix;
    assert s[0] != 't';
  }

  // ---------------------------------------------------------------------------
  // Declarations: Anthropic tool to OpenAI function definition
  // ---------------------------------------------------------------------------

  /** Wraps a declaration in the function envelope; a missing description
      becomes "" and a missing input schema becomes `{}`. */
  function ToolToFunction(tool: ToolDeclaration): (def: ToolDefinition)
    ensures def.kind == "function"
    ensures def.definition.name == tool.name
    ensures tool.description.None? ==> def.definition.description == ""
    ensures tool.description.Some? ==> def.definition.description == tool.description.value
    ensures tool.inputSchema.None? ==> def.definition.parameters == EmptyObject
    ensures tool.inputSchema.Some? ==> def.definition.parameters == tool.inputSchema.value
  {
    ToolDefinition("function", FunctionDefinition(
      tool.name, tool.description.ValueOr(""), tool.inputSchema.ValueOr(EmptyObject)))
  }

  /** Reads a function definition back as a declaration with every field present. */
  function FunctionToTool(def: ToolDefinition): ToolDeclaration {
    ToolDeclaration(def.definition.name, Some(def.definition.description), Some(def.definition.parameters))
  }

  /** Nothing in a complete declaration is lost by the conversion. */
  lemma ToolToFunctionLossless(tool: ToolDeclaration)
    requires tool.description.Some? && tool.inputSchema.Some?
    ensures FunctionToTool(ToolToFunction(tool)) == tool
  {
  }

  // ---------------------------------------------------------------------------
  // Calls: OpenAI tool call to Anthropic tool_use block
  // ---------------------------------------------------------------------------

  /** The decoded `arguments`; empty, null or undecodable text gives `{}`, never an error. */
  function DecodeArguments(arguments: Option<string>, loads: Decoder): (input: Json)
    ensures !Truthy(arguments) ==> input == EmptyObject
    ensures Truthy(arguments) && loads(arguments.value).None? ==> input == EmptyObject
    ensures Truthy(arguments) && loads(arguments.value).Some? ==> input == loads(arguments.value).value
  {
    if Truthy(arguments) then loads(arguments.value).ValueOr(EmptyObject) else EmptyObject
  }

  /** A tool call as a tool_use block carrying the same function name. */
  function ToolCallToToolUse(call: ResponseToolCall, loads: Decoder): (block: ContentBlock)
    ensures block.ToolUse?
    ensures block.id == ToToolUseId(call.id) && block.name == call.call.name
    ensures block.input == DecodeArguments(call.call.arguments, loads)
  {
    ToolUse(ToToolUseId(call.id), call.call.name, DecodeArguments(call.call.arguments, loads))
  }
}
