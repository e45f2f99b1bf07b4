/** The streaming re-framer: OpenAI `data:` lines in, Anthropic named SSE events
    out. A single pass whose state is the two flags `message_started` and
    `content_block_started`, the captured message id, and whether `[DONE]`
    has ended the loop. */
module StreamingConverter {
  import opened Wrappers
  import opened Strings
  import opened Json
  import opened OpenAI
  import opened StopReasons
  import opened ToolsConverter

  // ---------------------------------------------------------------------------
  // Input lines
  // ---------------------------------------------------------------------------

  /** An upstream line, classified the way the loop reads it. `Data(None)` is a
      frame whose JSON does not decode. */
  datatype Line =
    | Blank
    | Comment
    | Done
    | Data(chunk: Option<ChatCompletionChunk>)
    | NotData

  /** Decoding a frame's JSON text as a chunk; `None` for a JSONDecodeError. */
  type ChunkParser = string -> Option<ChatCompletionChunk>

  const DataPrefix: string := "data: "
  const DoneSentinel: string := "[DONE]"
  const MessageIdPrefix: string := "msg_"

  /** Blank and `:` lines are skipped, then a `data: ` line is the end sentinel
      (after stripping) or a frame; any other line is skipped. */
  function Classify(line: string, parse: ChunkParser): (l: Line)
    ensures l.Blank? <==> AllSpace(line)
    ensures l.Comment? <==> !AllSpace(line) && StartsWith(line, ":")
    ensures l.Done? || l.Data? <==> !AllSpace(line) && !StartsWith(line, ":") && StartsWith(line, DataPrefix)
    ensures l.Done? ==> Strip(line[|DataPrefix|..]) == DoneSentinel
    ensures l.Data? ==> Strip(line[|DataPrefix|..]) != DoneSentinel && l.chunk == parse(line[|DataPrefix|..])
  {
    StripEmptyIffAllSpace(line);
    if Strip(line) == [] then Blank
    else if StartsWith(line, ":") then Comment
    else if StartsWith(line, DataPrefix) then
      var payload := line[|DataPrefix|..];
      if Strip(payload) == DoneSentinel then Done else Data(parse(payload))
    else NotData
  }

  // ---------------------------------------------------------------------------
  // Output events; every block event is at index 0
  // ---------------------------------------------------------------------------

  datatype BlockStart = TextStart | ToolUseStart(id: string, name: string)

  datatype Event =
    | MessageStart(id: string, model: string)
    | ContentBlockStart(block: BlockStart)
    | ContentBlockDelta(text: string)
    | ContentBlockStop
    | MessageDelta(stopReason: string)
    | MessageStop

  // ---------------------------------------------------------------------------
  // The state machine
  // ---------------------------------------------------------------------------

  datatype State = State(messageStarted: bool, blockStarted: bool, messageId: Option<string>, finished: bool)

  const Initial: State := State(false, false, None, false)

  /** A non-empty text fragment: open a text block unless one is open, then the delta. */
  function TextEvents(blockOpen: bool, content: Option<string>): (events: seq<Event>)
    ensures !Truthy(content) ==> events == []
    ensures Truthy(content) ==> |events| >= 1 && events[|events| - 1] == ContentBlockDelta(content.value)
    ensures Truthy(content) && !blockOpen ==> events[0] == ContentBlockStart(TextStart)
    ensures |events| == (if Truthy(content) then (if blockOpen then 1 else 2) else 0)
  {
    if Truthy(content) then
      (if blockOpen then [] else [ContentBlockStart(TextStart)]) + [ContentBlockDelta(content.value)]
    else []
  }

  /** The index of the first tool-call fragment that carries a function name. */
  function FirstNamedCall(calls: seq<ToolCallDelta>): (r: Option<nat>)
    ensures r.Some? ==> r.value < |calls| && Truthy(calls[r.value].name)
    ensures r.Some? ==> forall j :: 0 <= j < r.value ==> !Truthy(calls[j].name)
    ensures r.None? ==> forall j :: 0 <= j < |calls| ==> !Truthy(calls[j].name)
  {
    if |calls| == 0 then None
    else if Truthy(calls[0].name) then Some(0)
    else
      match FirstNamedCall(calls[1..])
      case None => None
      case Some(k) => Some(k + 1)
  }

  /** With no block open, the first name-bearing fragment opens a tool_use block
      whose id is moved into Anthropic's namespace. Arguments are not streamed. */
  function ToolEvents(blockOpen: bool, calls: seq<ToolCallDelta>): (events: seq<Event>)
    ensures |events| <= 1
    ensures blockOpen ==> events == []
    ensures !blockOpen && FirstNamedCall(calls).Some? ==>
              var call := calls[FirstNamedCall(calls).value];
              events == [ContentBlockStart(ToolUseStart(ToToolUseId(call.id.ValueOr("")), call.name.value))]
    ensures FirstNamedCall(calls).None? ==> events == []
  {
    if blockOpen then []
    else
      match FirstNamedCall(calls)
      case None => []
      case Some(k) => [ContentBlockStart(ToolUseStart(ToToolUseId(calls[k].id.ValueOr("")), calls[k].name.value))]
  }

  /** A non-empty finish reason: close the block if the flag says one is open,
      then report the translated stop reason. */
  function FinishEvents(blockOpen: bool, finishReason: Option<string>): (events: seq<Event>)
    ensures !Truthy(finishReason) ==> events == []
    ensures Truthy(finishReason) ==>
              events == (if blockOpen then [ContentBlockStop] else []) + [MessageDelta(StopReasonFor(finishReason.value))]
  {
    if Truthy(finishReason) then
      (if blockOpen then [ContentBlockStop] else []) + [MessageDelta(StopReasonFor(finishReason.value))]
    else []
  }

  /** What `[DONE]` emits: a block stop if the flag is set, a final end_turn delta, and message_stop. */
  function DoneEvents(blockOpen: bool): (events: seq<Event>)
    ensures |events| == if blockOpen then 3 else 2
    ensures blockOpen ==> events[0] == ContentBlockStop
    ensures events[|events| - 2] == MessageDelta("end_turn") && events[|events| - 1] == MessageStop
  {
    (if blockOpen then [ContentBlockStop] else []) + [MessageDelta("end_turn"), MessageStop]
  }

  /** The id a chunk would give the message. */
  function MessageIdOf(chunk: ChatCompletionChunk): (id: string)
    ensures StartsWith(id, MessageIdPrefix) && id[|MessageIdPrefix|..] == chunk.id.ValueOr("unknown")
  {
    var id := MessageIdPrefix + chunk.id.ValueOr("unknown");
    assert id[..|MessageIdPrefix|] == MessageIdPrefix;
    id
  }

  /** One decoded frame. The id is captured from the first decoded frame even
      when it has no `choices[0]`; such a frame then emits nothing. With
      `closeAtFinish` the block flag is cleared at a finish reason; the Python
      re-framer never clears it, which is `closeAtFinish == false`. */
  function FrameStep(st: State, chunk: ChatCompletionChunk, closeAtFinish: bool): (result: (State, seq<Event>))
    ensures result.0.messageId == Some(st.messageId.ValueOr(MessageIdOf(chunk)))
    ensures result.0.finished == st.finished
    ensures |chunk.choices| == 0 ==>
              result.1 == [] && result.0.messageStarted == st.messageStarted && result.0.blockStarted == st.blockStarted
    ensures |chunk.choices| > 0 ==> result.0.messageStarted
    ensures |chunk.choices| > 0 && !st.messageStarted ==>
              |result.1| >= 1 && result.1[0] == MessageStart(result.0.messageId.value, chunk.model.ValueOr("unknown"))
  {
    var id := st.messageId.ValueOr(MessageIdOf(chunk));
    if |chunk.choices| == 0 then (st.(messageId := Some(id)), [])
    else
      var choice := chunk.choices[0];
      var start := if st.messageStarted then [] else [MessageStart(id, chunk.model.ValueOr("unknown"))];
      var text := TextEvents(st.blockStarted, choice.delta.content);
      var afterText := st.blockStarted || Truthy(choice.delta.content);
      var tool := ToolEvents(afterText, choice.delta.toolCalls);
      var afterTool := afterText || tool != [];
      var finish := FinishEvents(afterTool, choice.finishReason);
      var afterFinish := if closeAtFinish && Truthy(choice.finishReason) then false else afterTool;
      (st.(messageStarted := true, blockStarted := afterFinish, messageId := Some(id)),
       start + text + tool + finish)
  }

  /** One line of the loop, with or without the flag cleared at a finish reason. */
  function StepWith(st: State, line: Line, closeAtFinish: bool): (result: (State, seq<Event>))
    ensures st.finished ==> result == (st, [])
    ensures line.Blank? || line.Comment? || line.NotData? || line == Data(None) ==> result == (st, [])
    ensures !st.finished && line.Done? ==> result == (st.(finished := true), DoneEvents(st.blockStarted))
    ensures result.0.finished <==> st.finished || line.Done?
    ensures st.messageId.Some? ==> result.0.messageId == st.messageId
    ensures st.messageStarted ==> result.0.messageStarted
    ensures (st.blockStarted ==> st.messageStarted) ==> (result.0.blockStarted ==> result.0.messageStarted)
    ensures (st.messageStarted ==> st.messageId.Some?) ==> (result.0.messageStarted ==> result.0.messageId.Some?)
  {
    if st.finished then (st, [])
    else
      match line
      case Done => (st.(finished := true), DoneEvents(st.blockStarted))
      case Data(Some(chunk)) => FrameStep(st, chunk, closeAtFinish)
      case _ => (st, [])
  }

  /** One line of the loop in `convert_openai_stream_to_anthropic`. */
  function Step(st: State, line: Line): (result: (State, seq<Event>))
    ensures st.finished ==> result == (st, [])
    ensures line.Blank? || line.Comment? || line.NotData? || line == Data(None) ==> result == (st, [])
    ensures !st.finished && line.Done? ==>
              result == (st.(finished := true), DoneEvents(st.blockStarted))
    ensures st.messageId.Some? ==> result.0.messageId == st.messageId
    ensures st.messageStarted ==> result.0.messageStarted
    ensures st.blockStarted ==> result.0.blockStarted
  {
    StepWith(st, line, false)
  }

  /** The loop as a left fold over the lines: the final state and every event emitted. */
  function RunWith(lines: seq<Line>, closeAtFinish: bool): (result: (State, seq<Event>))
    ensures result.0.finished <==> Done in lines
    ensures result.0.blockStarted ==> result.0.messageStarted
    ensures result.0.messageStarted ==> result.0.messageId.Some?
  {
    if |lines| == 0 then (Initial, [])
    else
      var (st, out) := RunWith(lines[..|lines| - 1], closeAtFinish);
      var (st', events) := StepWith(st, lines[|lines| - 1], closeAtFinish);
      assert lines == lines[..|lines| - 1] + [lines[|lines| - 1]];
      (st', out + events)
  }

  /** The loop as the Python re-framer runs it: the block flag is never cleared. */
  function Run(lines: seq<Line>): (result: (State, seq<Event>))
    ensures result.0.finished <==> Done in lines
    ensures result.0.blockStarted ==> result.0.messageStarted
    ensures result.0.messageStarted ==> result.0.messageId.Some?
  {
    RunWith(lines, false)
  }

  // ---------------------------------------------------------------------------
  // Wire format: each event is two chunks, `event: <name>\n` and `data: <json>\n\n`
  // ---------------------------------------------------------------------------

  function EventName(e: Event): string {
    match e
    case MessageStart(_, _) => "message_start"
    case ContentBlockStart(_) => "content_block_start"
    case ContentBlockDelta(_) => "content_block_delta"
    case ContentBlockStop => "content_block_stop"
    case MessageDelta(_) => "message_delta"
    case MessageStop => "message_stop"
  }

  predicate IsBlockEvent(e: Event) {
    e.ContentBlockStart? || e.ContentBlockDelta? || e.ContentBlockStop?
  }

  /** The `message` object of message_start: an empty assistant message with
      zero usage. */
  function MessageObject(id: string, model: string): Json {
    JObject([
      ("id", JString(id)), ("type", JString("message")), ("role", JString("assistant")),
      ("content", JArray([])), ("model", JString(model)),
      ("usage", JObject([("input_tokens", JNumber(0)), ("output_tokens", JNumber(0))]))])
  }

  /** The JSON object written on an event's `data:` line. Its `type` is the
      event's name, and a block event names index 0. */
  function Payload(e: Event): (j: Json)
    ensures j.JObject? && |j.fields| >= 1 && j.fields[0] == ("type", JString(EventName(e)))
    ensures IsBlockEvent(e) ==> |j.fields| >= 2 && j.fields[1] == ("index", JNumber(0))
  {
    var kind := ("type", JString(EventName(e)));
    var index := ("index", JNumber(0));
    match e
    case MessageStart(id, model) =>
      JObject([kind, ("message", MessageObject(id, model))])
    case ContentBlockStart(TextStart) =>
      JObject([kind, index, ("content_block", JObject([("type", JString("text")), ("text", JString(""))]))])
    case ContentBlockStart(ToolUseStart(id, name)) =>
      JObject([kind, index, ("content_block", JObject([
        ("type", JString("tool_use")), ("id", JString(id)), ("name", JString(name))]))])
    case ContentBlockDelta(text) =>
      JObject([kind, index, ("delta", JObject([("type", JString("text_delta")), ("text", JString(text))]))])
    case ContentBlockStop =>
      JObject([kind, index])
    case MessageDelta(stopReason) =>
      JObject([kind, ("delta", JObject([("stop_reason", JString(stopReason))])),
               ("usage", JObject([("output_tokens", JNumber(0))]))])
    case MessageStop =>
      JObject([kind])
  }

  /** Reads an event back from a `data:` object: the `type` names the event,
      block events must name index 0, every usage count must be 0, and the
      remaining fields carry the event's values (message id and model, block
      kind, tool_use id and name, delta text, stop reason). Anything else is
      `None`. */
  function EventOf(j: Json): Option<Event> {
    var kind := GetString(j, "type");
    var atZero := Get(j, "index") == Some(JNumber(0));
    if kind == Some("message_start") then
      var m := Get(j, "message");
      if m.None? then None
      else
        var usage := Get(m.value, "usage");
        var id := GetString(m.value, "id");
        var model := GetString(m.value, "model");
        if && Get(m.value, "type") == Some(JString("message"))
           && Get(m.value, "role") == Some(JString("assistant"))
           && Get(m.value, "content") == Some(JArray([]))
           && usage.Some? && IsZeroCount(usage.value, "input_tokens") && IsZeroCount(usage.value, "output_tokens")
           && id.Some? && model.Some?
        then Some(MessageStart(id.value, model.value))
        else None
    else if kind == Some("content_block_start") then
      var block := Get(j, "content_block");
      if !atZero || block.None? then None
      else if GetString(block.value, "type") == Some("text") && Get(block.value, "text") == Some(JString("")) then
        Some(ContentBlockStart(TextStart))
      else if GetString(block.value, "type") == Some("tool_use") then
        var id := GetString(block.value, "id");
        var name := GetString(block.value, "name");
        if id.Some? && name.Some? then Some(ContentBlockStart(ToolUseStart(id.value, name.value))) else None
      else None
    else if kind == Some("content_block_delta") then
      var delta := Get(j, "delta");
      if !atZero || delta.None? || GetString(delta.value, "type") != Some("text_delta") then None
      else
        var text := GetString(delta.value, "text");
        if text.Some? then Some(ContentBlockDelta(text.value)) else None
    else if kind == Some("content_block_stop") then
      if atZero then Some(ContentBlockStop) else None
    else if kind == Some("message_delta") then
      var delta := Get(j, "delta");
      var usage := Get(j, "usage");
      if delta.None? || usage.None? || !IsZeroCount(usage.value, "output_tokens") then None
      else
        var reason := GetString(delta.value, "stop_reason");
        if reason.Some? then Some(MessageDelta(reason.value)) else None
    else if kind == Some("message_stop") then Some(MessageStop)
    else None
  }

  predicate IsZeroCount(usage: Json, key: string) {
    Get(usage, key) == Some(JNumber(0))
  }

  /** The `event:` chunk (`first`) or the `data:` chunk of an event. */
  function Chunk(e: Event, first: bool, dumps: Encoder): string {
    if first then "event: " + EventName(e) + "\n" else "data: " + dumps(Payload(e)) + "\n\n"
  }

  /** The chunks written for a sequence of events, two per event, in order. */
  function Render(events: seq<Event>, dumps: Encoder): (chunks: seq<string>)
    ensures |chunks| == 2 * |events|
    ensures forall k :: 0 <= k < |events| ==>
              && chunks[2 * k] == "event: " + EventName(events[k]) + "\n"
              && chunks[2 * k + 1] == "data: " + dumps(Payload(events[k])) + "\n\n"
  {
    if |events| == 0 then []
    else
      var last := events[|events| - 1];
      var front := Render(events[..|events| - 1], dumps);
      var chunks := front + [Chunk(last, true, dumps), Chunk(last, false, dumps)];
      assert forall k :: 0 <= k < |events| - 1 ==> events[..|events| - 1][k] == events[k];
      assert forall i :: 0 <= i < |front| ==> chunks[i] == front[i];
      chunks
  }

  /** `convert_openai_stream_to_anthropic` over a finite stream of lines. */
  function ConvertStream(lines: seq<string>, parse: ChunkParser, dumps: Encoder): (chunks: seq<string>)
    ensures |chunks| == 2 * |Run(ClassifyAll(lines, parse)).1|
  {
    Render(Run(ClassifyAll(lines, parse)).1, dumps)
  }

  function ClassifyAll(lines: seq<string>, parse: ChunkParser): seq<Line> {
    seq(|lines|, k requires 0 <= k < |lines| => Classify(lines[k], parse))
  }
}
