/** What the streaming re-framer guarantees over a whole stream. */
module StreamingProperties {
  import opened Wrappers
  import opened Strings
  import opened Json
  import opened OpenAI
  import opened StopReasons
  import opened StreamingConverter

  // ---------------------------------------------------------------------------
  // Counting events by kind
  // ---------------------------------------------------------------------------

  datatype EventKind = KMessageStart | KBlockStart | KBlockDelta | KBlockStop | KMessageDelta | KMessageStop

  function KindOf(e: Event): EventKind {
    match e
    case MessageStart(_, _) => KMessageStart
    case ContentBlockStart(_) => KBlockStart
    case ContentBlockDelta(_) => KBlockDelta
    case ContentBlockStop => KBlockStop
    case MessageDelta(_) => KMessageDelta
    case MessageStop => KMessageStop
  }

  function Count(events: seq<Event>, kind: EventKind): nat {
    if |events| == 0 then 0
    else (if KindOf(events[0]) == kind then 1 else 0) + Count(events[1..], kind)
  }

  lemma {:induction false} CountAppend(a: seq<Event>, b: seq<Event>, kind: EventKind)
    ensures Count(a + b, kind) == Count(a, kind) + Count(b, kind)
  {
    if |a| == 0 {
      assert a + b == b;
    } else {
      assert (a + b)[1..] == a[1..] + b;
      CountAppend(a[1..], b, kind);
    }
  }

  lemma CountSingle(e: Event, kind: EventKind)
    ensures Count([e], kind) == (if KindOf(e) == kind then 1 else 0)
  {
    assert [e][1..] == [];
  }

  lemma CountPair(e: Event, f: Event, kind: EventKind)
    ensures Count([e, f], kind) == (if KindOf(e) == kind then 1 else 0) + (if KindOf(f) == kind then 1 else 0)
  {
    assert [e, f] == [e] + [f];
    CountAppend([e], [f], kind);
    CountSingle(e, kind);
    CountSingle(f, kind);
  }

  // ---------------------------------------------------------------------------
  // The invariant of the fold
  // ---------------------------------------------------------------------------

  /** What holds of the state and of everything emitted so far, after any prefix of the stream. */
  ghost predicate Inv(st: State, out: seq<Event>) {
    && (st.blockStarted ==> st.messageStarted)
    && (st.messageStarted ==> st.messageId.Some?)
    && Count(out, KMessageStart) == (if st.messageStarted then 1 else 0)
    && Count(out, KBlockStart) == (if st.blockStarted then 1 else 0)
    && (st.messageStarted ==> |out| > 0 && out[0].MessageStart? && out[0].id == st.messageId.value)
    && (!st.messageStarted ==> out == (if st.finished then DoneEvents(false) else []))
    && (st.finished ==> |out| >= 2 && out[|out| - 2] == MessageDelta("end_turn") && out[|out| - 1] == MessageStop)
  }

  lemma DoneEventsCounts(blockOpen: bool)
    ensures Count(DoneEvents(blockOpen), KMessageStart) == 0
    ensures Count(DoneEvents(blockOpen), KBlockStart) == 0
  {
    var tail := [MessageDelta("end_turn"), MessageStop];
    CountPair(MessageDelta("end_turn"), MessageStop, KMessageStart);
    CountPair(MessageDelta("end_turn"), MessageStop, KBlockStart);
    CountAppend(if blockOpen then [ContentBlockStop] else [], tail, KMessageStart);
    CountAppend(if blockOpen then [ContentBlockStop] else [], tail, KBlockStart);
  }

  lemma DonePreservesInv(st: State, out: seq<Event>)
    requires Inv(st, out) && !st.finished
    ensures Inv(st.(finished := true), out + DoneEvents(st.blockStarted))
  {
    var events := DoneEvents(st.blockStarted);
    DoneEventsCounts(st.blockStarted);
    CountAppend(out, events, KMessageStart);
    CountAppend(out, events, KBlockStart);
    if st.messageStarted {
      assert (out + events)[0] == out[0];
    }
  }

  lemma TextCounts(blockOpen: bool, content: Option<string>)
    ensures Count(TextEvents(blockOpen, content), KMessageStart) == 0
    ensures Count(TextEvents(blockOpen, content), KBlockStart) == (if !blockOpen && Truthy(content) then 1 else 0)
  {
    if Truthy(content) {
      var delta := ContentBlockDelta(content.value);
      if blockOpen {
        CountSingle(delta, KMessageStart);
        CountSingle(delta, KBlockStart);
      } else {
        CountPair(ContentBlockStart(TextStart), delta, KMessageStart);
        CountPair(ContentBlockStart(TextStart), delta, KBlockStart);
      }
    }
  }

  lemma ToolCounts(blockOpen: bool, calls: seq<ToolCallDelta>)
    ensures Count(ToolEvents(blockOpen, calls), KMessageStart) == 0
    ensures Count(ToolEvents(blockOpen, calls), KBlockStart) == |ToolEvents(blockOpen, calls)|
  {
    var tool := ToolEvents(blockOpen, calls);
    if tool != [] {
      assert tool == [tool[0]];
      CountSingle(tool[0], KMessageStart);
      CountSingle(tool[0], KBlockStart);
    }
  }

  lemma FinishCounts(blockOpen: bool, finishReason: Option<string>)
    ensures Count(FinishEvents(blockOpen, finishReason), KMessageStart) == 0
    ensures Count(FinishEvents(blockOpen, finishReason), KBlockStart) == 0
  {
    if Truthy(finishReason) {
      var reason := MessageDelta(StopReasonFor(finishReason.value));
      if blockOpen {
        CountPair(ContentBlockStop, reason, KMessageStart);
        CountPair(ContentBlockStop, reason, KBlockStart);
        assert [ContentBlockStop] + [reason] == [ContentBlockStop, reason];
      } else {
        CountSingle(reason, KMessageStart);
        CountSingle(reason, KBlockStart);
        assert [] + [reason] == [reason];
      }
    }
  }

  lemma CountOfFour(a: seq<Event>, b: seq<Event>, c: seq<Event>, d: seq<Event>, kind: EventKind)
    ensures Count(a + b + c + d, kind) == Count(a, kind) + Count(b, kind) + Count(c, kind) + Count(d, kind)
  {
    CountAppend(a, b, kind);
    CountAppend(a + b, c, kind);
    CountAppend(a + b + c, d, kind);
  }

  /** The events of one frame with a `choices[0]`, counted. */
  lemma FrameCounts(st: State, chunk: ChatCompletionChunk)
    requires |chunk.choices| > 0
    ensures var (st', events) := FrameStep(st, chunk, false);
            && Count(events, KMessageStart) == (if st.messageStarted then 0 else 1)
            && Count(events, KBlockStart) + (if st.blockStarted then 1 else 0) == (if st'.blockStarted then 1 else 0)
  {
    var id := st.messageId.ValueOr(MessageIdOf(chunk));
    var choice := chunk.choices[0];
    var start := if st.messageStarted then [] else [MessageStart(id, chunk.model.ValueOr("unknown"))];
    var text := TextEvents(st.blockStarted, choice.delta.content);
    var afterText := st.blockStarted || Truthy(choice.delta.content);
    var tool := ToolEvents(afterText, choice.delta.toolCalls);
    var afterTool := afterText || tool != [];
    var finish := FinishEvents(afterTool, choice.finishReason);
    assert FrameStep(st, chunk, false).1 == start + text + tool + finish;
    assert FrameStep(st, chunk, false).0.blockStarted == afterTool;
    CountOfFour(start, text, tool, finish, KMessageStart);
    CountOfFour(start, text, tool, finish, KBlockStart);
    if !st.messageStarted {
      CountSingle(start[0], KMessageStart);
      CountSingle(start[0], KBlockStart);
    }
    TextCounts(st.blockStarted, choice.delta.content);
    ToolCounts(afterText, choice.delta.toolCalls);
    FinishCounts(afterTool, choice.finishReason);
  }

  lemma FramePreservesInv(st: State, out: seq<Event>, chunk: ChatCompletionChunk)
    requires Inv(st, out) && !st.finished
    ensures var (st', events) := FrameStep(st, chunk, false); Inv(st', out + events)
  {
    var (st', events) := FrameStep(st, chunk, false);
    if |chunk.choices| == 0 {
      assert out + events == out;
    } else {
      FrameCounts(st, chunk);
      CountAppend(out, events, KMessageStart);
      CountAppend(out, events, KBlockStart);
      if st.messageStarted {
        assert (out + events)[0] == out[0];
      } else {
        assert out + events == events;
      }
    }
  }

  lemma StepPreservesInv(st: State, out: seq<Event>, line: Line)
    requires Inv(st, out)
    ensures var (st', events) := Step(st, line); Inv(st', out + events)
  {
    if st.finished {
      assert out + [] == out;
    } else {
      match line
      case Done => DonePreservesInv(st, out);
      case Data(Some(chunk)) => FramePreservesInv(st, out, chunk);
      case _ => assert out + [] == out;
    }
  }

  lemma {:induction false} RunInv(lines: seq<Line>)
    ensures var (st, out) := Run(lines); Inv(st, out)
  {
    if |lines| > 0 {
      RunInv(lines[..|lines| - 1]);
      var (st, out) := Run(lines[..|lines| - 1]);
      StepPreservesInv(st, out, lines[|lines| - 1]);
    }
  }

  /** An event of the given kind at position `j` is counted. */
  lemma {:induction false} CountPositive(events: seq<Event>, j: nat, kind: EventKind)
    requires j < |events| && KindOf(events[j]) == kind
    ensures Count(events, kind) >= 1
  {
    if j > 0 {
      CountPositive(events[1..], j - 1, kind);
    }
  }

  /** With at most one message_start and one at the front, there is no other. */
  lemma MessageStartOnlyFirst(out: seq<Event>)
    requires Count(out, KMessageStart) <= 1 && |out| > 0 && out[0].MessageStart?
    ensures forall i :: 0 <= i < |out| && out[i].MessageStart? ==> i == 0
  {
    forall i | 0 <= i < |out| && out[i].MessageStart? ensures i == 0 {
      if i != 0 {
        assert out[1..][i - 1] == out[i];
        assert Count(out, KMessageStart) == 1 + Count(out[1..], KMessageStart);
        CountPositive(out[1..], i - 1, KMessageStart);
      }
    }
  }

  /** message_start and content_block_start are each emitted at most once, and
      every event other than the closing pair that `[DONE]` emits comes after
      the message_start, which carries the captured message id. */
  lemma StreamOrdering(lines: seq<Line>)
    ensures var (st, out) := Run(lines);
            && Count(out, KMessageStart) <= 1
            && Count(out, KBlockStart) <= 1
            && (forall i :: 0 <= i < |out| && !out[i].MessageStart? && !(st.finished && i >= |out| - 2) ==>
                  exists j :: 0 <= j < i && out[j].MessageStart?)
            && (forall i :: 0 <= i < |out| && out[i].MessageStart? ==> i == 0 && Some(out[i].id) == st.messageId)
  {
    RunInv(lines);
    var (st, out) := Run(lines);
    if st.messageStarted {
      MessageStartOnlyFirst(out);
      forall i | 0 <= i < |out| && !out[i].MessageStart? ensures exists j :: 0 <= j < i && out[j].MessageStart? {
        assert out[0].MessageStart?;
      }
    } else if st.finished {
      assert out == [ContentBlockStop][..0] + [MessageDelta("end_turn"), MessageStop];
    }
  }

  // ---------------------------------------------------------------------------
  // `[DONE]` ends the stream
  // ---------------------------------------------------------------------------

  /** Once stopped, later lines change nothing. */
  lemma {:induction false} FinishedStays(lines: seq<Line>, later: seq<Line>)
    requires Run(lines).0.finished
    ensures Run(lines + later) == Run(lines)
  {
    if |later| == 0 {
      assert lines + later == lines;
    } else {
      var all := lines + later;
      assert all[..|all| - 1] == lines + later[..|later| - 1];
      FinishedStays(lines, later[..|later| - 1]);
      assert Run(all) == (Run(lines).0, Run(lines).1 + []);
      assert Run(lines).1 + [] == Run(lines).1;
    }
  }

  /** `[DONE]` emits the block stop (when the flag is set), an end_turn
      message_delta and message_stop, and nothing is emitted for any later line. */
  lemma DoneEndsStream(before: seq<Line>, after: seq<Line>)
    requires Done !in before
    ensures var (st, out) := Run(before);
            Run(before + [Done] + after).1 == out + DoneEvents(st.blockStarted)
  {
    var lines := before + [Done];
    assert lines[..|lines| - 1] == before;
    FinishedStays(lines, after);
  }

  // ---------------------------------------------------------------------------
  // The message id
  // ---------------------------------------------------------------------------

  /** Once captured, the message id never changes. */
  lemma {:induction false} MessageIdFixed(lines: seq<Line>, k: nat)
    requires k <= |lines| && Run(lines[..k]).0.messageId.Some?
    ensures Run(lines).0.messageId == Run(lines[..k]).0.messageId
  {
    if k < |lines| {
      var pre := lines[..|lines| - 1];
      assert pre[..k] == lines[..k];
      MessageIdFixed(pre, k);
    } else {
      assert lines[..k] == lines;
    }
  }

  /** The id of the first frame that decodes before `[DONE]`, independent of the fold. */
  function FirstFrameId(lines: seq<Line>): Option<string> {
    if |lines| == 0 then None
    else
      var pre := lines[..|lines| - 1];
      var last := lines[|lines| - 1];
      if FirstFrameId(pre).Some? then FirstFrameId(pre)
      else if Done in pre then None
      else if last.Data? && last.chunk.Some? then Some(MessageIdOf(last.chunk.value))
      else None
  }

  /** The message id is `"msg_" + id` (or `msg_unknown`) of the first frame that
      decodes, even one without `choices`. */
  lemma {:induction false} MessageIdIsFirstFrameId(lines: seq<Line>)
    ensures Run(lines).0.messageId == FirstFrameId(lines)
  {
    if |lines| > 0 {
      var pre := lines[..|lines| - 1];
      MessageIdIsFirstFrameId(pre);
    }
  }

  // ---------------------------------------------------------------------------
  // Text deltas
  // ---------------------------------------------------------------------------

  /** The texts carried by the content_block_delta events, in order. */
  function DeltaTexts(events: seq<Event>): seq<string> {
    if |events| == 0 then []
    else (if events[0].ContentBlockDelta? then [events[0].text] else []) + DeltaTexts(events[1..])
  }

  lemma {:induction false} DeltaTextsAppend(a: seq<Event>, b: seq<Event>)
    ensures DeltaTexts(a + b) == DeltaTexts(a) + DeltaTexts(b)
  {
    if |a| == 0 {
      assert a + b == b;
    } else {
      assert (a + b)[1..] == a[1..] + b;
      DeltaTextsAppend(a[1..], b);
    }
  }

  /** The non-empty text fragment a line carries, if any. */
  function FrameText(line: Line): seq<string> {
    if line.Data? && line.chunk.Some? && |line.chunk.value.choices| > 0
       && Truthy(line.chunk.value.choices[0].delta.content)
    then [line.chunk.value.choices[0].delta.content.value]
    else []
  }

  /** The text fragments of the frames before `[DONE]`, independent of the fold. */
  function ExpectedTexts(lines: seq<Line>): seq<string> {
    if |lines| == 0 then []
    else
      var pre := lines[..|lines| - 1];
      ExpectedTexts(pre) + (if Done in pre then [] else FrameText(lines[|lines| - 1]))
  }

  lemma TextDeltaTexts(blockOpen: bool, content: Option<string>)
    ensures DeltaTexts(TextEvents(blockOpen, content)) == if Truthy(content) then [content.value] else []
  {
    if Truthy(content) {
      var delta := ContentBlockDelta(content.value);
      DeltaTextsAppend(if blockOpen then [] else [ContentBlockStart(TextStart)], [delta]);
      assert DeltaTexts([delta]) == [content.value] + DeltaTexts([]);
      if !blockOpen {
        assert DeltaTexts([ContentBlockStart(TextStart)]) == [] + DeltaTexts([]);
      }
    }
  }

  lemma ToolDeltaTexts(blockOpen: bool, calls: seq<ToolCallDelta>)
    ensures DeltaTexts(ToolEvents(blockOpen, calls)) == []
  {
    var tool := ToolEvents(blockOpen, calls);
    if tool != [] {
      assert tool[1..] == [];
    }
  }

  lemma FinishDeltaTexts(blockOpen: bool, finishReason: Option<string>)
    ensures DeltaTexts(FinishEvents(blockOpen, finishReason)) == []
  {
    if Truthy(finishReason) {
      var reason := MessageDelta(StopReasonFor(finishReason.value));
      DeltaTextsAppend(if blockOpen then [ContentBlockStop] else [], [reason]);
      assert DeltaTexts([reason]) == [] + DeltaTexts([]);
      if blockOpen {
        assert DeltaTexts([ContentBlockStop]) == [] + DeltaTexts([]);
      }
    }
  }

  lemma FrameDeltaTexts(st: State, chunk: ChatCompletionChunk)
    ensures DeltaTexts(FrameStep(st, chunk, false).1) == FrameText(Data(Some(chunk)))
  {
    if |chunk.choices| > 0 {
      var id := st.messageId.ValueOr(MessageIdOf(chunk));
      var choice := chunk.choices[0];
      var start := if st.messageStarted then [] else [MessageStart(id, chunk.model.ValueOr("unknown"))];
      var text := TextEvents(st.blockStarted, choice.delta.content);
      var afterText := st.blockStarted || Truthy(choice.delta.content);
      var tool := ToolEvents(afterText, choice.delta.toolCalls);
      var afterTool := afterText || tool != [];
      var finish := FinishEvents(afterTool, choice.finishReason);
      assert FrameStep(st, chunk, false).1 == start + text + tool + finish;
      DeltaTextsAppend(start, text);
      DeltaTextsAppend(start + text, tool);
      DeltaTextsAppend(start + text + tool, finish);
      if !st.messageStarted {
        assert DeltaTexts(start) == [] + DeltaTexts([]);
      }
      TextDeltaTexts(st.blockStarted, choice.delta.content);
      ToolDeltaTexts(afterText, choice.delta.toolCalls);
      FinishDeltaTexts(afterTool, choice.finishReason);
    }
  }

  lemma DoneDeltaTexts(blockOpen: bool)
    ensures DeltaTexts(DoneEvents(blockOpen)) == []
  {
    DeltaTextsAppend(if blockOpen then [ContentBlockStop] else [], [MessageDelta("end_turn"), MessageStop]);
    assert [MessageDelta("end_turn"), MessageStop][1..] == [MessageStop];
  }

  /** Every non-empty text fragment before `[DONE]` is forwarded unchanged as
      exactly one content_block_delta, in input order, whatever block is open
      and even after a finish reason. */
  lemma {:induction false} TextDeltasInOrder(lines: seq<Line>)
    ensures DeltaTexts(Run(lines).1) == ExpectedTexts(lines)
  {
    if |lines| > 0 {
      var pre := lines[..|lines| - 1];
      var last := lines[|lines| - 1];
      TextDeltasInOrder(pre);
      var (st, out) := Run(pre);
      var events := Step(st, last).1;
      DeltaTextsAppend(out, events);
      if !st.finished {
        match last
        case Done => DoneDeltaTexts(st.blockStarted);
        case Data(Some(chunk)) => FrameDeltaTexts(st, chunk);
        case _ =>
      }
    }
  }

  // ---------------------------------------------------------------------------
  // Finish reasons
  // ---------------------------------------------------------------------------

  /** A frame with a finish reason ends with a message_delta carrying the
      translated reason, preceded by a content_block_stop exactly when the block
      flag is set; the flag stays set afterwards. */
  lemma FinishFrame(st: State, chunk: ChatCompletionChunk)
    requires !st.finished && |chunk.choices| > 0 && Truthy(chunk.choices[0].finishReason)
    ensures var (st', events) := Step(st, Data(Some(chunk)));
            && |events| >= 1
            && events[|events| - 1] == MessageDelta(StopReasonFor(chunk.choices[0].finishReason.value))
            && (st'.blockStarted <==> |events| >= 2 && events[|events| - 2] == ContentBlockStop)
            && (st.blockStarted ==> st'.blockStarted)
  {
    var id := st.messageId.ValueOr(MessageIdOf(chunk));
    var choice := chunk.choices[0];
    var start := if st.messageStarted then [] else [MessageStart(id, chunk.model.ValueOr("unknown"))];
    var text := TextEvents(st.blockStarted, choice.delta.content);
    var afterText := st.blockStarted || Truthy(choice.delta.content);
    var tool := ToolEvents(afterText, choice.delta.toolCalls);
    var afterTool := afterText || tool != [];
    var finish := FinishEvents(afterTool, choice.finishReason);
    var events := start + text + tool + finish;
    assert Step(st, Data(Some(chunk))).1 == events;
    assert Step(st, Data(Some(chunk))).0.blockStarted == afterTool;
    if !afterTool {
      assert start + text + tool == [] || start + text + tool == start;
      if |events| >= 2 {
        assert events[|events| - 2] == (start + text + tool)[|start + text + tool| - 1];
        assert start == [] || start == [MessageStart(id, chunk.model.ValueOr("unknown"))];
      }
    }
  }

  // ---------------------------------------------------------------------------
  // A worked stream
  // ---------------------------------------------------------------------------

  function TextFrame(id: Option<string>, text: string): Line {
    Data(Some(ChatCompletionChunk(id, None, [StreamChoice(Delta(Some(text), []), None)])))
  }

  const FinishFrameStop: Line :=
    Data(Some(ChatCompletionChunk(None, None, [StreamChoice(Delta(None, []), Some("stop"))])))

  const HelloLines: seq<Line> := [TextFrame(Some("x1"), "Hel"), TextFrame(None, "lo"), FinishFrameStop, Done]

  /** The fold, one line at a time. */
  lemma RunWithSnoc(lines: seq<Line>, line: Line, closeAtFinish: bool)
    ensures var (st, out) := RunWith(lines, closeAtFinish);
            var (st', events) := StepWith(st, line, closeAtFinish);
            RunWith(lines + [line], closeAtFinish) == (st', out + events)
  {
    assert (lines + [line])[..|lines|] == lines;
  }

  /** The state once the first two text frames have been read. */
  const HelloOpen: State := State(true, true, Some("msg_x1"), false)

  lemma HelloFirstFrame(closeAtFinish: bool)
    ensures RunWith([TextFrame(Some("x1"), "Hel")], closeAtFinish) ==
              (HelloOpen, [MessageStart("msg_x1", "unknown"), ContentBlockStart(TextStart), ContentBlockDelta("Hel")])
  {
    var l1 := TextFrame(Some("x1"), "Hel");
    RunWithSnoc([], l1, closeAtFinish);
    assert RunWith([], closeAtFinish) == (Initial, []);
    assert [] + [l1] == [l1];
    assert "msg_" + "x1" == "msg_x1";
    assert Truthy(Some("Hel"));
    assert ToolEvents(true, []) == [] && FinishEvents(true, None) == [];
    assert StepWith(Initial, l1, closeAtFinish) == FrameStep(Initial, l1.chunk.value, closeAtFinish);
    assert FrameStep(Initial, l1.chunk.value, closeAtFinish).0 == HelloOpen;
    var e1 := FrameStep(Initial, l1.chunk.value, closeAtFinish).1;
    assert e1 == [MessageStart("msg_x1", "unknown")] + [ContentBlockStart(TextStart), ContentBlockDelta("Hel")] + [] + [];
    assert [] + e1 == e1;
    assert [MessageStart("msg_x1", "unknown")] + [ContentBlockStart(TextStart), ContentBlockDelta("Hel")] + [] + []
        == [MessageStart("msg_x1", "unknown"), ContentBlockStart(TextStart), ContentBlockDelta("Hel")];
  }

  lemma HelloSecondFrame(closeAtFinish: bool)
    ensures RunWith([TextFrame(Some("x1"), "Hel"), TextFrame(None, "lo")], closeAtFinish) ==
              (HelloOpen, [MessageStart("msg_x1", "unknown"), ContentBlockStart(TextStart),
                           ContentBlockDelta("Hel"), ContentBlockDelta("lo")])
  {
    var l1, l2 := TextFrame(Some("x1"), "Hel"), TextFrame(None, "lo");
    HelloFirstFrame(closeAtFinish);
    RunWithSnoc([l1], l2, closeAtFinish);
    assert [l1] + [l2] == [l1, l2];
    assert Truthy(Some("lo"));
    assert ToolEvents(true, []) == [] && FinishEvents(true, None) == [];
    assert StepWith(HelloOpen, l2, closeAtFinish) == FrameStep(HelloOpen, l2.chunk.value, closeAtFinish);
    assert FrameStep(HelloOpen, l2.chunk.value, closeAtFinish).0 == HelloOpen;
    assert FrameStep(HelloOpen, l2.chunk.value, closeAtFinish).1 == [] + [ContentBlockDelta("lo")] + [] + [];
    assert [MessageStart("msg_x1", "unknown"), ContentBlockStart(TextStart), ContentBlockDelta("Hel")]
           + ([] + [ContentBlockDelta("lo")] + [] + [])
        == [MessageStart("msg_x1", "unknown"), ContentBlockStart(TextStart), ContentBlockDelta("Hel"), ContentBlockDelta("lo")];
  }

  lemma HelloFinishFrame(closeAtFinish: bool)
    ensures RunWith([TextFrame(Some("x1"), "Hel"), TextFrame(None, "lo"), FinishFrameStop], closeAtFinish) ==
              (HelloOpen.(blockStarted := !closeAtFinish),
               [MessageStart("msg_x1", "unknown"), ContentBlockStart(TextStart),
                ContentBlockDelta("Hel"), ContentBlockDelta("lo"),
                ContentBlockStop, MessageDelta("end_turn")])
  {
    var l1, l2, l3 := TextFrame(Some("x1"), "Hel"), TextFrame(None, "lo"), FinishFrameStop;
    HelloSecondFrame(closeAtFinish);
    RunWithSnoc([l1, l2], l3, closeAtFinish);
    assert [l1, l2] + [l3] == [l1, l2, l3];
    assert StopReasonFor("stop") == "end_turn";
    assert TextEvents(true, None) == [] && ToolEvents(true, []) == [];
    assert StepWith(HelloOpen, l3, closeAtFinish) == FrameStep(HelloOpen, l3.chunk.value, closeAtFinish);
    assert FrameStep(HelloOpen, l3.chunk.value, closeAtFinish).0 == HelloOpen.(blockStarted := !closeAtFinish);
    assert FrameStep(HelloOpen, l3.chunk.value, closeAtFinish).1 == [] + [] + [] + [ContentBlockStop, MessageDelta("end_turn")];
    assert [] + [] + [] + [ContentBlockStop, MessageDelta("end_turn")] == [ContentBlockStop, MessageDelta("end_turn")];
    assert [MessageStart("msg_x1", "unknown"), ContentBlockStart(TextStart), ContentBlockDelta("Hel"), ContentBlockDelta("lo")]
           + [ContentBlockStop, MessageDelta("end_turn")]
        == [MessageStart("msg_x1", "unknown"), ContentBlockStart(TextStart), ContentBlockDelta("Hel"), ContentBlockDelta("lo"),
            ContentBlockStop, MessageDelta("end_turn")];
  }

  /** Frames "Hel", "lo", a finish "stop", then `[DONE]`: nine events, with the
      block closed twice because the flag is never cleared. */
  lemma HelloStream()
    ensures Run(HelloLines).1 ==
              [ MessageStart("msg_x1", "unknown"), ContentBlockStart(TextStart),
                ContentBlockDelta("Hel"), ContentBlockDelta("lo"),
                ContentBlockStop, MessageDelta("end_turn"),
                ContentBlockStop, MessageDelta("end_turn"), MessageStop ]
  {
    var l1, l2, l3 := TextFrame(Some("x1"), "Hel"), TextFrame(None, "lo"), FinishFrameStop;
    HelloFinishFrame(false);
    RunWithSnoc([l1, l2, l3], Done, false);
    assert [l1, l2, l3] + [Done] == HelloLines;
  }

  /** As written, the worked stream closes its one block twice. */
  lemma HelloStreamClosesTwice()
    ensures Count(Run(HelloLines).1, KBlockStart) == 1
    ensures Count(Run(HelloLines).1, KBlockStop) == 2
  {
    HelloStream();
    var out := Run(HelloLines).1;
    assert out == [out[0], out[1]] + [out[2], out[3]] + [out[4], out[5]] + [out[6], out[7]] + [out[8]];
    CountAppend([out[0], out[1]] + [out[2], out[3]] + [out[4], out[5]] + [out[6], out[7]], [out[8]], KBlockStart);
    CountAppend([out[0], out[1]] + [out[2], out[3]] + [out[4], out[5]] + [out[6], out[7]], [out[8]], KBlockStop);
    CountOfFour([out[0], out[1]], [out[2], out[3]], [out[4], out[5]], [out[6], out[7]], KBlockStart);
    CountOfFour([out[0], out[1]], [out[2], out[3]], [out[4], out[5]], [out[6], out[7]], KBlockStop);
    CountPair(out[0], out[1], KBlockStart);
    CountPair(out[2], out[3], KBlockStart);
    CountPair(out[4], out[5], KBlockStart);
    CountPair(out[6], out[7], KBlockStart);
    CountSingle(out[8], KBlockStart);
    CountPair(out[0], out[1], KBlockStop);
    CountPair(out[2], out[3], KBlockStop);
    CountPair(out[4], out[5], KBlockStop);
    CountPair(out[6], out[7], KBlockStop);
    CountSingle(out[8], KBlockStop);
  }

  // ---------------------------------------------------------------------------
  // The corrected re-framer: the block flag is cleared when a finish reason
  // closes the block
  // ---------------------------------------------------------------------------

  lemma TextStops(blockOpen: bool, content: Option<string>)
    ensures Count(TextEvents(blockOpen, content), KBlockStop) == 0
  {
    if Truthy(content) {
      var delta := ContentBlockDelta(content.value);
      if blockOpen {
        CountSingle(delta, KBlockStop);
      } else {
        CountPair(ContentBlockStart(TextStart), delta, KBlockStop);
      }
    }
  }

  lemma ToolStops(blockOpen: bool, calls: seq<ToolCallDelta>)
    ensures Count(ToolEvents(blockOpen, calls), KBlockStop) == 0
  {
    var tool := ToolEvents(blockOpen, calls);
    if tool != [] {
      assert tool == [tool[0]];
      CountSingle(tool[0], KBlockStop);
    }
  }

  lemma FinishStops(blockOpen: bool, finishReason: Option<string>)
    ensures Count(FinishEvents(blockOpen, finishReason), KBlockStop) == (if blockOpen && Truthy(finishReason) then 1 else 0)
  {
    if Truthy(finishReason) {
      var reason := MessageDelta(StopReasonFor(finishReason.value));
      if blockOpen {
        CountPair(ContentBlockStop, reason, KBlockStop);
        assert [ContentBlockStop] + [reason] == [ContentBlockStop, reason];
      } else {
        CountSingle(reason, KBlockStop);
        assert [] + [reason] == [reason];
      }
    }
  }

  lemma BlockStopCounts(st: State, chunk: ChatCompletionChunk, closeAtFinish: bool)
    requires |chunk.choices| > 0
    ensures var choice := chunk.choices[0];
            var afterText := st.blockStarted || Truthy(choice.delta.content);
            var afterTool := afterText || ToolEvents(afterText, choice.delta.toolCalls) != [];
            var events := FrameStep(st, chunk, closeAtFinish).1;
            && Count(events, KBlockStop) == (if afterTool && Truthy(choice.finishReason) then 1 else 0)
            && Count(events, KBlockStart) + (if st.blockStarted then 1 else 0) == (if afterTool then 1 else 0)
            && FrameStep(st, chunk, closeAtFinish).0.blockStarted ==
                 (if closeAtFinish && Truthy(choice.finishReason) then false else afterTool)
  {
    var id := st.messageId.ValueOr(MessageIdOf(chunk));
    var choice := chunk.choices[0];
    var start := if st.messageStarted then [] else [MessageStart(id, chunk.model.ValueOr("unknown"))];
    var text := TextEvents(st.blockStarted, choice.delta.content);
    var afterText := st.blockStarted || Truthy(choice.delta.content);
    var tool := ToolEvents(afterText, choice.delta.toolCalls);
    var afterTool := afterText || tool != [];
    var finish := FinishEvents(afterTool, choice.finishReason);
    assert FrameStep(st, chunk, closeAtFinish).1 == start + text + tool + finish;
    CountOfFour(start, text, tool, finish, KBlockStop);
    CountOfFour(start, text, tool, finish, KBlockStart);
    if !st.messageStarted {
      CountSingle(start[0], KBlockStop);
      CountSingle(start[0], KBlockStart);
    }
    TextCounts(st.blockStarted, choice.delta.content);
    ToolCounts(afterText, choice.delta.toolCalls);
    FinishCounts(afterTool, choice.finishReason);
    TextStops(st.blockStarted, choice.delta.content);
    ToolStops(afterText, choice.delta.toolCalls);
    FinishStops(afterTool, choice.finishReason);
  }

  lemma DoneStopCounts(blockOpen: bool)
    ensures Count(DoneEvents(blockOpen), KBlockStop) == (if blockOpen then 1 else 0)
    ensures Count(DoneEvents(blockOpen), KBlockStart) == 0
  {
    DoneEventsCounts(blockOpen);
    CountPair(MessageDelta("end_turn"), MessageStop, KBlockStop);
    CountAppend(if blockOpen then [ContentBlockStop] else [], [MessageDelta("end_turn"), MessageStop], KBlockStop);
    if blockOpen {
      CountSingle(ContentBlockStop, KBlockStop);
    }
  }

  /** Blocks opened so far are closed except the one still open. */
  ghost predicate Balanced(st: State, out: seq<Event>) {
    Count(out, KBlockStop) + (if st.blockStarted && !st.finished then 1 else 0) == Count(out, KBlockStart)
  }

  lemma CorrectedStepBalanced(st: State, out: seq<Event>, line: Line)
    requires Balanced(st, out)
    ensures var (st', events) := StepWith(st, line, true); Balanced(st', out + events)
  {
    var (st', events) := StepWith(st, line, true);
    CountAppend(out, events, KBlockStop);
    CountAppend(out, events, KBlockStart);
    if !st.finished {
      match line
      case Done => DoneStopCounts(st.blockStarted);
      case Data(Some(chunk)) =>
        if |chunk.choices| > 0 {
          BlockStopCounts(st, chunk, true);
        }
      case _ =>
    }
  }

  /** With the flag cleared at a finish reason, no block is ever closed twice:
      at every point the stops never outnumber the starts, and once `[DONE]`
      has been read every block that was opened has been closed exactly once. */
  lemma {:induction false} CorrectedRunBalanced(lines: seq<Line>)
    ensures var (st, out) := RunWith(lines, true);
            && Count(out, KBlockStop) <= Count(out, KBlockStart)
            && (Done in lines ==> Count(out, KBlockStop) == Count(out, KBlockStart))
  {
    CorrectedRunBalancedInv(lines);
  }

  lemma {:induction false} CorrectedRunBalancedInv(lines: seq<Line>)
    ensures var (st, out) := RunWith(lines, true); Balanced(st, out)
  {
    if |lines| > 0 {
      CorrectedRunBalancedInv(lines[..|lines| - 1]);
      var (st, out) := RunWith(lines[..|lines| - 1], true);
      CorrectedStepBalanced(st, out, lines[|lines| - 1]);
    }
  }

  /** The corrected re-framer closes the worked stream's block once. */
  lemma CorrectedHelloStream()
    ensures RunWith(HelloLines, true).1 ==
              [ MessageStart("msg_x1", "unknown"), ContentBlockStart(TextStart),
                ContentBlockDelta("Hel"), ContentBlockDelta("lo"),
                ContentBlockStop, MessageDelta("end_turn"),
                MessageDelta("end_turn"), MessageStop ]
  {
    var l1, l2, l3 := TextFrame(Some("x1"), "Hel"), TextFrame(None, "lo"), FinishFrameStop;
    HelloFinishFrame(true);
    RunWithSnoc([l1, l2, l3], Done, true);
    assert [l1, l2, l3] + [Done] == HelloLines;
  }

  // ---------------------------------------------------------------------------
  // Lines that carry nothing
  // ---------------------------------------------------------------------------

  /** Blank lines, `:` comments, lines that are not `data: ` lines, and frames
      whose JSON does not decode. */
  predicate Ignored(line: Line) {
    line.Blank? || line.Comment? || line.NotData? || line == Data(None)
  }

  /** Removing an ignored line anywhere in the stream changes neither the state
      nor the events. */
  lemma {:induction false} IgnoredLineHasNoEffect(before: seq<Line>, line: Line, after: seq<Line>)
    requires Ignored(line)
    ensures Run(before + [line] + after) == Run(before + after)
  {
    if |after| == 0 {
      assert before + [line] + after == before + [line];
      assert before + after == before;
      RunWithSnoc(before, line, false);
      assert Run(before).1 + [] == Run(before).1;
    } else {
      var last := after[|after| - 1];
      var init := after[..|after| - 1];
      IgnoredLineHasNoEffect(before, line, init);
      assert before + [line] + after == (before + [line] + init) + [last];
      assert before + after == (before + init) + [last];
      RunWithSnoc(before + [line] + init, last, false);
      RunWithSnoc(before + init, last, false);
    }
  }

  /** Upstream lines that are blank, comments, not `data: ` lines, or whose JSON
      does not decode, can be dropped from the input without changing a single
      chunk of the output. */
  lemma SkippedLinesChangeNothing(before: seq<string>, line: string, after: seq<string>, parse: ChunkParser, dumps: Encoder)
    requires AllSpace(line) || StartsWith(line, ":") || !StartsWith(line, DataPrefix)
             || (Strip(line[|DataPrefix|..]) != DoneSentinel && parse(line[|DataPrefix|..]).None?)
    ensures ConvertStream(before + [line] + after, parse, dumps) == ConvertStream(before + after, parse, dumps)
  {
    var l := Classify(line, parse);
    assert Ignored(l);
    ClassifyAllAppend(before + [line], after, parse);
    ClassifyAllAppend(before, [line], parse);
    ClassifyAllAppend(before, after, parse);
    assert ClassifyAll([line], parse) == [l];
    IgnoredLineHasNoEffect(ClassifyAll(before, parse), l, ClassifyAll(after, parse));
  }

  lemma ClassifyAllAppend(a: seq<string>, b: seq<string>, parse: ChunkParser)
    ensures ClassifyAll(a + b, parse) == ClassifyAll(a, parse) + ClassifyAll(b, parse)
  {
    var all, left, right := ClassifyAll(a + b, parse), ClassifyAll(a, parse), ClassifyAll(b, parse);
    assert |all| == |left + right|;
    forall k | 0 <= k < |all| ensures all[k] == (left + right)[k] {
      if k < |a| {
        assert (a + b)[k] == a[k];
        assert (left + right)[k] == left[k];
      } else {
        assert (a + b)[k] == b[k - |a|];
        assert (left + right)[k] == right[k - |a|];
      }
    }
  }

  // ---------------------------------------------------------------------------
  // The chunks written for a whole stream
  // ---------------------------------------------------------------------------

  /** The stream output opens with message_start once a frame has been
      answered, closes with message_delta then message_stop once `[DONE]` has
      been read, and is empty when neither has happened. */
  lemma {:induction false} ConvertStreamShape(lines: seq<string>, parse: ChunkParser, dumps: Encoder)
    ensures Run(ClassifyAll(lines, parse)).0.messageStarted ==>
              |ConvertStream(lines, parse, dumps)| >= 2 && ConvertStream(lines, parse, dumps)[0] == "event: message_start\n"
    ensures Done in ClassifyAll(lines, parse) ==>
              && |ConvertStream(lines, parse, dumps)| >= 4
              && ConvertStream(lines, parse, dumps)[|ConvertStream(lines, parse, dumps)| - 4] == "event: message_delta\n"
              && ConvertStream(lines, parse, dumps)[|ConvertStream(lines, parse, dumps)| - 2] == "event: message_stop\n"
    ensures Done !in ClassifyAll(lines, parse) && !Run(ClassifyAll(lines, parse)).0.messageStarted ==>
              ConvertStream(lines, parse, dumps) == []
  {
    RunRenderShape(ClassifyAll(lines, parse), dumps);
  }

  lemma {:induction false} RunRenderShape(lines: seq<Line>, dumps: Encoder)
    ensures Run(lines).0.messageStarted ==>
              |Render(Run(lines).1, dumps)| >= 2 && Render(Run(lines).1, dumps)[0] == "event: message_start\n"
    ensures Done in lines ==>
              && |Render(Run(lines).1, dumps)| >= 4
              && Render(Run(lines).1, dumps)[|Render(Run(lines).1, dumps)| - 4] == "event: message_delta\n"
              && Render(Run(lines).1, dumps)[|Render(Run(lines).1, dumps)| - 2] == "event: message_stop\n"
    ensures Done !in lines && !Run(lines).0.messageStarted ==> Render(Run(lines).1, dumps) == []
  {
    RunShape(lines);
    if Run(lines).0.messageStarted {
      RenderOpens(Run(lines).1, dumps);
    }
    if Done in lines {
      RenderCloses(Run(lines).1, dumps);
    } else if !Run(lines).0.messageStarted {
      assert Run(lines).1 == [];
      assert |Render(Run(lines).1, dumps)| == 0;
    }
  }

  /** The first and last events of a run: message_start opens it once a frame
      was answered, and `[DONE]` closes it with message_delta, message_stop. */
  lemma {:induction false} RunShape(lines: seq<Line>)
    ensures Run(lines).0.messageStarted ==> |Run(lines).1| > 0 && Run(lines).1[0].MessageStart?
    ensures Run(lines).0.finished ==>
              && |Run(lines).1| >= 2
              && Run(lines).1[|Run(lines).1| - 2].MessageDelta?
              && Run(lines).1[|Run(lines).1| - 1].MessageStop?
    ensures !Run(lines).0.messageStarted && !Run(lines).0.finished ==> Run(lines).1 == []
  {
    RunInv(lines);
  }

  /** Render writes message_start's event line first when the events open
      with message_start. */
  lemma {:induction false} RenderOpens(events: seq<Event>, dumps: Encoder)
    requires |events| > 0 && events[0].MessageStart?
    ensures |Render(events, dumps)| >= 2 && Render(events, dumps)[0] == "event: message_start\n"
  {
    RenderEventLine(events, dumps, 0);
    EventLineNames(events[0]);
  }

  /** Render writes the event lines of message_delta then message_stop last
      when the events close with them. */
  lemma {:induction false} RenderCloses(events: seq<Event>, dumps: Encoder)
    requires |events| >= 2 && events[|events| - 2].MessageDelta? && events[|events| - 1].MessageStop?
    ensures |Render(events, dumps)| >= 4
    ensures Render(events, dumps)[|Render(events, dumps)| - 4] == "event: message_delta\n"
    ensures Render(events, dumps)[|Render(events, dumps)| - 2] == "event: message_stop\n"
  {
    var n := |events|;
    RenderEventLine(events, dumps, n - 2);
    RenderEventLine(events, dumps, n - 1);
    EventLineNames(events[n - 2]);
    EventLineNames(events[n - 1]);
    assert |Render(events, dumps)| - 4 == 2 * (n - 2) && |Render(events, dumps)| - 2 == 2 * (n - 1);
  }

  lemma {:induction false} RenderEventLine(events: seq<Event>, dumps: Encoder, k: nat)
    requires k < |events|
    ensures 2 * k < |Render(events, dumps)| && Render(events, dumps)[2 * k] == EventLine(events[k])
  {
  }

  function EventLine(e: Event): string {
    "event: " + EventName(e) + "\n"
  }

  lemma EventLineNames(e: Event)
    ensures e.MessageStart? ==> EventLine(e) == "event: message_start\n"
    ensures e.MessageDelta? ==> EventLine(e) == "event: message_delta\n"
    ensures e.MessageStop? ==> EventLine(e) == "event: message_stop\n"
  {
  }

  // ---------------------------------------------------------------------------
  // What a data object carries
  // ---------------------------------------------------------------------------

  /** Every `data:` object can be read back as the event it was written for:
      the wire form keeps the message id and model, the block kind, the
      tool_use id and name, the delta text and the stop reason. */
  lemma PayloadReadsBack(e: Event)
    ensures EventOf(Payload(e)) == Some(e)
  {
    match e
    case MessageStart(id, model) => MessageStartReadsBack(id, model);
    case ContentBlockStart(TextStart) => TextStartReadsBack();
    case ContentBlockStart(ToolUseStart(id, name)) => ToolUseStartReadsBack(id, name);
    case ContentBlockDelta(text) => DeltaReadsBack(text);
    case ContentBlockStop => StopReadsBack();
    case MessageDelta(reason) => MessageDeltaReadsBack(reason);
    case MessageStop => MessageStopReadsBack();
  }

  /** The reader does not accept an object that names no event type. */
  lemma UntypedObjectIsNoEvent(fields: seq<(string, Json)>)
    requires forall i :: 0 <= i < |fields| ==> fields[i].0 != "type"
    ensures EventOf(JObject(fields)) == None
  {
    FieldValueMissing(fields, "type");
  }

  lemma MessageStartReadsBack(id: string, model: string)
    ensures EventOf(Payload(MessageStart(id, model))) == Some(MessageStart(id, model))
  {
    var j := Payload(MessageStart(id, model));
    FieldValueAt(j.fields, "type", 0);
    FieldValueAt(j.fields, "message", 1);
    MessageObjectReadsBack(id, model);
  }

  lemma MessageObjectReadsBack(id: string, model: string)
    ensures var m := MessageObject(id, model);
            && GetString(m, "id") == Some(id)
            && GetString(m, "model") == Some(model)
            && Get(m, "type") == Some(JString("message"))
            && Get(m, "role") == Some(JString("assistant"))
            && Get(m, "content") == Some(JArray([]))
            && Get(m, "usage").Some?
            && IsZeroCount(Get(m, "usage").value, "input_tokens")
            && IsZeroCount(Get(m, "usage").value, "output_tokens")
  {
    var fields := MessageObject(id, model).fields;
    FieldValueAt(fields, "id", 0);
    FieldValueAt(fields, "type", 1);
    FieldValueAt(fields, "role", 2);
    FieldValueAt(fields, "content", 3);
    FieldValueAt(fields, "model", 4);
    FieldValueAt(fields, "usage", 5);
    var usage := fields[5].1;
    FieldValueAt(usage.fields, "input_tokens", 0);
    FieldValueAt(usage.fields, "output_tokens", 1);
  }

  lemma TextStartReadsBack()
    ensures EventOf(Payload(ContentBlockStart(TextStart))) == Some(ContentBlockStart(TextStart))
  {
    var j := Payload(ContentBlockStart(TextStart));
    FieldValueAt(j.fields, "type", 0);
    FieldValueAt(j.fields, "index", 1);
    FieldValueAt(j.fields, "content_block", 2);
    var block := j.fields[2].1;
    FieldValueAt(block.fields, "type", 0);
    FieldValueAt(block.fields, "text", 1);
  }

  lemma ToolUseStartReadsBack(id: string, name: string)
    ensures EventOf(Payload(ContentBlockStart(ToolUseStart(id, name)))) == Some(ContentBlockStart(ToolUseStart(id, name)))
  {
    var j := Payload(ContentBlockStart(ToolUseStart(id, name)));
    FieldValueAt(j.fields, "type", 0);
    FieldValueAt(j.fields, "index", 1);
    FieldValueAt(j.fields, "content_block", 2);
    var block := j.fields[2].1;
    FieldValueAt(block.fields, "type", 0);
    FieldValueAt(block.fields, "id", 1);
    FieldValueAt(block.fields, "name", 2);
  }

  lemma DeltaReadsBack(text: string)
    ensures EventOf(Payload(ContentBlockDelta(text))) == Some(ContentBlockDelta(text))
  {
    var j := Payload(ContentBlockDelta(text));
    FieldValueAt(j.fields, "type", 0);
    FieldValueAt(j.fields, "index", 1);
    FieldValueAt(j.fields, "delta", 2);
    var delta := j.fields[2].1;
    FieldValueAt(delta.fields, "type", 0);
    FieldValueAt(delta.fields, "text", 1);
  }

  lemma StopReadsBack()
    ensures EventOf(Payload(ContentBlockStop)) == Some(ContentBlockStop)
  {
    var j := Payload(ContentBlockStop);
    FieldValueAt(j.fields, "type", 0);
    FieldValueAt(j.fields, "index", 1);
  }

  lemma MessageDeltaReadsBack(reason: string)
    ensures EventOf(Payload(MessageDelta(reason))) == Some(MessageDelta(reason))
  {
    var j := Payload(MessageDelta(reason));
    FieldValueAt(j.fields, "type", 0);
    FieldValueAt(j.fields, "delta", 1);
    FieldValueAt(j.fields, "usage", 2);
    FieldValueAt(j.fields[1].1.fields, "stop_reason", 0);
    FieldValueAt(j.fields[2].1.fields, "output_tokens", 0);
  }

  lemma MessageStopReadsBack()
    ensures EventOf(Payload(MessageStop)) == Some(MessageStop)
  {
    FieldValueAt(Payload(MessageStop).fields, "type", 0);
  }
}
