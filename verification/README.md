# proxy-anth converters in Dafny

A model of the `converters` package of proxy-anth, a proxy that accepts
Anthropic Messages API requests, forwards them to an Azure OpenAI
chat-completions deployment, and translates the answers back. The package has
five parts, each modelled as pure functions over algebraic datatypes:

- the message converter (`anthropic_messages_to_openai`): typed content blocks
  (text, tool_use, tool_result) become flat role/content messages, tool calls
  go into `tool_calls` arrays and tool results become `role: tool` messages;
- the tool converter: tool declarations become function definitions, OpenAI
  tool calls become `tool_use` blocks, with the `call_` / `toolu_` id
  substitution and tolerant argument decoding;
- the response converter (`convert_azure_to_anthropic_response`), with the
  finish-reason table;
- the request assembler (`convert_anthropic_to_azure_request`): deployment
  lookup with a default, and which optional fields are written;
- the streaming re-framer (`convert_openai_stream_to_anthropic`): a single pass
  over upstream `data:` lines that emits named SSE events, modelled as a step
  function on a state record folded over the sequence of lines.

Files: `wrappers.dfy` (Option, Result), `strings.dfy` (the Python string
operations used: first-occurrence `replace`, `" ".join` and `strip`; `Split`
is not used by the converters and is there only as the inverse of `Join`),
`json.dfy` (JSON values; `json.dumps` and `json.loads` are function-typed
parameters), `anthropic.dfy` and `openai.dfy` (the wire shapes),
`stop_reasons.dfy`, `tools_converter.dfy`, `messages_converter.dfy`,
`response_converter.dfy`, `request_converter.dfy`, `streaming_converter.dfy`
and `streaming_properties.dfy` (whole-stream properties of the fold).

Two places where the code behaves in a way a reader might not expect; the model follows the code:

- Tool ids are rewritten with `str.replace(old, new, 1)`, which replaces the
  first occurrence anywhere in the id, not only a leading prefix. The round
  trip `call_` → `toolu_` → `call_` therefore holds only for ids that start
  with the prefix (`ToolsConverter.CallIdRoundTrip`), and
  `ToolsConverter.RoundTripNeedsLeadingPrefix` shows an id where it fails.
- For frames "Hel", "lo", a finish "stop" and `[DONE]` the code yields nine
  events, two of them `content_block_stop` for the one block it opened
  (`StreamingProperties.HelloStream`), because the block flag is never cleared
  (see Findings).

## Model

| member | source | states |
|---|---|---|
| Strings.ReplaceFirst | converters/tools_converter.py:59 | `str.replace(old, new, 1)`: with no occurrence the string is unchanged; otherwise exactly the first occurrence, wherever it is, is replaced |
| Strings.ReplaceFirstAtFront | converters/tools_converter.py:59 | when the string starts with the pattern, the replacement takes the place of that leading prefix |
| Strings.StripEmptyIffAllSpace | converters/streaming_converter.py:30 | `not line.strip()` holds exactly when every character is Python whitespace |
| Strings.Join | converters/messages_converter.py:66 | `sep.join(parts)`: no parts give "", one part gives itself; its partner is `Strings.SplitJoin`, which shows splitting undoes the join |
| Strings.StripLeft | converters/streaming_converter.py:30 | leading whitespace is cut: the result is a suffix of the input, the cut part is all whitespace, and the result does not start with whitespace |
| Strings.StripRight | converters/streaming_converter.py:30 | trailing whitespace is cut: the result is a prefix of the input, the cut part is all whitespace, and the result does not end with whitespace |
| Strings.Strip | converters/streaming_converter.py:30-37 | `str.strip()`: the result is a slice of the input with only whitespace cut on either side, and it neither starts nor ends with whitespace |
| Strings.SplitJoin | converters/messages_converter.py:66 | joining parts with a separator that none of them contains can be undone by splitting on it (`Split` is only the partner of `Join` here; the converters never split) |
| StopReasons.StopReasonFor | converters/response_converter.py:32-42 | the result is one of the four Anthropic reasons; `tool_use`, `max_tokens` and `stop_sequence` each come from exactly one finish reason (`tool_calls`, `length`, `content_filter`) and every other value gives `end_turn` |
| ToolsConverter.ToToolUseId | converters/tools_converter.py:59 | the first `call_` becomes `toolu_`; a leading `call_` is swapped for `toolu_`; an id without `call_` is unchanged |
| ToolsConverter.ToCallId | converters/messages_converter.py:53 | the first `toolu_` becomes `call_`; a leading `toolu_` is swapped for `call_`; an id without `toolu_` is unchanged |
| ToolsConverter.CallIdRoundTrip | converters/tools_converter.py:58-59 | an id beginning with `call_`, moved to Anthropic's namespace and back, is the original id |
| ToolsConverter.ToolUseIdRoundTrip | converters/messages_converter.py:52-53 | an id beginning with `toolu_`, moved to OpenAI's namespace and back, is the original id |
| ToolsConverter.RoundTripNeedsLeadingPrefix | converters/tools_converter.py:59 | because the match is anywhere, `xtoolu_call_` comes back as `xcall_toolu_`: the round trip needs the prefix to lead |
| ToolsConverter.ToolToFunction | converters/tools_converter.py:26-33 | the declaration is wrapped as `type: "function"` with the same name; a present description or schema is copied unchanged, a missing description becomes "" and a missing schema `{}` |
| ToolsConverter.ToolToFunctionLossless | converters/tools_converter.py:26-33 | a declaration with every field present is recovered exactly from its function definition |
| ToolsConverter.DecodeArguments | converters/tools_converter.py:62-66 | null or empty arguments give `{}`, text that does not decode gives `{}`, otherwise the decoded value; no error is possible |
| ToolsConverter.ToolCallToToolUse | converters/tools_converter.py:59-73 | the result is a tool_use block with the id moved to Anthropic's namespace, the function name unchanged and the decoded arguments as input |
| MessagesConverter.TextsOf | converters/messages_converter.py:46 | each collected text is the text of some text block of the message; `TextsOfAppend` and `TextsOfSingle` are the laws that pin it as the order-preserving filter |
| MessagesConverter.ToolUsesOf | converters/messages_converter.py:44 | the collected blocks are tool_use blocks of the message |
| MessagesConverter.ToolResultsOf | converters/messages_converter.py:45 | the collected blocks are tool_result blocks of the message |
| MessagesConverter.TextsOfAppend | converters/messages_converter.py:46 | the texts of a concatenation are the texts of the first part followed by those of the second, so order is kept and nothing is lost |
| MessagesConverter.TextsOfSingle | converters/messages_converter.py:46 | one block contributes its text exactly when it is a text block |
| MessagesConverter.ToolUsesOfAppend | converters/messages_converter.py:44 | the tool uses of a concatenation are those of the first part followed by those of the second |
| MessagesConverter.ToolUsesOfSingle | converters/messages_converter.py:44 | one block is collected, by itself, exactly when it is a tool_use block |
| MessagesConverter.ToolResultsOfAppend | converters/messages_converter.py:45 | the tool results of a concatenation are those of the first part followed by those of the second |
| MessagesConverter.ToolResultsOfSingle | converters/messages_converter.py:45 | one block is collected, by itself, exactly when it is a tool_result block |
| MessagesConverter.TextFollowsBlock | converters/messages_converter.py:46 | the text block at position j supplies the collected text whose index is the number of text blocks before j |
| MessagesConverter.ResultText | converters/messages_converter.py:81-83 | string content is kept as it is, absent content becomes "", and any other value is serialised |
| MessagesConverter.ToolUseToCall | converters/messages_converter.py:51-61 | a tool_use becomes a `function` call with the id moved to OpenAI's namespace, the same name, and the serialised input as arguments |
| MessagesConverter.ToolResultToMessage | converters/messages_converter.py:76-89 | a tool_result becomes a `role: tool` message answering the rewritten id; string content is kept, absent content is "", anything else is serialised |
| MessagesConverter.ConvertMessage | converters/messages_converter.py:27-97 | other roles and non-string, non-list content give nothing; string content gives one message with the same role and text; an assistant message with tool uses gives one message with the calls in order and the joined texts or null content; a user message with tool results gives one tool message per result in order; otherwise the joined texts, or nothing |
| MessagesConverter.ConvertMessages | converters/messages_converter.py:17-26 | a leading system message exactly when the system prompt is non-empty, followed by the conversions of the messages |
| MessagesConverter.ConvertEachAppend | converters/messages_converter.py:26-99 | conversion distributes over concatenation, so relative input order is preserved and each message's outputs stay contiguous |
| MessagesConverter.StringContentIdentity | converters/messages_converter.py:34-39 | a message with string content becomes, at the position after everything its predecessors produced, exactly the message with the same role, identical text, and no `tool_calls` or `tool_call_id` |
| MessagesConverter.ToolMessageAnswersResult | converters/messages_converter.py:75-89 | in a user message the tool_result at block j gives the tool message whose index is the number of tool_results before j, so the k-th tool message answers the k-th result |
| MessagesConverter.ToolCallFollowsUse | converters/messages_converter.py:49-61 | an assistant message with a tool_use at block j gives one message whose call at the index equal to the number of tool_uses before j is that block's call |
| MessagesConverter.ConvertEach | converters/messages_converter.py:26-99 | no messages give no output, and no conversation message produces a system message |
| MessagesConverter.SystemMessageIffPrompt | converters/messages_converter.py:20-24 | the output holds a system message if and only if the system prompt is non-empty, and then it is first and carries the prompt |
| MessagesConverter.ConvertMessagesWellFormed | converters/messages_converter.py:17-99 | every output message has `tool_call_id` exactly when it is a tool message, `tool_calls` only on assistant messages and never empty, and null content only beside tool calls |
| MessagesConverter.ConvertEachIds | converters/messages_converter.py:53-78 | when every tool id of the input starts with `toolu_`, every tool id of the output starts with `call_` |
| MessagesConverter.ToolUseRoundTrip | converters/messages_converter.py:51-61 | a tool_use sent as a tool call and read back by the tool converter is the original block, given an Anthropic-namespace id and decoding that undoes encoding |
| MessagesConverter.JoinedTextSplitsBack | converters/messages_converter.py:93 | the space-joined text splits back into the blocks' texts when none of them contains a space |
| ResponseConverter.ContentOf | converters/response_converter.py:17-29 | a text block first exactly when the content is non-empty, then one tool_use block per tool call in order; the length is that count |
| ResponseConverter.CallsOf | converters/response_converter.py:27-29 | absent tool calls give none and present ones are taken in the order given |
| ResponseConverter.ConvertResponse | converters/response_converter.py:13-56 | no choices or no usage is an error; otherwise the id is `msg_` + id, type `message`, role `assistant`, content from the first choice, model defaulting to `unknown`, the translated stop reason, usage copied exactly |
| ResponseConverter.OnlyFirstChoiceMatters | converters/response_converter.py:13-14 | responses that agree on the first choice and the other fields convert identically whatever further choices they carry |
| ResponseConverter.RequestIdIgnored | converters/response_converter.py:8 | the original request id has no effect on the result |
| ResponseConverter.MissingFinishReasonIsEndTurn | converters/response_converter.py:39-42 | a missing finish reason reads as `end_turn` |
| ResponseConverter.PlainAnswerExample | converters/response_converter.py:13-56 | a plain text answer with id `abc` becomes message `msg_abc` with one text block, `end_turn` and usage 10/2 |
| RequestConverter.DeploymentFor | converters/request_converter.py:16-17 | a mapped model gives its deployment, any other model `gpt-4o-mini` |
| RequestConverter.ConvertTools | converters/request_converter.py:35-42 | each declaration is converted, same length and order |
| RequestConverter.ConvertRequest | converters/request_converter.py:16-66 | model from the mapping, messages from the message converter, max_tokens and stream copied; temperature and top_p present iff given; tools present iff the list is non-empty and then converted in order with `tool_choice: auto`; stop present iff the list is non-empty and then copied |
| RequestConverter.ToolNamesPreserved | converters/request_converter.py:35-42 | each declared tool reaches OpenAI under its own name, in declaration order |
| RequestConverter.UnmappedModelUsesDefault | converters/request_converter.py:17 | with a one-entry mapping, only the mapped model avoids the default deployment |
| StreamingConverter.Classify | converters/streaming_converter.py:30-37 | blank lines and `:` lines are skipped, a `data: ` line whose stripped payload is `[DONE]` ends the stream, any other `data: ` line is a frame whose payload is decoded, and anything else is skipped |
| StreamingConverter.TextEvents | converters/streaming_converter.py:69-78 | non-empty text gives a delta carrying it, preceded by a text block start exactly when no block is open; empty text gives nothing |
| StreamingConverter.FirstNamedCall | converters/streaming_converter.py:82-84 | the index of the first tool-call fragment with a non-empty name, or none when no fragment has one |
| StreamingConverter.ToolEvents | converters/streaming_converter.py:81-90 | with no block open, the first name-bearing fragment opens a tool_use block with the rewritten id and its name; otherwise nothing |
| StreamingConverter.FinishEvents | converters/streaming_converter.py:93-108 | a non-empty finish reason gives a block stop when the flag is set, then a message_delta with the translated reason |
| StreamingConverter.FrameStep | converters/streaming_converter.py:52-112 | the message id is captured from the first decoded frame even when it has no `choices[0]`, which then emits nothing and leaves the flags alone; otherwise the message is started and message_start comes first |
| StreamingConverter.Step | converters/streaming_converter.py:29-112 | after `[DONE]` nothing happens; skipped lines and undecodable frames change nothing; `[DONE]` emits the optional block stop, an `end_turn` message_delta and message_stop; the id and the two flags, once set, stay set |
| StreamingConverter.DoneEvents | converters/streaming_converter.py:39-49 | `[DONE]` gives three events when a block is open, the first a block stop, and two otherwise; the last two are an `end_turn` message_delta and message_stop |
| StreamingConverter.MessageIdOf | converters/streaming_converter.py:56-57 | the message id is `msg_` followed by the frame's id, or by `unknown` when the frame has none |
| StreamingConverter.StepWith | converters/streaming_converter.py:29-112 | after the stop nothing changes; skipped lines change nothing; `[DONE]` stops the loop and no other line does; the id is kept once captured and the started flag stays set; an open block implies a started message and a started message a captured id |
| StreamingConverter.RunWith | converters/streaming_converter.py:29-112 | the fold has stopped exactly when a `[DONE]` line was read; an open block implies a started message, and a started message a captured id |
| StreamingConverter.Run | converters/streaming_converter.py:29-112 | the same for the re-framer as written: stopped exactly when `[DONE]` was read, open block only within a started message, which has an id |
| StreamingConverter.ConvertStream | converters/streaming_converter.py:5-112 | the output has two chunks per emitted event |
| StreamingConverter.Payload | converters/streaming_converter.py:41-108 | every data object's `type` is the event's name and every block event names index 0; `StreamingProperties.PayloadReadsBack` shows the object carries all of the event's values |
| StreamingProperties.PayloadReadsBack | converters/streaming_converter.py:41-108 | reading a data object back (`StreamingConverter.EventOf`: the type, index 0, zero usage counts, and the id and model, block kind, tool_use id and name, delta text or stop reason) gives exactly the event it was written for |
| StreamingConverter.Render | converters/streaming_converter.py:40-108 | each event is written as the pair `event: <name>\n` then `data: <json>\n\n`, in order |
| StreamingProperties.StreamOrdering | converters/streaming_converter.py:63-90 | message_start and content_block_start are each emitted at most once; message_start is the first event, carries the captured id, and precedes every event other than the closing pair `[DONE]` emits |
| StreamingProperties.FinishedStays | converters/streaming_converter.py:50 | once stopped, later lines change neither the state nor the events |
| StreamingProperties.DoneEndsStream | converters/streaming_converter.py:37-50 | `[DONE]` appends the block stop (when the flag is set), an `end_turn` message_delta and message_stop, and nothing follows whatever lines come after |
| StreamingProperties.MessageIdFixed | converters/streaming_converter.py:56-57 | once captured, the message id never changes |
| StreamingProperties.MessageIdIsFirstFrameId | converters/streaming_converter.py:56-57 | the message id is `msg_` + the id (or `msg_unknown`) of the first frame that decodes before `[DONE]` |
| StreamingProperties.TextDeltasInOrder | converters/streaming_converter.py:69-78 | each non-empty text fragment before `[DONE]` is forwarded unchanged as exactly one content_block_delta, in input order, even after a tool_use block or a finish reason |
| StreamingProperties.FinishFrame | converters/streaming_converter.py:93-108 | a frame with a finish reason ends with a message_delta carrying the translated reason, preceded by a block stop exactly when the flag is set afterwards; the flag stays set |
| StreamingProperties.HelloStream | converters/streaming_converter.py:29-112 | frames "Hel", "lo", finish "stop" and `[DONE]` give message_start, block start, two deltas, block stop, message_delta, block stop, message_delta, message_stop |
| StreamingProperties.HelloStreamClosesTwice | converters/streaming_converter.py:39-96 | in that stream one block is opened and two block stops are emitted |
| StreamingProperties.CorrectedRunBalanced | converters/streaming_converter.py:39-96 | with the flag cleared when a finish reason closes the block, block stops never outnumber block starts, and after `[DONE]` they are equal |
| StreamingProperties.CorrectedHelloStream | converters/streaming_converter.py:29-112 | the corrected re-framer closes the worked stream's block once |
| StreamingProperties.IgnoredLineHasNoEffect | converters/streaming_converter.py:30-112 | removing a blank, comment, non-data or undecodable line anywhere changes neither the state nor the events |
| StreamingProperties.ConvertStreamShape | converters/streaming_converter.py:5-112 | once a frame is answered the output opens with `event: message_start`; after `[DONE]` it closes with `event: message_delta` then `event: message_stop`; with neither, nothing is written |
| StreamingProperties.SkippedLinesChangeNothing | converters/streaming_converter.py:30-112 | removing such an upstream line changes no chunk of the output |

## Left out

- HTTP routing, response wiring and error envelopes (`main.py`), the network client (`services/azure_client.py`), settings loading (`config.py`) and logging (`utils/logging.py`) are not part of this model; the model mapping is a parameter.
- JSON encoding and decoding are not modelled: `json.dumps` is an `Encoder` parameter, `json.loads` a `Decoder` parameter, and reading a stream frame as a chunk a `ChunkParser` parameter whose `None` is a decode error.
- Pydantic validation and defaults are not modelled; the datatypes follow the field shapes the converters read.
- Inputs of the wrong JSON type (a non-string id, `text: null`, a `tool_calls` entry that is not an object) make the Python code raise `TypeError` or `AttributeError`; the typed datatypes exclude them.
- A key present with value `null` and a missing key are both `None` in the model; for `.get(key, default)` the source distinguishes them (a `null` model name gives `None`, not `unknown`; a `null` chunk id gives `msg_None`).
- A text block without a `text` key reads as `""` in the source; the model's text blocks always carry their text, so such a block is a text block with empty text.
- Missing required keys are not modelled: the source reads `tu["id"]`, `tu["name"]`, `tu["input"]` (`converters/messages_converter.py:53-59`), `tr["tool_use_id"]` (line 78), a tool call's `id`, `function.arguments` and `function.name` (`converters/tools_converter.py:59-71`) and `azure_response["choices"]`, `choice["message"]`, `usage["prompt_tokens"]` and `usage["completion_tokens"]` (`converters/response_converter.py:13-54`) without a default and raises `KeyError`, which the HTTP layer turns into a 500; the datatypes make these fields mandatory, so the model has no such error path.
- JSON numbers are integers (`JNumber(n: int)`); floating-point values are not modelled, since the converters only pass JSON values through `json.dumps` and `json.loads`.
- A tool_result whose content is a string is `ResultText`, kept as it is; `ResultValue` stands for any other JSON value, which the source serialises. The datatype does not forbid `ResultValue(JString(s))`, but no input reads that way: a string content is always `ResultText`.
- `temperature` and `top_p` are `real` values passed through unchanged; floating point is not modelled.
- The asynchronous upstream iterator is a finite sequence of lines; cancellation and upstream errors are not modelled.
- StreamingConverter.ToolEvents: tool-call argument fragments are never streamed by the source, so the model emits no input deltas either; only the block start is modelled.
- ResponseConverter.ConvertResponse: an empty `choices` list and a missing `usage` are failures of the result instead of raised exceptions, and a missing response `id` is excluded by the type.

## Findings

| source | as written | input that shows it | evidently intended | confidence | as-written member | corrected member |
|---|---|---|---|---|---|---|
| converters/streaming_converter.py:93-96 | after emitting `content_block_stop` at a finish reason the block flag stays set, so `[DONE]` (lines 39-41) emits a second `content_block_stop` for the same block | frames "Hel" (id `x1`), "lo", a frame with finish reason `stop`, then `data: [DONE]` | each content block is stopped exactly once: clear the flag when the finish reason closes the block | medium, not executed | StreamingProperties.HelloStreamClosesTwice | StreamingProperties.CorrectedRunBalanced |

The as-written behaviour is `StreamingConverter.Run` (the fold with
`closeAtFinish == false`), which `StreamingConverter.ConvertStream` uses; the
corrected behaviour is `StreamingConverter.RunWith` with `closeAtFinish == true`.
