/** The Anthropic Messages adapter (src/lib/anthropic-compat-adapter.ts):
    the request body `chatStream` sends, the event machine of
    `processStream`, the outcome of a whole `chatStream` call, and
    `convertMessages`.

    The network is an input: the response is given as its status, or as the
    decoded pieces of its body. `JSON.parse` of event payloads is an input
    `decode` that yields the loosely typed event record the code reads
    (absent string fields as "", absent numbers as None or 0). */
module AnthropicAdapter {
  import opened Common
  import opened Json
  import opened StreamProcessor
  import opened Chunks
  import opened MessageUtils
  import opened AdapterUtils

  // ---------------------------------------------------------------------
  // Request
  // ---------------------------------------------------------------------

  const ThinkingBudget: int := 10000
  const DefaultBaseUrl: string := "https://api.anthropic.com"

  /** The model name, lower-cased, contains "think". */
  predicate IsThinkingModel(model: string) {
    Includes(ToLower(model), "think")
  }

  /** `n || fallback` for an optional count: absent and 0 both fall back. */
  function CountOr(n: Option<int>, fallback: int): (r: int)
    ensures n.Some? && n.value != 0 ==> r == n.value
    ensures n.None? || n.value == 0 ==> r == fallback
  {
    if n.Some? && n.value != 0 then n.value else fallback
  }

  /** `max_tokens`: for a thinking model at least 16000 by default and never
      below budget + 1000, so always above the thinking budget; otherwise the
      requested count or 8192. */
  function MaxTokens(model: string, requested: Option<int>): (r: int)
    ensures IsThinkingModel(model) ==> r > ThinkingBudget
    ensures IsThinkingModel(model) ==> r >= CountOr(requested, 16000) && r >= ThinkingBudget + 1000
    ensures IsThinkingModel(model) ==> r == CountOr(requested, 16000) || r == ThinkingBudget + 1000
    ensures !IsThinkingModel(model) ==> r == CountOr(requested, 8192)
  {
    if IsThinkingModel(model) then
      var wanted := CountOr(requested, 16000);
      if wanted >= ThinkingBudget + 1000 then wanted else ThinkingBudget + 1000
    else CountOr(requested, 8192)
  }

  function RequestUrl(baseUrl: string): string {
    (if baseUrl != "" then baseUrl else DefaultBaseUrl) + "/v1/messages"
  }

  datatype ThinkingConfig = ThinkingConfig(kind: string, budgetTokens: int)

  datatype AnthropicTool = AnthropicTool(name: string, description: string, inputSchema: JsonValue)

  /** `{type: "object", properties: {}, required: []}` */
  const DefaultInputSchema: JsonValue :=
    JObject(map["type" := JString("object"), "properties" := JObject(map[]), "required" := JArray([])])

  function ToolOf(t: ToolSpec): AnthropicTool {
    AnthropicTool(t.name, t.description, if t.inputSchema.Some? then t.inputSchema.value else DefaultInputSchema)
  }

  datatype AnthropicBlock =
    | ThinkingBlock(thinking: string, signature: string)
    | TextBlock(text: string)
    | ToolUseBlock(id: string, name: string, input: JsonValue)
    | ToolResultBlock(toolUseId: string, content: string)

  datatype AnthropicContent = PlainContent(text: string) | BlockContent(blocks: seq<AnthropicBlock>)

  datatype AnthropicRole = UserRole | AssistantRole

  datatype AnthropicMessage = AnthropicMessage(role: AnthropicRole, content: AnthropicContent)

  datatype MessagesRequest = MessagesRequest(
    model: string,
    messages: seq<AnthropicMessage>,
    maxTokens: int,
    stream: bool,
    system: Option<string>,
    thinking: Option<ThinkingConfig>,
    tools: Option<seq<AnthropicTool>>,
    temperature: Option<real>)

  /** The body `chatStream` posts for already converted messages. */
  function BuildRequest(options: TextOptions, messages: seq<AnthropicMessage>): (r: MessagesRequest)
    ensures r.model == options.model && r.messages == messages && r.stream
    ensures r.maxTokens == MaxTokens(options.model, options.maxTokens)
    ensures r.thinking.Some? <==> IsThinkingModel(options.model)
    ensures r.thinking.Some? ==>
      (r.thinking.value == ThinkingConfig("enabled", ThinkingBudget) && r.maxTokens > r.thinking.value.budgetTokens)
    ensures r.system.Some? <==> |options.systemPrompts| > 0
    ensures r.system.Some? ==> r.system.value == Join(options.systemPrompts, "\n")
    ensures r.tools.Some? <==> |options.tools| > 0
    ensures r.tools.Some? ==> |r.tools.value| == |options.tools|
    ensures r.tools.Some? ==> forall i :: 0 <= i < |options.tools| ==>
      (r.tools.value[i].name == options.tools[i].name
       && r.tools.value[i].description == options.tools[i].description
       && r.tools.value[i].inputSchema == (if options.tools[i].inputSchema.Some? then options.tools[i].inputSchema.value else DefaultInputSchema))
    ensures r.temperature == options.temperature
  {
    var thinkingOn := IsThinkingModel(options.model);
    MessagesRequest(
      options.model,
      messages,
      MaxTokens(options.model, options.maxTokens),
      true,
      if |options.systemPrompts| > 0 then Some(Join(options.systemPrompts, "\n")) else None,
      if thinkingOn then Some(ThinkingConfig("enabled", ThinkingBudget)) else None,
      if |options.tools| > 0 then Some(seq(|options.tools|, i requires 0 <= i < |options.tools| => ToolOf(options.tools[i]))) else None,
      options.temperature)
  }

  // ---------------------------------------------------------------------
  // Stream events
  // ---------------------------------------------------------------------

  datatype BlockStart = BlockStart(kind: string, id: string, name: string)

  datatype EventDelta = EventDelta(kind: string, text: string, thinking: string, signature: string, partialJson: string)

  /** Token counts, 0 where absent. */
  datatype TokenUsage = TokenUsage(inputTokens: int, outputTokens: int)

  /** One parsed event. `messageId` is the id of `message` when that is
      present, `index` is None when absent or null. */
  datatype StreamEvent = StreamEvent(
    kind: string,
    index: Option<int>,
    contentBlock: Option<BlockStart>,
    delta: Option<EventDelta>,
    messageId: Option<string>,
    usage: Option<TokenUsage>)

  /** What parsing one payload gives: a failure (skipped), `null` (reading its
      `type` throws, which ends the stream), or an event. */
  datatype Payload = Unparsable | NullPayload | EventPayload(event: StreamEvent)

  type EventDecoder = string -> Payload

  /** The message of the TypeError thrown by reading `type` of `null`. */
  const NullEventMessage: string := "Cannot read properties of null (reading 'type')"

  datatype StreamState = StreamState(
    responseId: string,
    content: string,
    thinking: string,
    signature: string,
    toolCalls: map<int, ToolCallEntry>,
    blockIndex: int,
    blockType: string)

  const InitialState: StreamState := StreamState("", "", "", "", map[], -1, "")

  /** The effect of one event: the new state and the chunks it emits. */
  function Step(s: StreamState, e: StreamEvent, model: string, timestamp: int): (StreamState, seq<StreamChunk>) {
    var ctx := ChunkContext(s.responseId, model, timestamp);
    if e.kind == "message_start" && e.messageId.Some? then
      (s.(responseId := e.messageId.value), [])
    else if e.kind == "content_block_start" && e.contentBlock.Some? then
      var block := e.contentBlock.value;
      var index := if e.index.Some? then e.index.value else -1;
      var s1 := s.(blockIndex := index, blockType := block.kind);
      if block.kind == "thinking" then (s1.(thinking := "", signature := ""), [])
      else if block.kind == "tool_use" then
        (s1.(toolCalls := s.toolCalls[index := ToolCallEntry(block.id, block.name, "")]), [])
      else (s1, [])
    else if e.kind == "content_block_delta" && e.delta.Some? then
      var d := e.delta.value;
      if d.kind == "thinking_delta" && d.thinking != "" then
        var total := s.thinking + d.thinking;
        (s.(thinking := total), [ThinkingChunk(ctx, Some(d.thinking), total, None, None)])
      else if d.kind == "signature_delta" && d.signature != "" then
        (s.(signature := d.signature), [])
      else if d.kind == "text_delta" && d.text != "" then
        var total := s.content + d.text;
        (s.(content := total), [ContentChunk(ctx, d.text, total, "assistant")])
      else if d.kind == "input_json_delta" && d.partialJson != "" then
        if s.blockIndex in s.toolCalls then
          var call := s.toolCalls[s.blockIndex];
          (s.(toolCalls := s.toolCalls[s.blockIndex := call.(arguments := call.arguments + d.partialJson)]), [])
        else (s, [])
      else (s, [])
    else if e.kind == "content_block_stop" then
      if s.blockType == "thinking" && s.signature != "" then
        (s, [ThinkingChunk(ctx, None, s.thinking, Some(s.signature), Some(true))])
      else if s.blockType == "tool_use" && s.blockIndex in s.toolCalls then
        var call := s.toolCalls[s.blockIndex];
        (s, [ToolCallChunk(ctx, s.blockIndex, ToolCallPayload(call.id, "function", call.name, call.arguments))])
      else (s, [])
    else if e.kind == "message_delta" then
      (s, [])
    else if e.kind == "message_stop" then
      var input := if e.usage.Some? then e.usage.value.inputTokens else 0;
      var output := if e.usage.Some? then e.usage.value.outputTokens else 0;
      (s, [DoneChunk(ctx, Usage(input, output, input + output), if |s.toolCalls| > 0 then ToolCalls else Stop)])
    else (s, [])
  }

  /** The events in order, from the initial state: the final state and all
      chunks emitted. */
  function RunEvents(events: seq<StreamEvent>, model: string, timestamp: int): (StreamState, seq<StreamChunk>)
    decreases |events|
  {
    if |events| == 0 then (InitialState, [])
    else
      var before := RunEvents(events[..|events| - 1], model, timestamp);
      var after := Step(before.0, events[|events| - 1], model, timestamp);
      (after.0, before.1 + after.1)
  }

  /** What one complete line contributes: nothing, an event, or the
      TypeError of a `null` payload. */
  datatype LineOutcome = Skip | Event(event: StreamEvent) | Crash

  function LineOutcomeOf(line: string, decode: EventDecoder): LineOutcome {
    if !StartsWith(line, DataPrefix) then Skip
    else
      var data := line[6..];
      if data == DoneSentinel then Skip
      else match decode(data)
        case Unparsable => Skip
        case NullPayload => Crash
        case EventPayload(e) => Event(e)
  }

  /** The events of the lines up to the first `null` payload, and whether
      there was one. */
  function DecodeLines(lines: seq<string>, decode: EventDecoder): (seq<StreamEvent>, bool)
    decreases |lines|
  {
    if |lines| == 0 then ([], false)
    else
      var before := DecodeLines(lines[..|lines| - 1], decode);
      if before.1 then before
      else match LineOutcomeOf(lines[|lines| - 1], decode)
        case Skip => before
        case Crash => (before.0, true)
        case Event(e) => (before.0 + [e], false)
  }

  lemma DecodeLinesSnoc(lines: seq<string>, line: string, decode: EventDecoder)
    ensures var before := DecodeLines(lines, decode);
      DecodeLines(lines + [line], decode) ==
        if before.1 then before
        else match LineOutcomeOf(line, decode)
          case Skip => before
          case Crash => (before.0, true)
          case Event(e) => (before.0 + [e], false)
  {
    assert (lines + [line])[..|lines|] == lines;
  }

  lemma RunEventsSnoc(events: seq<StreamEvent>, e: StreamEvent, model: string, timestamp: int)
    ensures var before := RunEvents(events, model, timestamp);
      var after := Step(before.0, e, model, timestamp);
      RunEvents(events + [e], model, timestamp) == (after.0, before.1 + after.1)
  {
    assert (events + [e])[..|events|] == events;
  }

  /** One complete line of a read: decoded, and its event fed to the machine
      unless an earlier `null` payload already ended the stream. */
  method FeedLine(line: string, decode: EventDecoder, model: string, timestamp: int,
                  ghost seen: seq<string>, ghost events0: seq<StreamEvent>,
                  state0: StreamState, chunks0: seq<StreamChunk>, crashed0: bool)
    returns (ghost events: seq<StreamEvent>, state: StreamState, chunks: seq<StreamChunk>, crashed: bool)
    requires (events0, crashed0) == DecodeLines(seen, decode)
    requires (state0, chunks0) == RunEvents(events0, model, timestamp)
    ensures (events, crashed) == DecodeLines(seen + [line], decode)
    ensures (state, chunks) == RunEvents(events, model, timestamp)
  {
    events, state, chunks, crashed := events0, state0, chunks0, crashed0;
    DecodeLinesSnoc(seen, line, decode);
    if !crashed {
      match LineOutcomeOf(line, decode) {
        case Skip =>
        case Crash =>
          crashed := true;
        case Event(e) =>
          RunEventsSnoc(events, e, model, timestamp);
          var next := Step(state, e, model, timestamp);
          events := events + [e];
          state := next.0;
          chunks := chunks + next.1;
      }
    }
  }

  /** The inner loop of `processStream`: the complete lines of one read. */
  method FeedLines(lines: seq<string>, decode: EventDecoder, model: string, timestamp: int,
                   ghost seen: seq<string>, ghost events0: seq<StreamEvent>,
                   state0: StreamState, chunks0: seq<StreamChunk>, crashed0: bool)
    returns (ghost events: seq<StreamEvent>, state: StreamState, chunks: seq<StreamChunk>, crashed: bool)
    requires (events0, crashed0) == DecodeLines(seen, decode)
    requires (state0, chunks0) == RunEvents(events0, model, timestamp)
    ensures (events, crashed) == DecodeLines(seen + lines, decode)
    ensures (state, chunks) == RunEvents(events, model, timestamp)
  {
    events, state, chunks, crashed := events0, state0, chunks0, crashed0;
    var j := 0;
    assert seen + lines[..0] == seen;
    while j < |lines|
      invariant 0 <= j <= |lines|
      invariant (events, crashed) == DecodeLines(seen + lines[..j], decode)
      invariant (state, chunks) == RunEvents(events, model, timestamp)
    {
      events, state, chunks, crashed := FeedLine(lines[j], decode, model, timestamp,
                                                 seen + lines[..j], events, state, chunks, crashed);
      AppendTakeSnoc(seen, lines, j);
      j := j + 1;
    }
    assert lines[..j] == lines;
  }

  /** `processStream`: the read loop with its own line framing, feeding
      each event to the machine. Returns the emitted chunks and whether a
      `null` payload ended the stream with a TypeError. */
  method ProcessStream(pieces: seq<string>, decode: EventDecoder, model: string, timestamp: int)
    returns (chunks: seq<StreamChunk>, crashed: bool)
    ensures var decoded := DecodeLines(CompleteLines(pieces), decode);
      crashed == decoded.1 && chunks == RunEvents(decoded.0, model, timestamp).1
  {
    var buffer := "";
    var state := InitialState;
    chunks := [];
    crashed := false;
    ghost var events: seq<StreamEvent> := [];
    ghost var seen: seq<string> := [];
    var i := 0;
    while i < |pieces|
      invariant 0 <= i <= |pieces|
      invariant seen == FrameFrom("", pieces[..i]).0 && buffer == FrameFrom("", pieces[..i]).1
      invariant (events, crashed) == DecodeLines(seen, decode)
      invariant (state, chunks) == RunEvents(events, model, timestamp)
    {
      buffer := buffer + pieces[i];
      var parts := Split(buffer);
      var lines := AllButLast(parts);
      buffer := Last(parts);
      events, state, chunks, crashed := FeedLines(lines, decode, model, timestamp, seen, events, state, chunks, crashed);
      FrameFromSnoc("", pieces[..i], pieces[i]);
      TakeSnoc(pieces, i);
      seen := seen + lines;
      i := i + 1;
    }
    assert pieces[..i] == pieces;
    FrameFromIsSplit("", pieces);
    assert "" + Concat(pieces) == Concat(pieces);
  }

  // ---------------------------------------------------------------------
  // Properties of the event machine
  // ---------------------------------------------------------------------

  /** The chunks of one event: at most one, shaped as its builder makes it,
      never an error chunk; the content accumulator grows by exactly the
      content delta emitted, and a content chunk carries the new total. */
  lemma StepProperties(s: StreamState, e: StreamEvent, model: string, timestamp: int)
    ensures var (s2, out) := Step(s, e, model, timestamp);
      && |out| <= 1
      && (forall c :: c in out ==> BuilderShaped(c) && !c.ErrorChunk? && c.ctx == ChunkContext(s.responseId, model, timestamp))
      && s2.content == s.content + ContentDeltas(out)
      && (forall c :: c in out && c.ContentChunk? ==> c.content == s2.content && c.delta != "")
  {
    var ctx := ChunkContext(s.responseId, model, timestamp);
    if e.kind == "content_block_delta" {
      DeltaStepOutcome(s, e, model, timestamp);
    } else if e.kind == "content_block_stop" || e.kind == "message_stop" {
      StopStepOutcome(s, e, model, timestamp);
    } else {
      OtherStepOutcome(s, e, model, timestamp);
    }
  }

  /** What `StepProperties` states about one step's result. */
  predicate StepOutcome(s: StreamState, r: (StreamState, seq<StreamChunk>), ctx: ChunkContext) {
    && |r.1| <= 1
    && (forall c :: c in r.1 ==> BuilderShaped(c) && !c.ErrorChunk? && c.ctx == ctx)
    && r.0.content == s.content + ContentDeltas(r.1)
    && (forall c :: c in r.1 && c.ContentChunk? ==> c.content == r.0.content && c.delta != "")
  }

  lemma DeltaStepOutcome(s: StreamState, e: StreamEvent, model: string, timestamp: int)
    requires e.kind == "content_block_delta"
    ensures StepOutcome(s, Step(s, e, model, timestamp), ChunkContext(s.responseId, model, timestamp))
  {
    var (s2, out) := Step(s, e, model, timestamp);
    if |out| == 1 {
      assert out[..0] == [];
    }
  }

  lemma StopStepOutcome(s: StreamState, e: StreamEvent, model: string, timestamp: int)
    requires e.kind == "content_block_stop" || e.kind == "message_stop"
    ensures StepOutcome(s, Step(s, e, model, timestamp), ChunkContext(s.responseId, model, timestamp))
  {
    var (s2, out) := Step(s, e, model, timestamp);
    if |out| == 1 {
      assert out[..0] == [];
    }
  }

  lemma OtherStepOutcome(s: StreamState, e: StreamEvent, model: string, timestamp: int)
    requires e.kind != "content_block_delta" && e.kind != "content_block_stop" && e.kind != "message_stop"
    ensures StepOutcome(s, Step(s, e, model, timestamp), ChunkContext(s.responseId, model, timestamp))
  {
    assert Step(s, e, model, timestamp).1 == [];
  }

  /** Over a whole run, every chunk is builder-shaped and none is an error
      chunk, the content accumulator is the concatenation of the emitted
      content deltas, and each content chunk carries the running total. */
  lemma {:induction false} RunProperties(events: seq<StreamEvent>, model: string, timestamp: int)
    ensures var (s, out) := RunEvents(events, model, timestamp);
      && (forall c :: c in out ==> BuilderShaped(c) && !c.ErrorChunk?)
      && s.content == ContentDeltas(out)
      && ContentIsRunningTotal(out)
    decreases |events|
  {
    if |events| > 0 {
      var init := events[..|events| - 1];
      RunProperties(init, model, timestamp);
      var (s0, before) := RunEvents(init, model, timestamp);
      StepProperties(s0, events[|events| - 1], model, timestamp);
      var (s1, out) := Step(s0, events[|events| - 1], model, timestamp);
      ContentDeltasAppend(before, out);
      ContentRunningExtend(before, out);
    }
  }

  /** The index a `content_block_start` of a tool_use block records, if `e` is one. */
  function ToolUseStart(e: StreamEvent): Option<int> {
    if e.kind == "content_block_start" && e.contentBlock.Some? && e.contentBlock.value.kind == "tool_use" then
      Some(if e.index.Some? then e.index.value else -1)
    else None
  }

  function StartedToolIndices(events: seq<StreamEvent>): set<int>
    decreases |events|
  {
    if |events| == 0 then {}
    else
      var last := events[|events| - 1];
      StartedToolIndices(events[..|events| - 1]) + (if ToolUseStart(last).Some? then {ToolUseStart(last).value} else {})
  }

  /** The tool calls held are exactly those whose tool_use block was started. */
  lemma {:induction false} ToolCallsAreStartedBlocks(events: seq<StreamEvent>, model: string, timestamp: int)
    ensures RunEvents(events, model, timestamp).0.toolCalls.Keys == StartedToolIndices(events)
    decreases |events|
  {
    if |events| > 0 {
      var init := events[..|events| - 1];
      ToolCallsAreStartedBlocks(init, model, timestamp);
      StepToolKeys(RunEvents(init, model, timestamp).0, events[|events| - 1], model, timestamp);
    }
  }

  lemma StepToolKeys(s: StreamState, e: StreamEvent, model: string, timestamp: int)
    ensures Step(s, e, model, timestamp).0.toolCalls.Keys
      == s.toolCalls.Keys + (if ToolUseStart(e).Some? then {ToolUseStart(e).value} else {})
  {
  }

  /** `message_stop` emits one done chunk whose total is input + output
      (absent counts 0) and whose finish reason is "tool_calls" exactly when
      some tool_use block was started earlier in the response. */
  lemma {:induction false} DoneAfterEvents(events: seq<StreamEvent>, e: StreamEvent, model: string, timestamp: int)
    requires e.kind == "message_stop"
    ensures var s := RunEvents(events, model, timestamp).0;
      var input := if e.usage.Some? then e.usage.value.inputTokens else 0;
      var output := if e.usage.Some? then e.usage.value.outputTokens else 0;
      Step(s, e, model, timestamp).1 == [BuildDoneChunk(ChunkContext(s.responseId, model, timestamp), input, output,
        if StartedToolIndices(events) != {} then ToolCalls else Stop)]
  {
    ToolCallsAreStartedBlocks(events, model, timestamp);
    var s := RunEvents(events, model, timestamp).0;
    StepMessageStop(s, e, model, timestamp);
    assert |s.toolCalls| == |s.toolCalls.Keys|;
    assert |StartedToolIndices(events)| > 0 <==> StartedToolIndices(events) != {};
  }

  lemma StepMessageStop(s: StreamState, e: StreamEvent, model: string, timestamp: int)
    requires e.kind == "message_stop"
    ensures var input := if e.usage.Some? then e.usage.value.inputTokens else 0;
      var output := if e.usage.Some? then e.usage.value.outputTokens else 0;
      Step(s, e, model, timestamp) == (s, [BuildDoneChunk(ChunkContext(s.responseId, model, timestamp), input, output,
        if |s.toolCalls| > 0 then ToolCalls else Stop)])
  {
  }

  /** The inline tool-call rules agree with the shared accumulator: a
      tool_use start replaces the entry as a first `update` with the block's
      id and name would create it, and a non-empty `input_json_delta` on an
      existing entry is an `update` with that argument fragment. */
  lemma InlineToolRulesAgree(calls: map<int, ToolCallEntry>, index: int, id: string, name: string, fragment: string)
    ensures calls[index := ToolCallEntry(id, name, "")] == UpdatedCalls(calls - {index}, index, ToolCallPartial(id, name, ""))
    ensures index in calls ==>
      calls[index := calls[index].(arguments := calls[index].arguments + fragment)]
        == UpdatedCalls(calls, index, ToolCallPartial("", "", fragment))
  {
    if index in calls && fragment == "" {
      assert calls[index].arguments + fragment == calls[index].arguments;
    }
  }

  // ---------------------------------------------------------------------
  // A whole chatStream call
  // ---------------------------------------------------------------------

  /** The provider's answer: the fetch rejected, a non-ok status with its
      text, no body, or a body read as pieces that may end with a failed read. */
  datatype HttpResponse =
    | FetchRejected(error: Thrown)
    | HttpFailure(status: nat, text: string)
    | MissingBody
    | Streamed(pieces: seq<string>, readFailure: Option<Thrown>)

  const LogPrefix: string := "Anthropic"

  /** `chatStream` for given options and provider response. `errorId` is what
      `generateId()` returns and `timestamp` what `Date.now()` returns.
      Converting the messages happens before the `try`: when it throws, the
      generator throws without yielding. */
  function ChatStream(options: TextOptions, response: HttpResponse, parse: Parser,
                      stringify: MessageContent -> string, decode: EventDecoder,
                      errorId: string, timestamp: int): ChatRun
  {
    var errorCtx := ChunkContext(errorId, options.model, timestamp);
    match Convert(options, parse, stringify)
    case None => ChatRun([], None, true)
    case Some(_) =>
      match response
      case FetchRejected(e) => Caught(LogPrefix, [], e, errorCtx)
      case HttpFailure(status, text) => Caught(LogPrefix, [], ErrorObject("Error", NatToString(status) + " " + text), errorCtx)
      case MissingBody => Caught(LogPrefix, [], ErrorObject("Error", "No response body"), errorCtx)
      case Streamed(pieces, readFailure) =>
        var decoded := DecodeLines(CompleteLines(pieces), decode);
        var yielded := RunEvents(decoded.0, options.model, timestamp).1;
        if decoded.1 then Caught(LogPrefix, yielded, ErrorObject("TypeError", NullEventMessage), errorCtx)
        else if readFailure.Some? then Caught(LogPrefix, yielded, readFailure.value, errorCtx)
        else ChatRun(yielded, None, false)
  }

  /** The error the `try` block of a call ends with, if any: a rejected
      fetch, a non-2xx status as "<status> <body text>", a missing body, a
      `null` payload's TypeError, or a failed read. */
  function FailureOf(response: HttpResponse, decode: EventDecoder): Option<Thrown> {
    match response
    case FetchRejected(e) => Some(e)
    case HttpFailure(status, text) => Some(ErrorObject("Error", NatToString(status) + " " + text))
    case MissingBody => Some(ErrorObject("Error", "No response body"))
    case Streamed(pieces, readFailure) =>
      if DecodeLines(CompleteLines(pieces), decode).1 then Some(ErrorObject("TypeError", NullEventMessage))
      else readFailure
  }

  /** A call whose messages fail to convert rejects before yielding anything.
      Otherwise it yields an error chunk exactly when the request or the
      stream failed: then exactly one, last, carrying the Error's message,
      with the log line `logAdapterError` would write; a value thrown that
      is not an Error makes the generator itself reject. */
  lemma ErrorChunkIffFailure(options: TextOptions, response: HttpResponse, parse: Parser,
                             stringify: MessageContent -> string, decode: EventDecoder,
                             errorId: string, timestamp: int)
    ensures var run := ChatStream(options, response, parse, stringify, decode, errorId, timestamp);
      var failure := FailureOf(response, decode);
      && (Convert(options, parse, stringify).None? ==> run.rejected && run.chunks == [] && run.logged.None?)
      && (Convert(options, parse, stringify).Some? ==>
            && (run.rejected <==> failure.Some? && failure.value.NonError?)
            && (failure.None? ==> ErrorCount(run.chunks) == 0 && run.logged.None?)
            && (failure.Some? && failure.value.ErrorObject? ==>
                  && ErrorCount(run.chunks) == 1
                  && run.chunks[|run.chunks| - 1] == ErrorChunk(ChunkContext(errorId, options.model, timestamp), failure.value.message)
                  && run.logged == LogAdapterError(LogPrefix, failure.value)))
  {
    if Convert(options, parse, stringify).Some? {
      var run := ChatStream(options, response, parse, stringify, decode, errorId, timestamp);
      var events := if response.Streamed? then DecodeLines(CompleteLines(response.pieces), decode).0 else [];
      var yielded := RunEvents(events, options.model, timestamp).1;
      RunProperties(events, options.model, timestamp);
      NoErrorsCountZero(yielded);
      RunEndsAsFailure(LogPrefix, yielded, FailureOf(response, decode), run, ChunkContext(errorId, options.model, timestamp));
    }
  }

  /** Every caught Error ends the stream with exactly one error chunk, after
      the chunks the events produced and carrying the Error's message; a
      cancellation only suppresses the log line. */
  lemma ErrorChunkEndsStream(events: seq<StreamEvent>, e: Thrown, model: string, timestamp: int, errorCtx: ChunkContext)
    requires e.ErrorObject?
    ensures var yielded := RunEvents(events, model, timestamp).1;
      var run := Caught(LogPrefix, yielded, e, errorCtx);
      && !run.rejected
      && ErrorCount(yielded) == 0
      && run.chunks == yielded + [ErrorChunk(errorCtx, e.message)]
      && ErrorCount(run.chunks) == 1
      && run.logged == LogAdapterError(LogPrefix, e)
  {
    var yielded := RunEvents(events, model, timestamp).1;
    RunProperties(events, model, timestamp);
    NoErrorsCountZero(yielded);
    CaughtErrorEndsStream(LogPrefix, yielded, e, errorCtx);
  }

  // ---------------------------------------------------------------------
  // convertMessages
  // ---------------------------------------------------------------------

  /** `Object.values(thinkingHistory)`, or [] without one. */
  function ThinkingItems(history: Option<seq<(string, ThinkingItem)>>): (r: seq<ThinkingItem>)
    ensures history.Some? ==> |r| == |history.value| && forall i :: 0 <= i < |r| ==> r[i] == history.value[i].1
    ensures history.None? ==> r == []
  {
    if history.None? then []
    else seq(|history.value|, i requires 0 <= i < |history.value| => history.value[i].1)
  }

  /** The tool_use blocks of an assistant message; None when the arguments
      of some call are a text that `JSON.parse` rejects. */
  function ToolUseBlocks(calls: seq<ToolCallRef>, parse: Parser): (r: Option<seq<AnthropicBlock>>)
    ensures r.Some? <==> forall j :: 0 <= j < |calls| && calls[j].arguments.ArgumentText? ==> parse(calls[j].arguments.text).Some?
    ensures r.Some? ==> forall j :: 0 <= j < |r.value| ==> r.value[j].ToolUseBlock?
    ensures r.Some? ==> |r.value| == |calls| && forall j :: 0 <= j < |calls| ==>
      r.value[j] == ToolUseBlock(calls[j].id, calls[j].name,
        match calls[j].arguments
        case ArgumentText(t) => parse(t).value
        case ArgumentValue(v) => v)
    decreases |calls|
  {
    if |calls| == 0 then Some([])
    else
      var last := calls[|calls| - 1];
      var input := match last.arguments
        case ArgumentText(t) => parse(t)
        case ArgumentValue(v) => Some(v);
      match ToolUseBlocks(calls[..|calls| - 1], parse)
      case None => None
      case Some(blocks) =>
        if input.None? then None else Some(blocks + [ToolUseBlock(last.id, last.name, input.value)])
  }

  /** One message of the input: the output so far, the thinking index, and
      the result (None when `JSON.parse` throws). */
  function ConvertOne(out: seq<AnthropicMessage>, k: nat, m: ModelMessage, items: seq<ThinkingItem>,
                      thinkingOn: bool, parse: Parser, stringify: MessageContent -> string): Option<(seq<AnthropicMessage>, nat)>
  {
    match m.role
    case User => Some((out + [AnthropicMessage(UserRole, PlainContent(ExtractContent(m.content)))], k))
    case Assistant =>
      var paired := thinkingOn && k < |items|;
      var thinking := if paired then [ThinkingBlock(items[k].thinking, items[k].signature)] else [];
      if |m.toolCalls| > 0 then
        match ToolUseBlocks(m.toolCalls, parse)
        case None => None
        case Some(uses) =>
          var text := if ContentTruthy(m.content) then [TextBlock(ExtractContent(m.content))] else [];
          Some((out + [AnthropicMessage(AssistantRole, BlockContent(thinking + text + uses))], k + 1))
      else if paired then
        Some((out + [AnthropicMessage(AssistantRole, BlockContent(thinking + [TextBlock(ExtractContent(m.content))]))], k + 1))
      else
        Some((out + [AnthropicMessage(AssistantRole, PlainContent(ExtractContent(m.content)))], k + 1))
    case Tool =>
      var result := ToolResultBlock(m.toolCallId, ToolResultContent(m.content, stringify));
      if |out| > 0 && out[|out| - 1].role == UserRole && out[|out| - 1].content.BlockContent? then
        var last := out[|out| - 1];
        Some((out[..|out| - 1] + [AnthropicMessage(UserRole, BlockContent(last.content.blocks + [result]))], k))
      else
        Some((out + [AnthropicMessage(UserRole, BlockContent([result]))], k))
    case OtherRole => Some((out, k))
  }

  function ConvertAll(msgs: seq<ModelMessage>, items: seq<ThinkingItem>, thinkingOn: bool,
                      parse: Parser, stringify: MessageContent -> string): Option<(seq<AnthropicMessage>, nat)>
    decreases |msgs|
  {
    if |msgs| == 0 then Some(([], 0))
    else match ConvertAll(msgs[..|msgs| - 1], items, thinkingOn, parse, stringify)
      case None => None
      case Some(done) => ConvertOne(done.0, done.1, msgs[|msgs| - 1], items, thinkingOn, parse, stringify)
  }

  function Convert(options: TextOptions, parse: Parser, stringify: MessageContent -> string): Option<seq<AnthropicMessage>> {
    match ConvertAll(options.messages, ThinkingItems(options.thinkingHistory), IsThinkingModel(options.model), parse, stringify)
    case None => None
    case Some(done) => Some(done.0)
  }

  /** The loop over one message's tool calls. */
  method ToolUses(calls: seq<ToolCallRef>, parse: Parser) returns (r: Option<seq<AnthropicBlock>>)
    ensures r == ToolUseBlocks(calls, parse)
  {
    var blocks: seq<AnthropicBlock> := [];
    var j := 0;
    while j < |calls|
      invariant 0 <= j <= |calls|
      invariant ToolUseBlocks(calls[..j], parse) == Some(blocks)
    {
      assert calls[..j + 1][..j] == calls[..j];
      var input := match calls[j].arguments
        case ArgumentText(t) => parse(t)
        case ArgumentValue(v) => Some(v);
      if input.None? {
        assert calls[..j + 1][j] == calls[j];
        ToolUseBlocksFails(calls, parse, j);
        return None;
      }
      blocks := blocks + [ToolUseBlock(calls[j].id, calls[j].name, input.value)];
      j := j + 1;
    }
    assert calls[..j] == calls;
    r := Some(blocks);
  }

  lemma ToolUseBlocksFails(calls: seq<ToolCallRef>, parse: Parser, j: nat)
    requires j < |calls| && calls[j].arguments.ArgumentText? && parse(calls[j].arguments.text).None?
    ensures ToolUseBlocks(calls, parse).None?
  {
  }

  /** One pass of `convertMessages`' loop: the message `m` appended to (or
      merged into) `messages`, with `thinkingIndex` the next thinking item. */
  method ConvertMessage(messages: seq<AnthropicMessage>, thinkingIndex: nat, m: ModelMessage, items: seq<ThinkingItem>,
                        thinkingOn: bool, parse: Parser, stringify: MessageContent -> string)
    returns (r: Option<(seq<AnthropicMessage>, nat)>)
    ensures r == ConvertOne(messages, thinkingIndex, m, items, thinkingOn, parse, stringify)
  {
    match m.role {
      case User =>
        r := Some((messages + [AnthropicMessage(UserRole, PlainContent(ExtractContent(m.content)))], thinkingIndex));
      case Assistant =>
        var paired := thinkingOn && thinkingIndex < |items|;
        var thinking := if paired then [ThinkingBlock(items[thinkingIndex].thinking, items[thinkingIndex].signature)] else [];
        if |m.toolCalls| > 0 {
          var text := if ContentTruthy(m.content) then [TextBlock(ExtractContent(m.content))] else [];
          var uses := ToolUses(m.toolCalls, parse);
          if uses.None? {
            return None;
          }
          r := Some((messages + [AnthropicMessage(AssistantRole, BlockContent(thinking + text + uses.value))], thinkingIndex + 1));
        } else if paired {
          r := Some((messages + [AnthropicMessage(AssistantRole, BlockContent(thinking + [TextBlock(ExtractContent(m.content))]))], thinkingIndex + 1));
        } else {
          r := Some((messages + [AnthropicMessage(AssistantRole, PlainContent(ExtractContent(m.content)))], thinkingIndex + 1));
        }
      case Tool =>
        var result := ToolResultBlock(m.toolCallId, ToolResultContent(m.content, stringify));
        if |messages| > 0 && messages[|messages| - 1].role == UserRole && messages[|messages| - 1].content.BlockContent? {
          var last := messages[|messages| - 1];
          r := Some((messages[..|messages| - 1] + [AnthropicMessage(UserRole, BlockContent(last.content.blocks + [result]))], thinkingIndex));
        } else {
          r := Some((messages + [AnthropicMessage(UserRole, BlockContent([result]))], thinkingIndex));
        }
      case OtherRole =>
        r := Some((messages, thinkingIndex));
    }
  }

  /** `convertMessages`: the loop over the input messages. */
  method ConvertMessages(options: TextOptions, parse: Parser, stringify: MessageContent -> string)
    returns (r: Option<seq<AnthropicMessage>>)
    ensures r == Convert(options, parse, stringify)
  {
    var messages: seq<AnthropicMessage> := [];
    var thinkingOn := IsThinkingModel(options.model);
    var items := ThinkingItems(options.thinkingHistory);
    var thinkingIndex: nat := 0;
    var msgs := options.messages;
    var i := 0;
    while i < |msgs|
      invariant 0 <= i <= |msgs|
      invariant ConvertAll(msgs[..i], items, thinkingOn, parse, stringify) == Some((messages, thinkingIndex))
    {
      ConvertAllPrefixStep(msgs, i, items, thinkingOn, parse, stringify, messages, thinkingIndex);
      var step := ConvertMessage(messages, thinkingIndex, msgs[i], items, thinkingOn, parse, stringify);
      if step.None? {
        ConvertAllStopsAtFailure(msgs, items, thinkingOn, parse, stringify, i + 1);
        assert msgs[..|msgs|] == msgs;
        return None;
      }
      messages, thinkingIndex := step.value.0, step.value.1;
      i := i + 1;
    }
    assert msgs[..i] == msgs;
    r := Some(messages);
  }

  /** Extending a converted prefix by one message converts that message. */
  lemma ConvertAllPrefixStep(msgs: seq<ModelMessage>, i: nat, items: seq<ThinkingItem>, thinkingOn: bool,
                             parse: Parser, stringify: MessageContent -> string, done: seq<AnthropicMessage>, k: nat)
    requires i < |msgs| && ConvertAll(msgs[..i], items, thinkingOn, parse, stringify) == Some((done, k))
    ensures ConvertAll(msgs[..i + 1], items, thinkingOn, parse, stringify) == ConvertOne(done, k, msgs[i], items, thinkingOn, parse, stringify)
  {
    assert msgs[..i + 1][..i] == msgs[..i];
  }

  /** Once a prefix fails to convert, so does every longer prefix. */
  lemma {:induction false} ConvertAllStopsAtFailure(msgs: seq<ModelMessage>, items: seq<ThinkingItem>, thinkingOn: bool,
                                                    parse: Parser, stringify: MessageContent -> string, n: nat)
    requires n <= |msgs| && ConvertAll(msgs[..n], items, thinkingOn, parse, stringify).None?
    ensures ConvertAll(msgs, items, thinkingOn, parse, stringify).None?
    decreases |msgs| - n
  {
    if n < |msgs| {
      assert msgs[..n + 1][..n] == msgs[..n];
      ConvertAllStopsAtFailure(msgs, items, thinkingOn, parse, stringify, n + 1);
    } else {
      assert msgs[..n] == msgs;
    }
  }

  // ---------------------------------------------------------------------
  // Properties of convertMessages
  // ---------------------------------------------------------------------

  /** The assistant message carries a tool call whose argument text does not parse. */
  predicate BadArguments(m: ModelMessage, parse: Parser) {
    m.role == Assistant
    && exists j :: 0 <= j < |m.toolCalls| && m.toolCalls[j].arguments.ArgumentText?
         && parse(m.toolCalls[j].arguments.text).None?
  }

  /** Conversion throws exactly when some assistant message has a tool call
      whose argument text `JSON.parse` rejects. */
  lemma {:induction false} ConvertFailsIffBadArguments(msgs: seq<ModelMessage>, items: seq<ThinkingItem>, thinkingOn: bool,
                                                       parse: Parser, stringify: MessageContent -> string)
    ensures ConvertAll(msgs, items, thinkingOn, parse, stringify).None?
      <==> exists i :: 0 <= i < |msgs| && BadArguments(msgs[i], parse)
    decreases |msgs|
  {
    if |msgs| > 0 {
      var init := msgs[..|msgs| - 1];
      ConvertFailsIffBadArguments(init, items, thinkingOn, parse, stringify);
      assert forall i :: 0 <= i < |init| ==> init[i] == msgs[i];
      var m := msgs[|msgs| - 1];
      if (exists i :: 0 <= i < |msgs| && BadArguments(msgs[i], parse)) && !(exists i :: 0 <= i < |init| && BadArguments(init[i], parse)) {
        assert BadArguments(m, parse);
      }
    }
  }

  function ThinkingOfBlocks(blocks: seq<AnthropicBlock>): seq<ThinkingItem>
    decreases |blocks|
  {
    if |blocks| == 0 then []
    else
      var last := blocks[|blocks| - 1];
      ThinkingOfBlocks(blocks[..|blocks| - 1])
        + (if last.ThinkingBlock? then [ThinkingItem(last.thinking, last.signature)] else [])
  }

  function ThinkingOfMessage(m: AnthropicMessage): seq<ThinkingItem> {
    if m.content.BlockContent? then ThinkingOfBlocks(m.content.blocks) else []
  }

  /** The thinking blocks of the converted conversation, in order. */
  function ThinkingOfMessages(out: seq<AnthropicMessage>): seq<ThinkingItem>
    decreases |out|
  {
    if |out| == 0 then []
    else ThinkingOfMessages(out[..|out| - 1]) + ThinkingOfMessage(out[|out| - 1])
  }

  function AssistantCount(msgs: seq<ModelMessage>): nat
    decreases |msgs|
  {
    if |msgs| == 0 then 0
    else AssistantCount(msgs[..|msgs| - 1]) + (if msgs[|msgs| - 1].role == Assistant then 1 else 0)
  }

  lemma {:induction false} ThinkingOfBlocksAppend(a: seq<AnthropicBlock>, b: seq<AnthropicBlock>)
    ensures ThinkingOfBlocks(a + b) == ThinkingOfBlocks(a) + ThinkingOfBlocks(b)
    decreases |b|
  {
    if |b| == 0 {
      assert a + b == a;
    } else {
      assert (a + b)[..|a + b| - 1] == a + b[..|b| - 1];
      ThinkingOfBlocksAppend(a, b[..|b| - 1]);
    }
  }

  lemma {:induction false} NoThinkingBlocks(blocks: seq<AnthropicBlock>)
    requires forall j :: 0 <= j < |blocks| ==> !blocks[j].ThinkingBlock?
    ensures ThinkingOfBlocks(blocks) == []
    decreases |blocks|
  {
    if |blocks| > 0 {
      NoThinkingBlocks(blocks[..|blocks| - 1]);
    }
  }

  lemma ThinkingOfMessagesSnoc(out: seq<AnthropicMessage>, m: AnthropicMessage)
    ensures ThinkingOfMessages(out + [m]) == ThinkingOfMessages(out) + ThinkingOfMessage(m)
  {
    assert (out + [m])[..|out|] == out;
  }

  /** One message adds the thinking item at the current index when it is an
      assistant message of a thinking model and that item exists, and moves
      the index on for every assistant message. */
  lemma ConvertOneThinking(out: seq<AnthropicMessage>, k: nat, m: ModelMessage, items: seq<ThinkingItem>,
                           thinkingOn: bool, parse: Parser, stringify: MessageContent -> string)
    requires ConvertOne(out, k, m, items, thinkingOn, parse, stringify).Some?
    ensures var (out2, k2) := ConvertOne(out, k, m, items, thinkingOn, parse, stringify).value;
      && k2 == k + (if m.role == Assistant then 1 else 0)
      && ThinkingOfMessages(out2) == ThinkingOfMessages(out)
           + (if m.role == Assistant && thinkingOn && k < |items| then [items[k]] else [])
  {
    match m.role
    case User =>
      ThinkingOfMessagesSnoc(out, AnthropicMessage(UserRole, PlainContent(ExtractContent(m.content))));
    case Assistant =>
      AssistantThinking(out, k, m, items, thinkingOn, parse, stringify);
    case Tool =>
      ToolThinking(out, k, m, items, thinkingOn, parse, stringify);
    case OtherRole =>
  }

  lemma AssistantThinking(out: seq<AnthropicMessage>, k: nat, m: ModelMessage, items: seq<ThinkingItem>,
                          thinkingOn: bool, parse: Parser, stringify: MessageContent -> string)
    requires m.role == Assistant
    requires ConvertOne(out, k, m, items, thinkingOn, parse, stringify).Some?
    ensures var (out2, k2) := ConvertOne(out, k, m, items, thinkingOn, parse, stringify).value;
      && k2 == k + 1
      && ThinkingOfMessages(out2) == ThinkingOfMessages(out) + (if thinkingOn && k < |items| then [items[k]] else [])
  {
    var paired := thinkingOn && k < |items|;
    var thinking := if paired then [ThinkingBlock(items[k].thinking, items[k].signature)] else [];
    var want := if paired then [items[k]] else [];
    assert ThinkingOfBlocks(thinking) == want by {
      if paired {
        assert thinking[..0] == [];
      }
    }
    if |m.toolCalls| > 0 {
      var uses := ToolUseBlocks(m.toolCalls, parse).value;
      var text := if ContentTruthy(m.content) then [TextBlock(ExtractContent(m.content))] else [];
      AddedAssistant(out, thinking, text + uses, want);
      AppendAssoc(thinking, text, uses);
    } else if paired {
      AddedAssistant(out, thinking, [TextBlock(ExtractContent(m.content))], want);
    } else {
      ThinkingOfMessagesSnoc(out, AnthropicMessage(AssistantRole, PlainContent(ExtractContent(m.content))));
    }
  }

  lemma AddedAssistant(out: seq<AnthropicMessage>, thinking: seq<AnthropicBlock>, rest: seq<AnthropicBlock>, want: seq<ThinkingItem>)
    requires ThinkingOfBlocks(thinking) == want
    requires forall j :: 0 <= j < |rest| ==> !rest[j].ThinkingBlock?
    ensures ThinkingOfMessages(out + [AnthropicMessage(AssistantRole, BlockContent(thinking + rest))]) == ThinkingOfMessages(out) + want
  {
    ThinkingOfMessagesSnoc(out, AnthropicMessage(AssistantRole, BlockContent(thinking + rest)));
    NoThinkingBlocks(rest);
    ThinkingOfBlocksAppend(thinking, rest);
  }

  lemma ToolThinking(out: seq<AnthropicMessage>, k: nat, m: ModelMessage, items: seq<ThinkingItem>,
                     thinkingOn: bool, parse: Parser, stringify: MessageContent -> string)
    requires m.role == Tool
    ensures var (out2, k2) := ConvertOne(out, k, m, items, thinkingOn, parse, stringify).value;
      k2 == k && ThinkingOfMessages(out2) == ThinkingOfMessages(out)
  {
    var result := ToolResultBlock(m.toolCallId, ToolResultContent(m.content, stringify));
    if |out| > 0 && out[|out| - 1].role == UserRole && out[|out| - 1].content.BlockContent? {
      var last := out[|out| - 1];
      assert out == out[..|out| - 1] + [AnthropicMessage(last.role, BlockContent(last.content.blocks))];
      MergedResultThinking(out[..|out| - 1], last.role, last.content.blocks, result);
    } else {
      NewResultThinking(out, result);
    }
  }

  lemma MergedResultThinking(prefix: seq<AnthropicMessage>, role: AnthropicRole, blocks: seq<AnthropicBlock>, result: AnthropicBlock)
    requires !result.ThinkingBlock?
    ensures ThinkingOfMessages(prefix + [AnthropicMessage(role, BlockContent(blocks + [result]))])
         == ThinkingOfMessages(prefix + [AnthropicMessage(role, BlockContent(blocks))])
  {
    var bs := blocks + [result];
    ThinkingOfMessagesSnoc(prefix, AnthropicMessage(role, BlockContent(bs)));
    ThinkingOfMessagesSnoc(prefix, AnthropicMessage(role, BlockContent(blocks)));
    assert bs[..|bs| - 1] == blocks;
  }

  lemma NewResultThinking(out: seq<AnthropicMessage>, result: AnthropicBlock)
    requires !result.ThinkingBlock?
    ensures ThinkingOfMessages(out + [AnthropicMessage(UserRole, BlockContent([result]))]) == ThinkingOfMessages(out)
  {
    ThinkingOfMessagesSnoc(out, AnthropicMessage(UserRole, BlockContent([result])));
    assert [result][..0] == [];
    assert ThinkingOfBlocks([result]) == [];
    assert ThinkingOfMessages(out) + [] == ThinkingOfMessages(out);
  }

  /** Stored thinking is paired with assistant turns by position: the k-th
      assistant message gets the k-th item, the index moves on for every
      assistant message whether or not it used its item, and without a
      thinking model no thinking block is sent. */
  lemma {:induction false} ThinkingPairedByPosition(msgs: seq<ModelMessage>, items: seq<ThinkingItem>, thinkingOn: bool,
                                                    parse: Parser, stringify: MessageContent -> string)
    requires ConvertAll(msgs, items, thinkingOn, parse, stringify).Some?
    ensures var (out, k) := ConvertAll(msgs, items, thinkingOn, parse, stringify).value;
      && k == AssistantCount(msgs)
      && ThinkingOfMessages(out) == if thinkingOn then items[..if k < |items| then k else |items|] else []
    decreases |msgs|
  {
    if |msgs| > 0 {
      var init := msgs[..|msgs| - 1];
      ThinkingPairedByPosition(init, items, thinkingOn, parse, stringify);
      var (out, k) := ConvertAll(init, items, thinkingOn, parse, stringify).value;
      ConvertOneThinking(out, k, msgs[|msgs| - 1], items, thinkingOn, parse, stringify);
      if thinkingOn && k < |items| {
        TakeSnoc(items, k);
      }
    }
  }

  /** Where blocks may appear: a thinking block only first in an assistant
      message, a tool result only in a user message. */
  predicate WellPlaced(m: AnthropicMessage) {
    m.content.BlockContent? ==>
      forall j :: 0 <= j < |m.content.blocks| ==>
        (m.content.blocks[j].ThinkingBlock? ==> j == 0 && m.role == AssistantRole)
        && (m.content.blocks[j].ToolResultBlock? ==> m.role == UserRole)
  }

  lemma ConvertOneWellPlaced(out: seq<AnthropicMessage>, k: nat, m: ModelMessage, items: seq<ThinkingItem>,
                             thinkingOn: bool, parse: Parser, stringify: MessageContent -> string)
    requires forall i :: 0 <= i < |out| ==> WellPlaced(out[i])
    requires ConvertOne(out, k, m, items, thinkingOn, parse, stringify).Some?
    ensures var out2 := ConvertOne(out, k, m, items, thinkingOn, parse, stringify).value.0;
      forall i :: 0 <= i < |out2| ==> WellPlaced(out2[i])
  {
  }

  /** Every converted conversation places its blocks well: the thinking
      block precedes the text and tool_use blocks of its assistant turn, and
      tool results travel in user messages. */
  lemma {:induction false} ConvertedWellPlaced(msgs: seq<ModelMessage>, items: seq<ThinkingItem>, thinkingOn: bool,
                                               parse: Parser, stringify: MessageContent -> string)
    requires ConvertAll(msgs, items, thinkingOn, parse, stringify).Some?
    ensures var out := ConvertAll(msgs, items, thinkingOn, parse, stringify).value.0;
      forall i :: 0 <= i < |out| ==> WellPlaced(out[i])
    decreases |msgs|
  {
    if |msgs| > 0 {
      var init := msgs[..|msgs| - 1];
      ConvertedWellPlaced(init, items, thinkingOn, parse, stringify);
      var (out, k) := ConvertAll(init, items, thinkingOn, parse, stringify).value;
      ConvertOneWellPlaced(out, k, msgs[|msgs| - 1], items, thinkingOn, parse, stringify);
    }
  }

  /** A tool message joins the previous output message exactly when that is
      a user message with block content; otherwise it starts a new user
      message holding only its result. */
  lemma ToolMessagePlacement(out: seq<AnthropicMessage>, k: nat, m: ModelMessage, items: seq<ThinkingItem>,
                             thinkingOn: bool, parse: Parser, stringify: MessageContent -> string)
    requires m.role == Tool
    ensures var r := ConvertOne(out, k, m, items, thinkingOn, parse, stringify);
      var result := ToolResultBlock(m.toolCallId, ToolResultContent(m.content, stringify));
      && r.Some? && r.value.1 == k
      && (|r.value.0| == |out| <==> |out| > 0 && out[|out| - 1].role == UserRole && out[|out| - 1].content.BlockContent?)
      && r.value.0[..|out| - (if |r.value.0| == |out| then 1 else 0)] == out[..|out| - (if |r.value.0| == |out| then 1 else 0)]
      && r.value.0[|r.value.0| - 1].role == UserRole
      && r.value.0[|r.value.0| - 1].content.BlockContent?
      && r.value.0[|r.value.0| - 1].content.blocks[|r.value.0[|r.value.0| - 1].content.blocks| - 1] == result
  {
  }
}
