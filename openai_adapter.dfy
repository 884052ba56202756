/** The OpenAI-compatible Chat Completions adapter
    (src/lib/openai-compat-adapter.ts): the request `chatStream` sends, the
    per-chunk delta machine of its `for await` loop, the outcome of a whole
    call, and `convertMessages`.

    The SDK client is an input: its stream is given as the sequence of chunk
    records it yields (absent or null strings as "", absent counts as None),
    possibly ending with a thrown error. `JSON.stringify` is a parameter. */
module OpenAIAdapter {
  import opened Common
  import opened Json
  import opened StreamProcessor
  import opened Chunks
  import opened MessageUtils
  import opened AdapterUtils

  // ---------------------------------------------------------------------
  // Request
  // ---------------------------------------------------------------------

  /** `{type: "function", function: {name, description, parameters}}` */
  datatype FunctionTool = FunctionTool(name: string, description: string, parameters: JsonValue)

  /** `{type: "object", properties: {}, required: []}` */
  const DefaultParameters: JsonValue :=
    JObject(map["type" := JString("object"), "properties" := JObject(map[]), "required" := JArray([])])

  datatype CompletionRequest = CompletionRequest(
    model: string,
    messages: seq<ChatMessage>,
    stream: bool,
    temperature: Option<real>,
    maxTokens: Option<int>,
    topP: Option<real>,
    tools: Option<seq<FunctionTool>>)

  function FunctionToolOf(t: ToolSpec): FunctionTool {
    FunctionTool(t.name, t.description, if t.inputSchema.Some? then t.inputSchema.value else DefaultParameters)
  }

  /** The streaming request for already converted messages: sampling options
      pass through, and `tools` is sent only when there is at least one. */
  function BuildRequest(options: TextOptions, messages: seq<ChatMessage>): (r: CompletionRequest)
    ensures r.model == options.model && r.messages == messages && r.stream
    ensures r.temperature == options.temperature && r.maxTokens == options.maxTokens && r.topP == options.topP
    ensures r.tools.Some? <==> |options.tools| > 0
    ensures r.tools.Some? ==> |r.tools.value| == |options.tools|
    ensures r.tools.Some? ==> forall i :: 0 <= i < |options.tools| ==>
      (r.tools.value[i].name == options.tools[i].name
       && r.tools.value[i].description == options.tools[i].description
       && (options.tools[i].inputSchema.Some? ==> r.tools.value[i].parameters == options.tools[i].inputSchema.value)
       && (options.tools[i].inputSchema.None? ==> r.tools.value[i].parameters == DefaultParameters))
  {
    CompletionRequest(
      options.model, messages, true, options.temperature, options.maxTokens, options.topP,
      if |options.tools| > 0 then Some(seq(|options.tools|, i requires 0 <= i < |options.tools| => FunctionToolOf(options.tools[i])))
      else None)
  }

  // ---------------------------------------------------------------------
  // convertMessages
  // ---------------------------------------------------------------------

  /** A tool call as sent back to the provider (its `type` is always "function"). */
  datatype WireToolCall = WireToolCall(id: string, name: string, arguments: string)

  /** A Chat Completions message. An assistant's `text` is its `content`,
      None for `null`; its `toolCalls` is None when the field is left out. */
  datatype ChatMessage =
    | SystemMessage(content: string)
    | UserMessage(content: string)
    | AssistantMessage(text: Option<string>, toolCalls: Option<seq<WireToolCall>>)
    | ToolMessage(toolCallId: string, content: string)

  /** Arguments as a string: a text as it is, any other value through `JSON.stringify`. */
  function ArgumentsText(a: ToolArguments, stringifyValue: JsonValue -> string): string {
    match a
    case ArgumentText(t) => t
    case ArgumentValue(v) => stringifyValue(v)
  }

  function WireToolCalls(calls: seq<ToolCallRef>, stringifyValue: JsonValue -> string): (r: seq<WireToolCall>)
    ensures |r| == |calls|
    ensures forall j :: 0 <= j < |calls| ==>
      r[j] == WireToolCall(calls[j].id, calls[j].name, ArgumentsText(calls[j].arguments, stringifyValue))
  {
    seq(|calls|, j requires 0 <= j < |calls| => WireToolCall(calls[j].id, calls[j].name, ArgumentsText(calls[j].arguments, stringifyValue)))
  }

  /** What one input message contributes: nothing for a role the adapter
      does not know, otherwise exactly one message of the matching role. An
      assistant turn with tool calls sends `null` content for empty text. */
  function ConvertOne(m: ModelMessage, stringify: MessageContent -> string, stringifyValue: JsonValue -> string): (r: seq<ChatMessage>)
    ensures m.role == OtherRole <==> r == []
    ensures |r| <= 1
    ensures m.role == User ==> r == [UserMessage(ExtractContent(m.content))]
    ensures m.role == Assistant ==>
      && |r| == 1 && r[0].AssistantMessage?
      && (r[0].toolCalls.Some? <==> |m.toolCalls| > 0)
      && (r[0].text.None? <==> |m.toolCalls| > 0 && ExtractContent(m.content) == "")
      && (r[0].text.Some? ==> r[0].text.value == ExtractContent(m.content))
      && (r[0].toolCalls.Some? ==> r[0].toolCalls.value == WireToolCalls(m.toolCalls, stringifyValue))
    ensures m.role == Tool ==> r == [ToolMessage(m.toolCallId, ToolResultContent(m.content, stringify))]
  {
    match m.role
    case User => [UserMessage(ExtractContent(m.content))]
    case Assistant =>
      var text := ExtractContent(m.content);
      if |m.toolCalls| > 0 then
        [AssistantMessage(if text != "" then Some(text) else None, Some(WireToolCalls(m.toolCalls, stringifyValue)))]
      else [AssistantMessage(Some(text), None)]
    case Tool => [ToolMessage(m.toolCallId, ToolResultContent(m.content, stringify))]
    case OtherRole => []
  }

  function ConvertAll(msgs: seq<ModelMessage>, stringify: MessageContent -> string, stringifyValue: JsonValue -> string): seq<ChatMessage>
    decreases |msgs|
  {
    if |msgs| == 0 then []
    else ConvertAll(msgs[..|msgs| - 1], stringify, stringifyValue) + ConvertOne(msgs[|msgs| - 1], stringify, stringifyValue)
  }

  /** The system message (the prompts joined by "\n"), when there are
      prompts, followed by the converted messages. */
  function Convert(options: TextOptions, stringify: MessageContent -> string, stringifyValue: JsonValue -> string): seq<ChatMessage> {
    (if |options.systemPrompts| > 0 then [SystemMessage(Join(options.systemPrompts, "\n"))] else [])
      + ConvertAll(options.messages, stringify, stringifyValue)
  }

  /** `convertMessages`: one push per message. */
  method ConvertMessages(options: TextOptions, stringify: MessageContent -> string, stringifyValue: JsonValue -> string)
    returns (messages: seq<ChatMessage>)
    ensures messages == Convert(options, stringify, stringifyValue)
  {
    messages := [];
    if |options.systemPrompts| > 0 {
      messages := messages + [SystemMessage(Join(options.systemPrompts, "\n"))];
    }
    ghost var prefix := messages;
    var i := 0;
    while i < |options.messages|
      invariant 0 <= i <= |options.messages|
      invariant messages == prefix + ConvertAll(options.messages[..i], stringify, stringifyValue)
    {
      var msg := options.messages[i];
      ghost var before := messages;
      if msg.role == User {
        messages := messages + [UserMessage(ExtractContent(msg.content))];
      } else if msg.role == Assistant {
        var text := ExtractContent(msg.content);
        if |msg.toolCalls| > 0 {
          messages := messages + [AssistantMessage(if text != "" then Some(text) else None, Some(WireToolCalls(msg.toolCalls, stringifyValue)))];
        } else {
          messages := messages + [AssistantMessage(Some(text), None)];
        }
      } else if msg.role == Tool {
        messages := messages + [ToolMessage(msg.toolCallId, ToolResultContent(msg.content, stringify))];
      }
      assert messages == before + ConvertOne(msg, stringify, stringifyValue);
      ConvertStep(prefix, options.messages, i, before, messages, stringify, stringifyValue);
      i := i + 1;
    }
    assert options.messages[..i] == options.messages;
  }

  /** One turn of the loop of `convertMessages`. */
  lemma ConvertStep(prefix: seq<ChatMessage>, msgs: seq<ModelMessage>, i: nat, before: seq<ChatMessage>, after: seq<ChatMessage>,
                    stringify: MessageContent -> string, stringifyValue: JsonValue -> string)
    requires i < |msgs|
    requires before == prefix + ConvertAll(msgs[..i], stringify, stringifyValue)
    requires after == before + ConvertOne(msgs[i], stringify, stringifyValue)
    ensures after == prefix + ConvertAll(msgs[..i + 1], stringify, stringifyValue)
  {
    ConvertAllPrefix(msgs, i, stringify, stringifyValue);
    AppendAssoc(prefix, ConvertAll(msgs[..i], stringify, stringifyValue), ConvertOne(msgs[i], stringify, stringifyValue));
  }

  lemma ConvertAllPrefix(msgs: seq<ModelMessage>, i: nat, stringify: MessageContent -> string, stringifyValue: JsonValue -> string)
    requires i < |msgs|
    ensures ConvertAll(msgs[..i + 1], stringify, stringifyValue)
      == ConvertAll(msgs[..i], stringify, stringifyValue) + ConvertOne(msgs[i], stringify, stringifyValue)
  {
    assert msgs[..i + 1][..i] == msgs[..i];
  }

  /** Converting a conversation in two parts converts each part on its own. */
  lemma {:induction false} ConvertAllAppend(a: seq<ModelMessage>, b: seq<ModelMessage>,
                                            stringify: MessageContent -> string, stringifyValue: JsonValue -> string)
    ensures ConvertAll(a + b, stringify, stringifyValue) == ConvertAll(a, stringify, stringifyValue) + ConvertAll(b, stringify, stringifyValue)
    decreases |b|
  {
    if |b| == 0 {
      assert a + b == a;
    } else {
      var init := b[..|b| - 1];
      assert (a + b)[..|a + b| - 1] == a + init;
      assert (a + b)[|a + b| - 1] == b[|b| - 1];
      ConvertAllAppend(a, init, stringify, stringifyValue);
      AppendAssoc(ConvertAll(a, stringify, stringifyValue), ConvertAll(init, stringify, stringifyValue),
                  ConvertOne(b[|b| - 1], stringify, stringifyValue));
    }
  }

  /** The number of messages whose role the adapter knows. */
  function KnownRoleCount(msgs: seq<ModelMessage>): nat
    decreases |msgs|
  {
    if |msgs| == 0 then 0
    else KnownRoleCount(msgs[..|msgs| - 1]) + (if msgs[|msgs| - 1].role == OtherRole then 0 else 1)
  }

  /** One output message per message of a known role, none of them a system
      message: the system prompt is only ever the first message. */
  lemma {:induction false} ConvertedShape(msgs: seq<ModelMessage>, stringify: MessageContent -> string, stringifyValue: JsonValue -> string)
    ensures |ConvertAll(msgs, stringify, stringifyValue)| == KnownRoleCount(msgs)
    ensures forall i :: 0 <= i < |ConvertAll(msgs, stringify, stringifyValue)| ==> !ConvertAll(msgs, stringify, stringifyValue)[i].SystemMessage?
    decreases |msgs|
  {
    if |msgs| > 0 {
      var init := msgs[..|msgs| - 1];
      ConvertedShape(init, stringify, stringifyValue);
      var one := ConvertOne(msgs[|msgs| - 1], stringify, stringifyValue);
      assert one == [] || (|one| == 1 && !one[0].SystemMessage?);
    }
  }

  /** The request's messages start with the system prompt exactly when there
      are prompts, and there is no other system message. */
  lemma SystemPromptFirst(options: TextOptions, stringify: MessageContent -> string, stringifyValue: JsonValue -> string)
    ensures var out := Convert(options, stringify, stringifyValue);
      && |out| == KnownRoleCount(options.messages) + (if |options.systemPrompts| > 0 then 1 else 0)
      && (|options.systemPrompts| > 0 ==> out[0] == SystemMessage(Join(options.systemPrompts, "\n")))
      && (forall i :: 0 <= i < |out| && out[i].SystemMessage? ==> i == 0 && |options.systemPrompts| > 0)
  {
    ConvertedShape(options.messages, stringify, stringifyValue);
    var rest := ConvertAll(options.messages, stringify, stringifyValue);
    var out := Convert(options, stringify, stringifyValue);
    if |options.systemPrompts| > 0 {
      assert forall i :: 1 <= i < |out| ==> out[i] == rest[i - 1];
    } else {
      assert out == rest;
    }
  }

  // ---------------------------------------------------------------------
  // The stream of completion chunks
  // ---------------------------------------------------------------------

  /** One element of `delta.tool_calls`; "" stands for an absent field. */
  datatype ToolCallDelta = ToolCallDelta(index: int, id: string, name: string, arguments: string)

  /** A choice's delta. The three reasoning fields are the non-standard ones
      some providers send. */
  datatype ChoiceDelta = ChoiceDelta(
    content: string,
    reasoningContent: string,
    thinking: string,
    thinkingContent: string,
    toolCalls: seq<ToolCallDelta>)

  /** A choice; `finishReason` is "" while the choice is unfinished. */
  datatype Choice = Choice(delta: ChoiceDelta, finishReason: string)

  datatype CompletionUsage = CompletionUsage(promptTokens: Option<int>, completionTokens: Option<int>, totalTokens: Option<int>)

  datatype CompletionChunk = CompletionChunk(id: string, choices: seq<Choice>, usage: Option<CompletionUsage>)

  /** `reasoning_content || thinking || thinking_content` */
  function ReasoningOf(d: ChoiceDelta): (r: string)
    ensures d.reasoningContent != "" ==> r == d.reasoningContent
    ensures d.reasoningContent == "" && d.thinking != "" ==> r == d.thinking
    ensures d.reasoningContent == "" && d.thinking == "" ==> r == d.thinkingContent
  {
    if d.reasoningContent != "" then d.reasoningContent
    else if d.thinking != "" then d.thinking
    else d.thinkingContent
  }

  /** `n || 0` */
  function OrZero(n: Option<int>): int {
    if n.Some? then n.value else 0
  }

  /** The `toolCallAccumulators` Map as its entries in insertion order, the
      order in which a JavaScript Map iterates. */
  type ToolCallEntries = seq<(int, ToolCallEntry)>

  /** The loop's variables: the response id, the two running totals and the
      tool-call Map. */
  datatype DeltaState = DeltaState(responseId: string, content: string, reasoning: string, entries: ToolCallEntries)

  const InitialState: DeltaState := DeltaState("", "", "", [])

  /** The position of the entry for `index`, if the Map has one. */
  function Find(entries: ToolCallEntries, index: int): (r: Option<nat>)
    ensures r.Some? ==> r.value < |entries| && entries[r.value].0 == index
    ensures r.None? <==> forall j :: 0 <= j < |entries| ==> entries[j].0 != index
    decreases |entries|
  {
    if |entries| == 0 then None
    else if entries[|entries| - 1].0 == index then Some(|entries| - 1)
    else Find(entries[..|entries| - 1], index)
  }

  /** The inline update of an entry: id and name overwritten when present,
      the argument fragment appended. */
  function Touched(acc: ToolCallEntry, d: ToolCallDelta): ToolCallEntry {
    var acc := if d.id != "" then acc.(id := d.id) else acc;
    var acc := if d.name != "" then acc.(name := d.name) else acc;
    if d.arguments != "" then acc.(arguments := acc.arguments + d.arguments) else acc
  }

  /** One tool-call delta: on first sight of its index a new entry
      `{id || "", name || "", ""}` goes last, then the entry is updated. */
  function ApplyToolDelta(entries: ToolCallEntries, d: ToolCallDelta): ToolCallEntries {
    match Find(entries, d.index)
    case None => entries + [(d.index, Touched(ToolCallEntry(d.id, d.name, ""), d))]
    case Some(p) => entries[p := (d.index, Touched(entries[p].1, d))]
  }

  function ApplyToolDeltas(entries: ToolCallEntries, ds: seq<ToolCallDelta>): ToolCallEntries
    decreases |ds|
  {
    if |ds| == 0 then entries
    else ApplyToolDelta(ApplyToolDeltas(entries, ds[..|ds| - 1]), ds[|ds| - 1])
  }

  /** The tool-call chunks of a finishing chunk: one per entry, in
      insertion order. */
  function ToolCallChunks(ctx: ChunkContext, entries: ToolCallEntries): seq<StreamChunk> {
    seq(|entries|, k requires 0 <= k < |entries| =>
      BuildToolCallChunk(ctx, entries[k].0, entries[k].1.id, entries[k].1.name, entries[k].1.arguments))
  }

  /** The done chunk of a finishing chunk: the provider's counts (0 when
      absent), its total taken as sent, and "tool_calls" only when the
      provider said so literally. */
  function DoneOf(ctx: ChunkContext, usage: Option<CompletionUsage>, finishReason: string): StreamChunk {
    var u := if usage.Some? then usage.value else CompletionUsage(None, None, None);
    DoneChunk(ctx, Usage(OrZero(u.promptTokens), OrZero(u.completionTokens), OrZero(u.totalTokens)),
      if finishReason == "tool_calls" then ToolCalls else Stop)
  }

  /** The reasoning of one delta: a non-empty piece is appended to the
      reasoning total and yielded as a thinking chunk carrying the total. */
  function ReasoningStep(s: DeltaState, d: ChoiceDelta, ctx: ChunkContext): (DeltaState, seq<StreamChunk>) {
    var piece := ReasoningOf(d);
    if piece == "" then (s, [])
    else
      var total := s.reasoning + piece;
      (s.(reasoning := total), [ThinkingChunk(ctx, Some(piece), total, None, None)])
  }

  /** The content of one delta, likewise, as a content chunk. */
  function ContentStep(s: DeltaState, d: ChoiceDelta, ctx: ChunkContext): (DeltaState, seq<StreamChunk>) {
    if d.content == "" then (s, [])
    else
      var total := s.content + d.content;
      (s.(content := total), [ContentChunk(ctx, d.content, total, "assistant")])
  }

  /** The reasoning, then the content, of one delta. */
  function TextStep(s: DeltaState, d: ChoiceDelta, ctx: ChunkContext): (DeltaState, seq<StreamChunk>) {
    var r := ReasoningStep(s, d, ctx);
    var c := ContentStep(r.0, d, ctx);
    (c.0, r.1 + c.1)
  }

  /** What a finish reason adds: every tool call, then one done chunk. */
  function FinishChunks(ctx: ChunkContext, entries: ToolCallEntries, usage: Option<CompletionUsage>, finishReason: string): seq<StreamChunk> {
    if finishReason != "" then ToolCallChunks(ctx, entries) + [DoneOf(ctx, usage, finishReason)] else []
  }

  /** One chunk of the provider's stream: the new variables and the chunks
      yielded. The response id is taken from every chunk, even one without
      a choice. */
  function Step(s: DeltaState, c: CompletionChunk, model: string, timestamp: int): (DeltaState, seq<StreamChunk>) {
    var s0 := s.(responseId := c.id);
    if |c.choices| == 0 then (s0, [])
    else
      var choice := c.choices[0];
      var ctx := ChunkContext(c.id, model, timestamp);
      var text := TextStep(s0, choice.delta, ctx);
      var s1 := text.0.(entries := ApplyToolDeltas(text.0.entries, choice.delta.toolCalls));
      (s1, text.1 + FinishChunks(ctx, s1.entries, c.usage, choice.finishReason))
  }

  function RunChunks(chunks: seq<CompletionChunk>, model: string, timestamp: int): (DeltaState, seq<StreamChunk>)
    decreases |chunks|
  {
    if |chunks| == 0 then (InitialState, [])
    else
      var before := RunChunks(chunks[..|chunks| - 1], model, timestamp);
      var after := Step(before.0, chunks[|chunks| - 1], model, timestamp);
      (after.0, before.1 + after.1)
  }

  lemma RunChunksSnoc(chunks: seq<CompletionChunk>, c: CompletionChunk, model: string, timestamp: int)
    ensures var before := RunChunks(chunks, model, timestamp);
      var after := Step(before.0, c, model, timestamp);
      RunChunks(chunks + [c], model, timestamp) == (after.0, before.1 + after.1)
  {
    assert (chunks + [c])[..|chunks|] == chunks;
  }

  /** The inner loop over `delta.tool_calls`. */
  method ApplyToolCallDeltas(entries0: ToolCallEntries, ds: seq<ToolCallDelta>) returns (entries: ToolCallEntries)
    ensures entries == ApplyToolDeltas(entries0, ds)
  {
    entries := entries0;
    var j := 0;
    while j < |ds|
      invariant 0 <= j <= |ds|
      invariant entries == ApplyToolDeltas(entries0, ds[..j])
    {
      assert ds[..j + 1][..j] == ds[..j];
      var d := ds[j];
      var p := Find(entries, d.index);
      ghost var seeded := entries;
      if p.None? {
        entries := entries + [(d.index, ToolCallEntry(d.id, d.name, ""))];
        p := Some(|entries| - 1);
      }
      var acc := entries[p.value].1;
      if d.id != "" {
        acc := acc.(id := d.id);
      }
      if d.name != "" {
        acc := acc.(name := d.name);
      }
      if d.arguments != "" {
        acc := acc.(arguments := acc.arguments + d.arguments);
      }
      entries := entries[p.value := (d.index, acc)];
      assert entries == ApplyToolDelta(seeded, d);
      j := j + 1;
    }
    assert ds[..j] == ds;
  }

  /** The loop over the Map when a choice finishes. */
  method EmitToolCalls(ctx: ChunkContext, entries: ToolCallEntries) returns (out: seq<StreamChunk>)
    ensures out == ToolCallChunks(ctx, entries)
  {
    out := [];
    var j := 0;
    while j < |entries|
      invariant 0 <= j <= |entries|
      invariant |out| == j
      invariant forall k :: 0 <= k < j ==> out[k] == ToolCallChunks(ctx, entries)[k]
    {
      var (index, call) := entries[j];
      out := out + [ToolCallChunk(ctx, index, ToolCallPayload(call.id, "function", call.name, call.arguments))];
      j := j + 1;
    }
  }

  /** One turn of the `for await` loop, on the loop's variables. */
  method StepChunk(s: DeltaState, c: CompletionChunk, model: string, timestamp: int)
    returns (next: DeltaState, out: seq<StreamChunk>)
    ensures (next, out) == Step(s, c, model, timestamp)
  {
    var responseId := c.id;
    var content, reasoning, entries := s.content, s.reasoning, s.entries;
    out := [];
    if |c.choices| > 0 {
      var choice := c.choices[0];
      var ctx := ChunkContext(responseId, model, timestamp);
      var piece := ReasoningOf(choice.delta);
      if piece != "" {
        reasoning := reasoning + piece;
        out := [ThinkingChunk(ctx, Some(piece), reasoning, None, None)];
      }
      ghost var r := ReasoningStep(s.(responseId := c.id), choice.delta, ctx);
      assert (DeltaState(responseId, content, reasoning, entries), out) == r;
      if choice.delta.content != "" {
        content := content + choice.delta.content;
        out := out + [ContentChunk(ctx, choice.delta.content, content, "assistant")];
      }
      ghost var t := ContentStep(r.0, choice.delta, ctx);
      assert DeltaState(responseId, content, reasoning, entries) == t.0;
      assert out == r.1 + t.1;
      entries := ApplyToolCallDeltas(entries, choice.delta.toolCalls);
      ghost var text := out;
      if choice.finishReason != "" {
        var flushed := EmitToolCalls(ctx, entries);
        out := out + flushed + [DoneOf(ctx, c.usage, choice.finishReason)];
        assert out == text + (flushed + [DoneOf(ctx, c.usage, choice.finishReason)]);
      }
      assert out == text + FinishChunks(ctx, entries, c.usage, choice.finishReason);
    }
    next := DeltaState(responseId, content, reasoning, entries);
  }

  /** The `for await` loop over the provider's chunks. */
  method ProcessChunks(chunks: seq<CompletionChunk>, model: string, timestamp: int)
    returns (state: DeltaState, out: seq<StreamChunk>)
    ensures (state, out) == RunChunks(chunks, model, timestamp)
  {
    state := InitialState;
    out := [];
    var i := 0;
    while i < |chunks|
      invariant 0 <= i <= |chunks|
      invariant (state, out) == RunChunks(chunks[..i], model, timestamp)
    {
      RunChunksSnoc(chunks[..i], chunks[i], model, timestamp);
      var next, emitted := StepChunk(state, chunks[i], model, timestamp);
      state := next;
      out := out + emitted;
      TakeSnoc(chunks, i);
      i := i + 1;
    }
    assert chunks[..i] == chunks;
  }

  // ---------------------------------------------------------------------
  // The tool-call Map agrees with the shared accumulator
  // ---------------------------------------------------------------------

  predicate DistinctKeys(entries: ToolCallEntries) {
    forall j, k :: 0 <= j < k < |entries| ==> entries[j].0 != entries[k].0
  }

  /** The Map's contents as a map from index to entry. */
  function AsMap(entries: ToolCallEntries): map<int, ToolCallEntry>
    decreases |entries|
  {
    if |entries| == 0 then map[]
    else
      var last := entries[|entries| - 1];
      AsMap(entries[..|entries| - 1])[last.0 := last.1]
  }

  /** The Map's keys in insertion order. */
  function KeysOf(entries: ToolCallEntries): (r: seq<int>)
    ensures |r| == |entries| && forall k :: 0 <= k < |entries| ==> r[k] == entries[k].0
  {
    seq(|entries|, k requires 0 <= k < |entries| => entries[k].0)
  }

  /** With distinct keys, the map holds each entry under its key and nothing else. */
  lemma {:induction false} AsMapHolds(entries: ToolCallEntries)
    requires DistinctKeys(entries)
    ensures forall i :: i in AsMap(entries) <==> i in KeysOf(entries)
    ensures forall k :: 0 <= k < |entries| ==> AsMap(entries)[entries[k].0] == entries[k].1
    decreases |entries|
  {
    if |entries| > 0 {
      var init := entries[..|entries| - 1];
      AsMapHolds(init);
      assert forall i :: i in KeysOf(entries) <==> i in KeysOf(init) || i == entries[|entries| - 1].0;
    }
  }

  /** Replacing the entry at a position updates the map at its key. */
  lemma {:induction false} AsMapReplace(entries: ToolCallEntries, p: nat, e: ToolCallEntry)
    requires DistinctKeys(entries) && p < |entries|
    ensures AsMap(entries[p := (entries[p].0, e)]) == AsMap(entries)[entries[p].0 := e]
    decreases |entries|
  {
    var init := entries[..|entries| - 1];
    var last := entries[|entries| - 1];
    var updated := entries[p := (entries[p].0, e)];
    if p == |entries| - 1 {
      assert updated[..|updated| - 1] == init;
    } else {
      assert updated[..|updated| - 1] == init[p := (init[p].0, e)];
      AsMapReplace(init, p, e);
      assert init[p].0 != last.0;
    }
  }

  /** The inline rules of one tool-call delta are the shared accumulator's
      `update(index, {id, name, arguments})`; keys stay distinct, and the
      index is appended to the keys exactly on its first sight. */
  lemma ToolDeltaIsUpdate(entries: ToolCallEntries, d: ToolCallDelta)
    requires DistinctKeys(entries)
    ensures DistinctKeys(ApplyToolDelta(entries, d))
    ensures AsMap(ApplyToolDelta(entries, d)) == UpdatedCalls(AsMap(entries), d.index, ToolCallPartial(d.id, d.name, d.arguments))
    ensures KeysOf(ApplyToolDelta(entries, d)) == KeysOf(entries) + (if d.index in KeysOf(entries) then [] else [d.index])
  {
    match Find(entries, d.index)
    case None => ToolDeltaFirstSight(entries, d);
    case Some(p) => ToolDeltaSeenBefore(entries, d, p);
  }

  /** A delta for a new index appends its entry. */
  lemma ToolDeltaFirstSight(entries: ToolCallEntries, d: ToolCallDelta)
    requires DistinctKeys(entries) && Find(entries, d.index).None?
    ensures DistinctKeys(ApplyToolDelta(entries, d))
    ensures AsMap(ApplyToolDelta(entries, d)) == UpdatedCalls(AsMap(entries), d.index, ToolCallPartial(d.id, d.name, d.arguments))
    ensures KeysOf(ApplyToolDelta(entries, d)) == KeysOf(entries) + (if d.index in KeysOf(entries) then [] else [d.index])
  {
    AsMapHolds(entries);
    var r := ApplyToolDelta(entries, d);
    assert r[..|r| - 1] == entries;
    if d.arguments != "" {
      assert "" + d.arguments == d.arguments;
    }
  }

  /** A delta for an index already held updates that entry in place. */
  lemma ToolDeltaSeenBefore(entries: ToolCallEntries, d: ToolCallDelta, p: nat)
    requires DistinctKeys(entries) && Find(entries, d.index) == Some(p)
    ensures DistinctKeys(ApplyToolDelta(entries, d))
    ensures AsMap(ApplyToolDelta(entries, d)) == UpdatedCalls(AsMap(entries), d.index, ToolCallPartial(d.id, d.name, d.arguments))
    ensures KeysOf(ApplyToolDelta(entries, d)) == KeysOf(entries) + (if d.index in KeysOf(entries) then [] else [d.index])
  {
    var r, e := ApplyToolDelta(entries, d), entries[p].1;
    assert forall k :: 0 <= k < |r| ==> r[k].0 == entries[k].0;
    assert KeysOf(r) == KeysOf(entries);
    AsMapHolds(entries);
    assert Lookup(AsMap(entries), d.index) == Some(e);
    assert Touched(e, d) == UpdatedEntry(Some(e), ToolCallPartial(d.id, d.name, d.arguments));
    AsMapReplace(entries, p, Touched(e, d));
  }

  /** The shared accumulator's map after `update` with each delta in turn. */
  function UpdateAll(calls: map<int, ToolCallEntry>, ds: seq<ToolCallDelta>): map<int, ToolCallEntry>
    decreases |ds|
  {
    if |ds| == 0 then calls
    else
      var d := ds[|ds| - 1];
      UpdatedCalls(UpdateAll(calls, ds[..|ds| - 1]), d.index, ToolCallPartial(d.id, d.name, d.arguments))
  }

  /** `keys` extended by the indices not yet among them, in order of first appearance. */
  function FirstSeen(keys: seq<int>, indices: seq<int>): seq<int>
    decreases |indices|
  {
    if |indices| == 0 then keys
    else
      var before := FirstSeen(keys, indices[..|indices| - 1]);
      var i := indices[|indices| - 1];
      if i in before then before else before + [i]
  }

  function Indices(ds: seq<ToolCallDelta>): (r: seq<int>)
    ensures |r| == |ds| && forall j :: 0 <= j < |ds| ==> r[j] == ds[j].index
  {
    seq(|ds|, j requires 0 <= j < |ds| => ds[j].index)
  }

  lemma IndicesAppend(a: seq<ToolCallDelta>, b: seq<ToolCallDelta>)
    ensures Indices(a + b) == Indices(a) + Indices(b)
  {
    assert forall j :: 0 <= j < |a + b| ==> Indices(a + b)[j] == (Indices(a) + Indices(b))[j];
  }

  /** A run of tool-call deltas leaves exactly the entries the shared
      accumulator holds after the same updates, keyed in order of first
      appearance of their index. */
  lemma {:induction false} ToolDeltasAreUpdates(entries: ToolCallEntries, ds: seq<ToolCallDelta>)
    requires DistinctKeys(entries)
    ensures DistinctKeys(ApplyToolDeltas(entries, ds))
    ensures AsMap(ApplyToolDeltas(entries, ds)) == UpdateAll(AsMap(entries), ds)
    ensures KeysOf(ApplyToolDeltas(entries, ds)) == FirstSeen(KeysOf(entries), Indices(ds))
    decreases |ds|
  {
    if |ds| > 0 {
      var init := ds[..|ds| - 1];
      ToolDeltasAreUpdates(entries, init);
      ToolDeltaIsUpdate(ApplyToolDeltas(entries, init), ds[|ds| - 1]);
      assert Indices(ds)[..|ds| - 1] == Indices(init);
    }
  }

  lemma {:induction false} UpdateAllAppend(calls: map<int, ToolCallEntry>, a: seq<ToolCallDelta>, b: seq<ToolCallDelta>)
    ensures UpdateAll(calls, a + b) == UpdateAll(UpdateAll(calls, a), b)
    decreases |b|
  {
    if |b| == 0 {
      assert a + b == a;
    } else {
      assert (a + b)[..|a + b| - 1] == a + b[..|b| - 1];
      UpdateAllAppend(calls, a, b[..|b| - 1]);
    }
  }

  lemma {:induction false} FirstSeenAppend(keys: seq<int>, a: seq<int>, b: seq<int>)
    ensures FirstSeen(keys, a + b) == FirstSeen(FirstSeen(keys, a), b)
    decreases |b|
  {
    if |b| == 0 {
      assert a + b == a;
    } else {
      assert (a + b)[..|a + b| - 1] == a + b[..|b| - 1];
      FirstSeenAppend(keys, a, b[..|b| - 1]);
    }
  }

  /** The tool-call deltas of a chunk: those of its first choice. */
  function ChunkToolDeltas(c: CompletionChunk): seq<ToolCallDelta> {
    if |c.choices| > 0 then c.choices[0].delta.toolCalls else []
  }

  /** The tool-call deltas of a stream, chunk after chunk. */
  function StreamToolDeltas(chunks: seq<CompletionChunk>): seq<ToolCallDelta>
    decreases |chunks|
  {
    if |chunks| == 0 then []
    else StreamToolDeltas(chunks[..|chunks| - 1]) + ChunkToolDeltas(chunks[|chunks| - 1])
  }

  /** A chunk changes the Map only through its tool-call deltas. */
  lemma StepEntries(s: DeltaState, c: CompletionChunk, model: string, timestamp: int)
    ensures Step(s, c, model, timestamp).0.entries == ApplyToolDeltas(s.entries, ChunkToolDeltas(c))
  {
    if |c.choices| > 0 {
      var ctx := ChunkContext(c.id, model, timestamp);
      ReasoningStepProperties(s.(responseId := c.id), c.choices[0].delta, ctx);
      ContentStepProperties(ReasoningStep(s.(responseId := c.id), c.choices[0].delta, ctx).0, c.choices[0].delta, ctx);
    }
  }

  /** The Map after one more chunk. */
  lemma RunEntriesSnoc(chunks: seq<CompletionChunk>, model: string, timestamp: int)
    requires |chunks| > 0
    ensures RunChunks(chunks, model, timestamp).0.entries
      == ApplyToolDeltas(RunChunks(chunks[..|chunks| - 1], model, timestamp).0.entries, ChunkToolDeltas(chunks[|chunks| - 1]))
  {
    StepEntries(RunChunks(chunks[..|chunks| - 1], model, timestamp).0, chunks[|chunks| - 1], model, timestamp);
  }

  /** After any prefix of the stream, the Map holds what the shared
      accumulator would after `update` with every tool-call delta so far,
      once per index, in order of each index's first appearance. */
  lemma {:induction false} StreamToolCalls(chunks: seq<CompletionChunk>, model: string, timestamp: int)
    ensures var entries := RunChunks(chunks, model, timestamp).0.entries;
      && DistinctKeys(entries)
      && AsMap(entries) == UpdateAll(map[], StreamToolDeltas(chunks))
      && KeysOf(entries) == FirstSeen([], Indices(StreamToolDeltas(chunks)))
    decreases |chunks|
  {
    if |chunks| > 0 {
      var init := chunks[..|chunks| - 1];
      var before := RunChunks(init, model, timestamp).0.entries;
      var ds := ChunkToolDeltas(chunks[|chunks| - 1]);
      var all := StreamToolDeltas(init);
      StreamToolCalls(init, model, timestamp);
      RunEntriesSnoc(chunks, model, timestamp);
      ToolDeltasAreUpdates(before, ds);
      UpdateAllAppend(map[], all, ds);
      IndicesAppend(all, ds);
      FirstSeenAppend([], Indices(all), Indices(ds));
      assert StreamToolDeltas(chunks) == all + ds;
    }
  }

  // ---------------------------------------------------------------------
  // Properties of the delta machine
  // ---------------------------------------------------------------------

  /** A reasoning piece: the reasoning total grows by exactly the thinking
      delta yielded, which is non-empty, and the one thinking chunk carries
      the new total. */
  lemma ReasoningStepProperties(s: DeltaState, d: ChoiceDelta, ctx: ChunkContext)
    ensures var r := ReasoningStep(s, d, ctx);
      && r.0 == s.(reasoning := s.reasoning + ThinkingDeltas(r.1))
      && ContentDeltas(r.1) == ""
      && |r.1| == (if ReasoningOf(d) != "" then 1 else 0)
      && (|r.1| == 1 ==> r.1[0].ThinkingChunk? && r.1[0].thinkingDelta == Some(ReasoningOf(d)) && r.1[0].content == r.0.reasoning)
  {
    var r := ReasoningStep(s, d, ctx);
    if ReasoningOf(d) != "" {
      assert r.1[..0] == [];
    }
  }

  /** A content piece, likewise. */
  lemma ContentStepProperties(s: DeltaState, d: ChoiceDelta, ctx: ChunkContext)
    ensures var r := ContentStep(s, d, ctx);
      && r.0 == s.(content := s.content + ContentDeltas(r.1))
      && ThinkingDeltas(r.1) == ""
      && |r.1| == (if d.content != "" then 1 else 0)
      && (|r.1| == 1 ==> r.1[0].ContentChunk? && r.1[0].delta == d.content && r.1[0].content == r.0.content)
  {
    var r := ContentStep(s, d, ctx);
    if d.content != "" {
      assert r.1[..0] == [];
    }
  }

  /** The reasoning and content of a delta: each total grows by exactly the
      delta its chunk carries; a thinking chunk (at most one) comes first and
      carries the new reasoning total, a content chunk (at most one, role
      "assistant") comes last and carries the new content total; both are
      builder-shaped. */
  lemma TextStepProperties(s: DeltaState, d: ChoiceDelta, ctx: ChunkContext)
    ensures var (s2, out) := TextStep(s, d, ctx);
      && s2.responseId == s.responseId && s2.entries == s.entries
      && s2.content == s.content + ContentDeltas(out)
      && s2.reasoning == s.reasoning + ThinkingDeltas(out)
      && |out| <= 2
      && TextShaped(out, ctx, s2.content, s2.reasoning)
  {
    var r := ReasoningStep(s, d, ctx);
    var c := ContentStep(r.0, d, ctx);
    ReasoningStepProperties(s, d, ctx);
    ContentStepProperties(r.0, d, ctx);
    ContentDeltasAppend(r.1, c.1);
    ThinkingDeltasAppend(r.1, c.1);
  }

  /** Builder-shaped text chunks of `ctx`: a thinking chunk, if any, comes
      first with a non-empty delta and the reasoning total; a content chunk,
      if any, comes last with a non-empty delta and the content total. */
  predicate TextShaped(out: seq<StreamChunk>, ctx: ChunkContext, content: string, reasoning: string) {
    && (forall k :: 0 <= k < |out| ==>
          BuilderShaped(out[k]) && out[k].ctx == ctx && (out[k].ContentChunk? || out[k].ThinkingChunk?))
    && (forall k :: 0 <= k < |out| && out[k].ContentChunk? ==> k == |out| - 1 && out[k].content == content && out[k].delta != "")
    && (forall k :: 0 <= k < |out| && out[k].ThinkingChunk? ==>
          k == 0 && out[k].content == reasoning && out[k].thinkingDelta.Some? && out[k].thinkingDelta.value != "")
  }

  /** Tool-call and done chunks of `ctx`. */
  predicate FinishShaped(out: seq<StreamChunk>, ctx: ChunkContext) {
    forall k :: 0 <= k < |out| ==> (out[k].ToolCallChunk? || out[k].DoneChunk?) && out[k].ctx == ctx
  }

  /** Tool-call and done chunks carry no content or thinking delta. */
  lemma {:induction false} FinishCarriesNoText(ctx: ChunkContext, entries: ToolCallEntries, usage: Option<CompletionUsage>, finishReason: string)
    ensures ContentDeltas(FinishChunks(ctx, entries, usage, finishReason)) == ""
    ensures ThinkingDeltas(FinishChunks(ctx, entries, usage, finishReason)) == ""
  {
    var out := FinishChunks(ctx, entries, usage, finishReason);
    NoContentIn(out);
    NoThinkingIn(out);
  }

  /** The chunks of one provider chunk: the totals grow by exactly the
      content and thinking deltas yielded; none is an error chunk; all carry
      the chunk's own id; a content or thinking chunk carries its new total
      and is the last of its kind in what the chunk yields. */
  lemma StepProperties(s: DeltaState, c: CompletionChunk, model: string, timestamp: int)
    ensures var (s2, out) := Step(s, c, model, timestamp);
      && s2.responseId == c.id
      && s2.content == s.content + ContentDeltas(out)
      && s2.reasoning == s.reasoning + ThinkingDeltas(out)
      && AllOfContext(out, ChunkContext(c.id, model, timestamp))
      && ContentLastOfKind(out, s2.content)
      && ThinkingLastOfKind(out, s2.reasoning)
  {
    if |c.choices| > 0 {
      var choice := c.choices[0];
      var ctx := ChunkContext(c.id, model, timestamp);
      var s0 := s.(responseId := c.id);
      var (s1, text) := TextStep(s0, choice.delta, ctx);
      TextStepProperties(s0, choice.delta, ctx);
      var entries := ApplyToolDeltas(s1.entries, choice.delta.toolCalls);
      var tail := FinishChunks(ctx, entries, c.usage, choice.finishReason);
      FinishCarriesNoText(ctx, entries, c.usage, choice.finishReason);
      FinishChunksShape(ctx, entries, c.usage, choice.finishReason);
      ContentDeltasAppend(text, tail);
      ThinkingDeltasAppend(text, tail);
      assert ContentDeltas(text) + "" == ContentDeltas(text);
      assert ThinkingDeltas(text) + "" == ThinkingDeltas(text);
      TextThenFinish(text, tail, ctx, s1.content, s1.reasoning);
      assert Step(s, c, model, timestamp) == (s1.(entries := entries), text + tail);
    }
  }

  /** What a finish reason adds is tool-call and done chunks of the chunk's context. */
  lemma FinishChunksShape(ctx: ChunkContext, entries: ToolCallEntries, usage: Option<CompletionUsage>, finishReason: string)
    ensures FinishShaped(FinishChunks(ctx, entries, usage, finishReason), ctx)
  {
  }

  /** The text chunks of a step followed by its finish chunks: every chunk
      has the step's context and none is an error chunk; a content or
      thinking chunk is the last of its kind. */
  lemma TextThenFinish(text: seq<StreamChunk>, tail: seq<StreamChunk>, ctx: ChunkContext, content: string, reasoning: string)
    requires TextShaped(text, ctx, content, reasoning)
    requires FinishShaped(tail, ctx)
    ensures AllOfContext(text + tail, ctx)
    ensures ContentLastOfKind(text + tail, content)
    ensures ThinkingLastOfKind(text + tail, reasoning)
  {
  }

  /** Every chunk carries `ctx` and none is an error chunk. */
  predicate AllOfContext(out: seq<StreamChunk>, ctx: ChunkContext) {
    forall k :: 0 <= k < |out| ==> out[k].ctx == ctx && !out[k].ErrorChunk?
  }

  /** A content chunk carries the content total `content` and is the last
      content chunk. */
  predicate ContentLastOfKind(out: seq<StreamChunk>, content: string) {
    forall k :: 0 <= k < |out| && out[k].ContentChunk? ==>
      out[k].content == content && forall j :: k < j < |out| ==> !out[j].ContentChunk?
  }

  /** A thinking chunk carries a delta and the reasoning total `reasoning`,
      and is the last thinking chunk. */
  predicate ThinkingLastOfKind(out: seq<StreamChunk>, reasoning: string) {
    forall k :: 0 <= k < |out| && out[k].ThinkingChunk? ==>
      out[k].thinkingDelta.Some? && out[k].content == reasoning && forall j :: k < j < |out| ==> !out[j].ThinkingChunk?
  }

  lemma {:induction false} NoContentIn(chunks: seq<StreamChunk>)
    requires forall j :: 0 <= j < |chunks| ==> !chunks[j].ContentChunk?
    ensures ContentDeltas(chunks) == ""
    decreases |chunks|
  {
    if |chunks| > 0 {
      NoContentIn(chunks[..|chunks| - 1]);
    }
  }

  lemma {:induction false} NoThinkingIn(chunks: seq<StreamChunk>)
    requires forall j :: 0 <= j < |chunks| ==> !chunks[j].ThinkingChunk?
    ensures ThinkingDeltas(chunks) == ""
    decreases |chunks|
  {
    if |chunks| > 0 {
      NoThinkingIn(chunks[..|chunks| - 1]);
    }
  }

  /** When no content chunk follows position m, the deltas up to m are all of them. */
  lemma LaterChunksNoContent(out: seq<StreamChunk>, m: nat)
    requires m < |out|
    requires forall j :: m < j < |out| ==> !out[j].ContentChunk?
    ensures ContentDeltas(out[..m + 1]) == ContentDeltas(out)
  {
    assert out == out[..m + 1] + out[m + 1..];
    ContentDeltasAppend(out[..m + 1], out[m + 1..]);
    NoContentIn(out[m + 1..]);
  }

  lemma LaterChunksNoThinking(out: seq<StreamChunk>, m: nat)
    requires m < |out|
    requires forall j :: m < j < |out| ==> !out[j].ThinkingChunk?
    ensures ThinkingDeltas(out[..m + 1]) == ThinkingDeltas(out)
  {
    assert out == out[..m + 1] + out[m + 1..];
    ThinkingDeltasAppend(out[..m + 1], out[m + 1..]);
    NoThinkingIn(out[m + 1..]);
  }

  /** Over a whole stream no chunk is an error chunk, and the content and
      reasoning totals are the concatenations of the deltas yielded. */
  lemma {:induction false} RunTotals(chunks: seq<CompletionChunk>, model: string, timestamp: int)
    ensures var (s, out) := RunChunks(chunks, model, timestamp);
      && (forall k :: 0 <= k < |out| ==> !out[k].ErrorChunk?)
      && s.content == ContentDeltas(out)
      && s.reasoning == ThinkingDeltas(out)
    decreases |chunks|
  {
    if |chunks| > 0 {
      var init := chunks[..|chunks| - 1];
      RunTotals(init, model, timestamp);
      var (s0, before) := RunChunks(init, model, timestamp);
      StepProperties(s0, chunks[|chunks| - 1], model, timestamp);
      var out := Step(s0, chunks[|chunks| - 1], model, timestamp).1;
      ContentDeltasAppend(before, out);
      ThinkingDeltasAppend(before, out);
    }
  }

  /** Appending chunks whose content chunk (at most the last of its kind)
      carries the total so far keeps every content chunk a running total. */
  lemma ContentRunningAppend(before: seq<StreamChunk>, out: seq<StreamChunk>)
    requires ContentIsRunningTotal(before)
    requires ContentLastOfKind(out, ContentDeltas(before) + ContentDeltas(out))
    ensures ContentIsRunningTotal(before + out)
  {
    var all := before + out;
    forall k | 0 <= k < |all| && all[k].ContentChunk?
      ensures all[k].content == ContentDeltas(all[..k + 1])
    {
      if k < |before| {
        assert all[..k + 1] == before[..k + 1];
      } else {
        var m := k - |before|;
        assert all[..k + 1] == before + out[..m + 1];
        ContentDeltasAppend(before, out[..m + 1]);
        LaterChunksNoContent(out, m);
      }
    }
  }

  /** The same for thinking chunks that carry a delta. */
  lemma ThinkingRunningAppend(before: seq<StreamChunk>, out: seq<StreamChunk>)
    requires ThinkingIsRunningTotal(before)
    requires ThinkingLastOfKind(out, ThinkingDeltas(before) + ThinkingDeltas(out))
    ensures ThinkingIsRunningTotal(before + out)
  {
    var all := before + out;
    forall k | 0 <= k < |all| && all[k].ThinkingChunk? && all[k].thinkingDelta.Some?
      ensures all[k].content == ThinkingDeltas(all[..k + 1])
    {
      if k < |before| {
        assert all[..k + 1] == before[..k + 1];
      } else {
        var m := k - |before|;
        assert all[..k + 1] == before + out[..m + 1];
        ThinkingDeltasAppend(before, out[..m + 1]);
        LaterChunksNoThinking(out, m);
      }
    }
  }

  /** Every content chunk of a stream carries the running total of the
      content deltas up to and including its own. */
  lemma {:induction false} RunContentIsRunningTotal(chunks: seq<CompletionChunk>, model: string, timestamp: int)
    ensures ContentIsRunningTotal(RunChunks(chunks, model, timestamp).1)
    decreases |chunks|
  {
    if |chunks| > 0 {
      var init, last := chunks[..|chunks| - 1], chunks[|chunks| - 1];
      RunContentIsRunningTotal(init, model, timestamp);
      RunTotals(init, model, timestamp);
      var (s0, before) := RunChunks(init, model, timestamp);
      StepProperties(s0, last, model, timestamp);
      RunChunksSnoc(init, last, model, timestamp);
      DropLastSnoc(chunks);
      ContentRunningAppend(before, Step(s0, last, model, timestamp).1);
    }
  }

  /** Every thinking chunk of a stream carries the running total of the
      thinking deltas up to and including its own. */
  lemma {:induction false} RunThinkingIsRunningTotal(chunks: seq<CompletionChunk>, model: string, timestamp: int)
    ensures ThinkingIsRunningTotal(RunChunks(chunks, model, timestamp).1)
    decreases |chunks|
  {
    if |chunks| > 0 {
      var init, last := chunks[..|chunks| - 1], chunks[|chunks| - 1];
      RunThinkingIsRunningTotal(init, model, timestamp);
      RunTotals(init, model, timestamp);
      var (s0, before) := RunChunks(init, model, timestamp);
      StepProperties(s0, last, model, timestamp);
      RunChunksSnoc(init, last, model, timestamp);
      DropLastSnoc(chunks);
      ThinkingRunningAppend(before, Step(s0, last, model, timestamp).1);
    }
  }

  /** A chunk whose first choice has a finish reason ends what it yields
      with one tool-call chunk per accumulated entry, in insertion order,
      then exactly one done chunk. The done chunk says "tool_calls" only
      when the provider's reason is literally "tool_calls"; its total is the
      provider's (0 when absent), so it is shaped as `buildDoneChunk` makes
      it exactly when that total is the sum of the two counts. */
  lemma FinishFlushesToolCalls(s: DeltaState, c: CompletionChunk, model: string, timestamp: int)
    requires |c.choices| > 0 && c.choices[0].finishReason != ""
    ensures var (s2, out) := Step(s, c, model, timestamp);
      var u := if c.usage.Some? then c.usage.value else CompletionUsage(None, None, None);
      && ToolCallsBeforeLast(out, ChunkContext(c.id, model, timestamp), s2.entries)
      && out[|out| - 1].DoneChunk?
      && (out[|out| - 1].finishReason == ToolCalls <==> c.choices[0].finishReason == "tool_calls")
      && out[|out| - 1].usage.totalTokens == OrZero(u.totalTokens)
      && (BuilderShaped(out[|out| - 1]) <==> OrZero(u.totalTokens) == OrZero(u.promptTokens) + OrZero(u.completionTokens))
  {
    var choice := c.choices[0];
    var ctx := ChunkContext(c.id, model, timestamp);
    var text := TextStep(s.(responseId := c.id), choice.delta, ctx);
    var (s2, out) := Step(s, c, model, timestamp);
    FlushedTail(out, text.1, ctx, s2.entries, c.usage, choice.finishReason);
  }

  /** The chunks end with one tool-call chunk per entry, in insertion order,
      followed by one more chunk. */
  predicate ToolCallsBeforeLast(out: seq<StreamChunk>, ctx: ChunkContext, entries: ToolCallEntries) {
    var n := |entries|;
    && |out| >= n + 1
    && forall k :: 0 <= k < n ==>
         out[|out| - 1 - n + k] == BuildToolCallChunk(ctx, entries[k].0, entries[k].1.id, entries[k].1.name, entries[k].1.arguments)
  }

  /** Text chunks, then what a finish reason adds: one tool-call chunk per
      entry in order just before the done chunk, which says "tool_calls"
      exactly for the literal reason, carries the provider's total and is
      builder-shaped exactly when that total is the sum of the two counts. */
  lemma FlushedTail(out: seq<StreamChunk>, text: seq<StreamChunk>, ctx: ChunkContext, entries: ToolCallEntries,
                    usage: Option<CompletionUsage>, finishReason: string)
    requires finishReason != "" && out == text + FinishChunks(ctx, entries, usage, finishReason)
    ensures var u := if usage.Some? then usage.value else CompletionUsage(None, None, None);
      && ToolCallsBeforeLast(out, ctx, entries)
      && out[|out| - 1].DoneChunk?
      && (out[|out| - 1].finishReason == ToolCalls <==> finishReason == "tool_calls")
      && out[|out| - 1].usage.totalTokens == OrZero(u.totalTokens)
      && (BuilderShaped(out[|out| - 1]) <==> OrZero(u.totalTokens) == OrZero(u.promptTokens) + OrZero(u.completionTokens))
  {
    assert out[|out| - 1] == DoneOf(ctx, usage, finishReason);
  }

  /** A chunk without a finish reason yields no tool-call and no done chunk. */
  lemma UnfinishedYieldsOnlyText(s: DeltaState, c: CompletionChunk, model: string, timestamp: int)
    requires |c.choices| == 0 || c.choices[0].finishReason == ""
    ensures var out := Step(s, c, model, timestamp).1;
      forall k :: 0 <= k < |out| ==> out[k].ContentChunk? || out[k].ThinkingChunk?
  {
    if |c.choices| > 0 {
      TextStepProperties(s.(responseId := c.id), c.choices[0].delta, ChunkContext(c.id, model, timestamp));
      assert Step(s, c, model, timestamp).1 == TextStep(s.(responseId := c.id), c.choices[0].delta, ChunkContext(c.id, model, timestamp)).1 + [];
    }
  }

  // ---------------------------------------------------------------------
  // A whole chatStream call
  // ---------------------------------------------------------------------

  /** What the SDK does: `create` rejects, or a stream of chunks that may end
      with a thrown error; `writeFailure` is what writing the debug file
      throws, if it does. */
  datatype ProviderStream =
    | CreateRejected(error: Thrown)
    | Opened(chunks: seq<CompletionChunk>, iterationFailure: Option<Thrown>, writeFailure: Option<Thrown>)

  const LogPrefix: string := "Stream"

  /** `chatStream`: converting the messages cannot throw (it only extracts
      text and stringifies), so every failure is caught. The debug file is
      written only when at least one chunk arrived. */
  function ChatStream(options: TextOptions, stream: ProviderStream, errorId: string, timestamp: int): ChatRun {
    var errorCtx := ChunkContext(errorId, options.model, timestamp);
    match stream
    case CreateRejected(e) => Caught(LogPrefix, [], e, errorCtx)
    case Opened(chunks, iterationFailure, writeFailure) =>
      var yielded := RunChunks(chunks, options.model, timestamp).1;
      if iterationFailure.Some? then Caught(LogPrefix, yielded, iterationFailure.value, errorCtx)
      else if |chunks| > 0 && writeFailure.Some? then Caught(LogPrefix, yielded, writeFailure.value, errorCtx)
      else ChatRun(yielded, None, false)
  }

  /** The error a run ends with, if any. */
  function FailureOf(stream: ProviderStream): Option<Thrown> {
    match stream
    case CreateRejected(e) => Some(e)
    case Opened(chunks, iterationFailure, writeFailure) =>
      if iterationFailure.Some? then iterationFailure
      else if |chunks| > 0 then writeFailure
      else None
  }

  /** A call yields an error chunk exactly when something threw: then
      exactly one, last, carrying the Error's message, with the log line
      `logAdapterError` would write; a value thrown that is not an Error
      makes the generator itself reject. */
  lemma ErrorChunkIffFailure(options: TextOptions, stream: ProviderStream, errorId: string, timestamp: int)
    ensures var run := ChatStream(options, stream, errorId, timestamp);
      var failure := FailureOf(stream);
      && (run.rejected <==> failure.Some? && failure.value.NonError?)
      && (failure.None? ==> ErrorCount(run.chunks) == 0 && run.logged.None?)
      && (failure.Some? && failure.value.ErrorObject? ==>
            && ErrorCount(run.chunks) == 1
            && run.chunks[|run.chunks| - 1] == ErrorChunk(ChunkContext(errorId, options.model, timestamp), failure.value.message)
            && run.logged == LogAdapterError(LogPrefix, failure.value))
  {
    var yielded := if stream.Opened? then RunChunks(stream.chunks, options.model, timestamp).1 else [];
    if stream.Opened? {
      RunTotals(stream.chunks, options.model, timestamp);
    }
    assert forall c :: c in yielded ==> !c.ErrorChunk?;
    NoErrorsCountZero(yielded);
    RunEndsAsFailure(LogPrefix, yielded, FailureOf(stream), ChatStream(options, stream, errorId, timestamp),
                     ChunkContext(errorId, options.model, timestamp));
  }
}
