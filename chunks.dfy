/** The chunks an adapter emits, and the builders of
    src/lib/adapters/base/chunk-builders.ts that construct them. Every chunk
    carries the context it was built for (response id, model, timestamp);
    optional fields of a chunk are `Option`s. */
module Chunks {
  import opened Common

  /** A stored thinking block: its text and the provider's signature over it. */
  datatype ThinkingItem = ThinkingItem(thinking: string, signature: string)

  datatype ChunkContext = ChunkContext(id: string, model: string, timestamp: int)

  /** `{id, type: "function", function: {name, arguments}}` */
  datatype ToolCallPayload = ToolCallPayload(id: string, kind: string, name: string, arguments: string)

  datatype Usage = Usage(promptTokens: int, completionTokens: int, totalTokens: int)

  datatype FinishReason = Stop | ToolCalls

  datatype StreamChunk =
    | ContentChunk(ctx: ChunkContext, delta: string, content: string, role: string)
    | ThinkingChunk(ctx: ChunkContext, thinkingDelta: Option<string>, content: string,
                    signature: Option<string>, isComplete: Option<bool>)
    | ToolCallChunk(ctx: ChunkContext, index: int, toolCall: ToolCallPayload)
    | DoneChunk(ctx: ChunkContext, usage: Usage, finishReason: FinishReason)
    | ErrorChunk(ctx: ChunkContext, message: string)

  /** The `...(x && {field: x})` spread of a string option: present only when non-empty. */
  function TruthyString(x: Option<string>): (r: Option<string>)
    ensures r.Some? <==> x.Some? && x.value != ""
    ensures r.Some? ==> r == x
  {
    if x.Some? && x.value != "" then x else None
  }

  /** The same spread for a boolean option: present only when `true`. */
  function TruthyBool(x: Option<bool>): (r: Option<bool>)
    ensures r.Some? <==> x == Some(true)
    ensures r.Some? ==> r.value
  {
    if x == Some(true) then x else None
  }

  /** A content chunk: role "assistant", the delta and running content as given. */
  function BuildContentChunk(ctx: ChunkContext, delta: string, content: string): (c: StreamChunk)
    ensures c.ContentChunk? && c.ctx == ctx
    ensures c.role == "assistant" && c.delta == delta && c.content == content
  {
    ContentChunk(ctx, delta, content, "assistant")
  }

  /** A thinking chunk. `delta`, `signature` and `isComplete` appear only when
      truthy: an empty string or `false` leaves the field out. */
  function BuildThinkingChunk(ctx: ChunkContext, content: string, delta: Option<string>,
                              signature: Option<string>, isComplete: Option<bool>): (c: StreamChunk)
    ensures c.ThinkingChunk? && c.ctx == ctx && c.content == content
    ensures c.thinkingDelta.Some? <==> delta.Some? && delta.value != ""
    ensures c.signature.Some? <==> signature.Some? && signature.value != ""
    ensures c.isComplete.Some? <==> isComplete == Some(true)
    ensures c.thinkingDelta.Some? ==> c.thinkingDelta == delta
    ensures c.signature.Some? ==> c.signature == signature
    ensures c.isComplete.Some? ==> c.isComplete == Some(true)
  {
    ThinkingChunk(ctx, TruthyString(delta), content, TruthyString(signature), TruthyBool(isComplete))
  }

  /** A tool-call chunk of type "function", passing index, id, name and
      arguments through. */
  function BuildToolCallChunk(ctx: ChunkContext, index: int, id: string, name: string, arguments: string): (c: StreamChunk)
    ensures c.ToolCallChunk? && c.ctx == ctx && c.index == index
    ensures c.toolCall.kind == "function"
    ensures c.toolCall.id == id && c.toolCall.name == name && c.toolCall.arguments == arguments
  {
    ToolCallChunk(ctx, index, ToolCallPayload(id, "function", name, arguments))
  }

  /** A done chunk whose total is the sum of its two counts. */
  function BuildDoneChunk(ctx: ChunkContext, promptTokens: int, completionTokens: int, reason: FinishReason): (c: StreamChunk)
    ensures c.DoneChunk? && c.ctx == ctx && c.finishReason == reason
    ensures c.usage.promptTokens == promptTokens && c.usage.completionTokens == completionTokens
    ensures c.usage.totalTokens == c.usage.promptTokens + c.usage.completionTokens
  {
    DoneChunk(ctx, Usage(promptTokens, completionTokens, promptTokens + completionTokens), reason)
  }

  /** The chunk is exactly what the matching builder makes of its own
      fields: the shape every adapter is meant to emit. */
  predicate BuilderShaped(c: StreamChunk) {
    match c
    case ContentChunk(ctx, delta, content, _) => c == BuildContentChunk(ctx, delta, content)
    case ThinkingChunk(ctx, delta, content, signature, isComplete) =>
      c == BuildThinkingChunk(ctx, content, delta, signature, isComplete)
    case ToolCallChunk(ctx, index, call) => c == BuildToolCallChunk(ctx, index, call.id, call.name, call.arguments)
    case DoneChunk(ctx, usage, reason) => c == BuildDoneChunk(ctx, usage.promptTokens, usage.completionTokens, reason)
    case ErrorChunk(_, _) => true
  }

  /** The kind tag (`type` field) of a chunk. */
  function Kind(c: StreamChunk): string {
    match c
    case ContentChunk(_, _, _, _) => "content"
    case ThinkingChunk(_, _, _, _, _) => "thinking"
    case ToolCallChunk(_, _, _) => "tool_call"
    case DoneChunk(_, _, _) => "done"
    case ErrorChunk(_, _) => "error"
  }

  /** A thinking chunk with a signature: what the history store keeps. */
  predicate CompleteAndSigned(c: StreamChunk) {
    c.ThinkingChunk? && c.isComplete == Some(true) && c.signature.Some? && c.signature.value != ""
  }

  /** The running content of consecutive content chunks: every content chunk
      carries the concatenation of the deltas of all content chunks up to
      and including itself. */
  function ContentDeltas(chunks: seq<StreamChunk>): string
    decreases |chunks|
  {
    if |chunks| == 0 then ""
    else
      var last := chunks[|chunks| - 1];
      ContentDeltas(chunks[..|chunks| - 1]) + (if last.ContentChunk? then last.delta else "")
  }

  predicate ContentIsRunningTotal(chunks: seq<StreamChunk>) {
    forall k :: 0 <= k < |chunks| && chunks[k].ContentChunk? ==> chunks[k].content == ContentDeltas(chunks[..k + 1])
  }

  /** The same for thinking chunks that carry a delta. */
  function ThinkingDeltas(chunks: seq<StreamChunk>): string
    decreases |chunks|
  {
    if |chunks| == 0 then ""
    else
      var last := chunks[|chunks| - 1];
      ThinkingDeltas(chunks[..|chunks| - 1])
        + (if last.ThinkingChunk? && last.thinkingDelta.Some? then last.thinkingDelta.value else "")
  }

  predicate ThinkingIsRunningTotal(chunks: seq<StreamChunk>) {
    forall k :: 0 <= k < |chunks| && chunks[k].ThinkingChunk? && chunks[k].thinkingDelta.Some? ==>
      chunks[k].content == ThinkingDeltas(chunks[..k + 1])
  }

  /** The deltas of two runs of chunks, one after the other. */
  lemma {:induction false} ContentDeltasAppend(a: seq<StreamChunk>, b: seq<StreamChunk>)
    ensures ContentDeltas(a + b) == ContentDeltas(a) + ContentDeltas(b)
    decreases |b|
  {
    if |b| == 0 {
      assert a + b == a;
    } else {
      assert (a + b)[..|a + b| - 1] == a + b[..|b| - 1];
      ContentDeltasAppend(a, b[..|b| - 1]);
    }
  }

  /** Appending at most one chunk, a content chunk carrying the new total,
      keeps every content chunk a running total. */
  lemma ContentRunningExtend(before: seq<StreamChunk>, out: seq<StreamChunk>)
    requires ContentIsRunningTotal(before) && |out| <= 1
    requires forall c :: c in out && c.ContentChunk? ==> c.content == ContentDeltas(before) + ContentDeltas(out)
    ensures ContentIsRunningTotal(before + out)
  {
    var all := before + out;
    forall k | 0 <= k < |all| && all[k].ContentChunk?
      ensures all[k].content == ContentDeltas(all[..k + 1])
    {
      if k < |before| {
        assert all[..k + 1] == before[..k + 1];
      } else {
        assert all[k] in out;
        assert all[..k + 1] == all;
        ContentDeltasAppend(before, out);
      }
    }
  }

  lemma {:induction false} ThinkingDeltasAppend(a: seq<StreamChunk>, b: seq<StreamChunk>)
    ensures ThinkingDeltas(a + b) == ThinkingDeltas(a) + ThinkingDeltas(b)
    decreases |b|
  {
    if |b| == 0 {
      assert a + b == a;
    } else {
      assert (a + b)[..|a + b| - 1] == a + b[..|b| - 1];
      ThinkingDeltasAppend(a, b[..|b| - 1]);
    }
  }
  /** The number of error chunks among `chunks`. */
  function ErrorCount(chunks: seq<StreamChunk>): nat
    decreases |chunks|
  {
    if |chunks| == 0 then 0
    else ErrorCount(chunks[..|chunks| - 1]) + (if chunks[|chunks| - 1].ErrorChunk? then 1 else 0)
  }

  lemma {:induction false} NoErrorsCountZero(chunks: seq<StreamChunk>)
    requires forall c :: c in chunks ==> !c.ErrorChunk?
    ensures ErrorCount(chunks) == 0
    decreases |chunks|
  {
    if |chunks| > 0 {
      assert forall c :: c in chunks[..|chunks| - 1] ==> c in chunks;
      NoErrorsCountZero(chunks[..|chunks| - 1]);
    }
  }
}
