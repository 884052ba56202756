/** Error classification shared by the adapters
    (src/lib/adapter-utils.ts). */
module AdapterUtils {
  import opened Common
  import opened Chunks

  /** A thrown value: an `Error` (with its `name` and `message`), or any other
      value, given by what `String(value)` makes of it. */
  datatype Thrown = ErrorObject(name: string, message: string) | NonError(text: string)

  /** The user stopped the request: an AbortError, or an Error whose message
      mentions "aborted". */
  predicate IsUserCancellation(e: Thrown) {
    e.ErrorObject? && (e.name == "AbortError" || Includes(e.message, "aborted"))
  }

  /** The message an error chunk carries. */
  function ErrorMessage(e: Thrown): string {
    match e
    case ErrorObject(_, m) => m
    case NonError(t) => t
  }

  /** `createErrorChunk` */
  function CreateErrorChunk(e: Thrown, ctx: ChunkContext): (c: StreamChunk)
    ensures c.ErrorChunk? && c.ctx == ctx
    ensures e.ErrorObject? ==> c.message == e.message
    ensures e.NonError? ==> c.message == e.text
  {
    ErrorChunk(ctx, ErrorMessage(e))
  }

  /** `logAdapterError`: the line written to the error log, if any, as the
      prefix tag and the message. */
  function LogAdapterError(prefix: string, e: Thrown): (r: Option<(string, string)>)
    ensures r.None? <==> IsUserCancellation(e)
    ensures r.Some? ==> r.value == ("[" + prefix + "] error:", ErrorMessage(e))
  {
    if IsUserCancellation(e) then None else Some(("[" + prefix + "] error:", ErrorMessage(e)))
  }

  /** What a consumer of an adapter's `chatStream` generator sees: the
      chunks yielded, the line written to the error log, and whether the
      generator itself threw. */
  datatype ChatRun = ChatRun(chunks: seq<StreamChunk>, logged: Option<(string, string)>, rejected: bool)

  /** The `catch` block both adapters write inline instead of calling the
      helpers above: one error chunk after what was already yielded, and a
      log line unless the error is a cancellation. A thrown value that is not
      an Error has no `message`, so the cancellation test itself throws and
      the generator rejects. */
  function Caught(prefix: string, yielded: seq<StreamChunk>, e: Thrown, errorCtx: ChunkContext): ChatRun {
    if e.NonError? then ChatRun(yielded, None, true)
    else
      var logged := if e.name != "AbortError" && !Includes(e.message, "aborted")
        then Some(("[" + prefix + "] error:", e.message)) else None;
      ChatRun(yielded + [ErrorChunk(errorCtx, e.message)], logged, false)
  }

  /** A caught Error after a run without error chunks ends the stream with
      exactly one error chunk, the one `createErrorChunk` makes; the inline
      log test writes exactly what `logAdapterError` would, so a
      cancellation only suppresses the log line. */
  lemma CaughtErrorEndsStream(prefix: string, yielded: seq<StreamChunk>, e: Thrown, errorCtx: ChunkContext)
    requires e.ErrorObject?
    requires ErrorCount(yielded) == 0
    ensures var run := Caught(prefix, yielded, e, errorCtx);
      && !run.rejected
      && run.chunks[..|run.chunks| - 1] == yielded
      && ErrorCount(run.chunks) == 1
      && run.chunks[|run.chunks| - 1] == CreateErrorChunk(e, errorCtx)
      && run.logged == LogAdapterError(prefix, e)
  {
    var all := yielded + [ErrorChunk(errorCtx, e.message)];
    assert all[..|all| - 1] == yielded;
  }

  /** A run that ends in the `catch` block exactly when `failure` is set
      yields an error chunk exactly then: one, last, carrying the Error's
      message, logged as `logAdapterError` would; a non-Error rejects. */
  lemma RunEndsAsFailure(prefix: string, yielded: seq<StreamChunk>, failure: Option<Thrown>, run: ChatRun,
                         errorCtx: ChunkContext)
    requires ErrorCount(yielded) == 0
    requires failure.None? ==> run == ChatRun(yielded, None, false)
    requires failure.Some? ==> run == Caught(prefix, yielded, failure.value, errorCtx)
    ensures run.rejected <==> failure.Some? && failure.value.NonError?
    ensures failure.None? ==> ErrorCount(run.chunks) == 0 && run.logged.None?
    ensures failure.Some? && failure.value.ErrorObject? ==>
      && ErrorCount(run.chunks) == 1
      && run.chunks[|run.chunks| - 1] == ErrorChunk(errorCtx, failure.value.message)
      && run.logged == LogAdapterError(prefix, failure.value)
  {
    if failure.Some? && failure.value.ErrorObject? {
      CaughtErrorEndsStream(prefix, yielded, failure.value, errorCtx);
    }
  }
}
