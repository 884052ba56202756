/** The chat page of src/routes/index.tsx: the stream phase and the
    thinking history kept across turns, updated chunk by chunk, and the
    classifications the page renders from. */
module IndexRoute {
  import opened Common
  import opened Json
  import opened Chunks
  import opened ThinkingHistory
  import opened EditableChat

  datatype StreamPhase = Idle | Pending | Thinking | ToolStreaming | Complete

  /** A chunk the chat client hands to `onChunk`: one of the adapters'
      chunks, or a chunk of a kind the page does not handle. */
  datatype ClientChunk = AdapterChunk(chunk: StreamChunk) | OtherChunk(kind: string)

  /** The phase after a chunk. */
  function PhaseAfter(phase: StreamPhase, c: ClientChunk): (r: StreamPhase)
    ensures c.AdapterChunk? && c.chunk.ThinkingChunk? ==> r == Thinking
    ensures c.AdapterChunk? && c.chunk.ToolCallChunk? ==> r == ToolStreaming
    ensures c.AdapterChunk? && (c.chunk.ContentChunk? || c.chunk.DoneChunk?) ==> r == Complete
    ensures c.OtherChunk? || c.chunk.ErrorChunk? ==> r == phase
  {
    match c
    case OtherChunk(_) => phase
    case AdapterChunk(chunk) =>
      match chunk
      case ThinkingChunk(_, _, _, _, _) => Thinking
      case ToolCallChunk(_, _, _) => ToolStreaming
      case ContentChunk(_, _, _, _) => Complete
      case DoneChunk(_, _, _) => Complete
      case ErrorChunk(_, _) => phase
  }

  /** The page's state: the phase, the current-thinking ref and the
      thinking-history ref. */
  class ChatPage {
    var streamPhase: StreamPhase
    var currentThinking: Option<CurrentThinking>
    var history: HistoryEntries

    ghost predicate Valid()
      reads this
    {
      DistinctIds(history)
    }

    constructor ()
      ensures Valid() && streamPhase == Idle && currentThinking == None && history == []
    {
      streamPhase := Idle;
      currentThinking := None;
      history := [];
    }

    /** `onChunk`: the phase follows the chunk's kind; a thinking chunk
        moves the current-thinking pointer and updates the history exactly
        as the history store's `processChunk` does. */
    method OnChunk(c: ClientChunk)
      requires Valid()
      modifies this
      ensures Valid()
      ensures streamPhase == PhaseAfter(old(streamPhase), c)
      ensures c.AdapterChunk? && c.chunk.ThinkingChunk? ==>
        && currentThinking == Some(CurrentThinking(c.chunk.ctx.id, c.chunk.content))
        && history == Processed(old(history), c.chunk)
      ensures !(c.AdapterChunk? && c.chunk.ThinkingChunk?) ==>
        currentThinking == old(currentThinking) && history == old(history)
    {
      streamPhase := PhaseAfter(streamPhase, c);
      if c.AdapterChunk? && c.chunk.ThinkingChunk? {
        var chunk := c.chunk;
        currentThinking := Some(CurrentThinking(chunk.ctx.id, chunk.content));
        if chunk.isComplete == Some(true) && chunk.signature.Some? && chunk.signature.value != "" {
          ProcessStoresCompleteAndSigned(history, chunk);
          history := Saved(history, chunk.ctx.id, ThinkingItem(chunk.content, chunk.signature.value));
        }
      }
    }

    /** `onFinish`: back to idle with no current thinking; the history
        stays for the next turn. */
    method OnFinish()
      modifies this
      ensures streamPhase == Idle && currentThinking == None && history == old(history)
    {
      streamPhase := Idle;
      currentThinking := None;
    }
  }

  /** `effectivePhase`: pending while loading before any chunk arrived. */
  function EffectivePhase(isLoading: bool, phase: StreamPhase): (r: StreamPhase)
    ensures r == Pending <==> (isLoading && phase == Idle) || phase == Pending
    ensures r != Pending ==> r == phase
  {
    if isLoading && phase == Idle then Pending else phase
  }

  datatype UiState = Initial | Interviewing | Followup

  /** An interview call whose input is complete and that has no (truthy)
      output yet: the user still owes the answers. */
  predicate ActiveInterviewPart(part: UiPart) {
    && part.ToolCallPart? && part.name == "interview" && part.state == Some("input-complete")
    && !(part.output.Some? && Truthy(part.output.value))
  }

  predicate HasActiveInterview(msg: UiMessage) {
    exists k :: 0 <= k < |msg.parts| && ActiveInterviewPart(msg.parts[k])
  }

  /** Message `k` is the last with role "assistant". */
  predicate LastAssistantAt(messages: seq<UiMessage>, k: int) {
    && 0 <= k < |messages| && messages[k].role == "assistant"
    && forall j :: k < j < |messages| ==> messages[j].role != "assistant"
  }

  /** The position of the last message with role "assistant". */
  function LastAssistantIndex(messages: seq<UiMessage>): (r: Option<nat>)
    ensures r.None? <==> forall k :: 0 <= k < |messages| ==> messages[k].role != "assistant"
    ensures r.Some? ==> LastAssistantAt(messages, r.value)
    decreases |messages|
  {
    if |messages| == 0 then None
    else if messages[|messages| - 1].role == "assistant" then Some(|messages| - 1)
    else
      var r := LastAssistantIndex(messages[..|messages| - 1]);
      assert forall k :: 0 <= k < |messages| - 1 ==> messages[..|messages| - 1][k] == messages[k];
      r
  }

  /** The last message with role "assistant". */
  function LastAssistant(messages: seq<UiMessage>): (r: Option<UiMessage>)
    ensures r.None? <==> forall k :: 0 <= k < |messages| ==> messages[k].role != "assistant"
    ensures r.Some? ==> exists k :: LastAssistantAt(messages, k) && messages[k] == r.value
  {
    match LastAssistantIndex(messages)
    case None => None
    case Some(k) => Some(messages[k])
  }

  /** `getUIState` */
  function GetUiState(messages: seq<UiMessage>, isLoading: bool): UiState {
    if |messages| == 0 then Initial
    else match LastAssistant(messages)
      case None => Initial
      case Some(msg) => if HasActiveInterview(msg) || isLoading then Interviewing else Followup
  }

  /** The page starts over with no assistant message; it is interviewing
      while loading or while the last assistant message waits for
      interview answers; otherwise it is in follow-up. */
  lemma UiStateCases(messages: seq<UiMessage>, isLoading: bool)
    ensures GetUiState(messages, isLoading) == Initial <==>
      forall k :: 0 <= k < |messages| ==> messages[k].role != "assistant"
    ensures GetUiState(messages, isLoading) == Interviewing <==>
      exists k :: LastAssistantAt(messages, k) && (isLoading || HasActiveInterview(messages[k]))
    ensures GetUiState(messages, isLoading) == Followup <==>
      exists k :: LastAssistantAt(messages, k) && !isLoading && !HasActiveInterview(messages[k])
  {
    var r := LastAssistant(messages);
    if r.Some? {
      var k :| LastAssistantAt(messages, k) && messages[k] == r.value;
      forall k' | LastAssistantAt(messages, k')
        ensures k' == k
      {
      }
    }
  }

  // ---------------------------------------------------------------------
  // The request body

  /** The body sent with each chat request: the non-empty settings, only
      when there are any, and the thinking history, only when it is not
      empty. */
  datatype ClientBody = ClientBody(settings: Option<seq<(string, string)>>, thinkingHistory: Option<HistoryEntries>)

  /** `Object.entries(settings).filter(([_, v]) => v)` */
  function NonEmptySettings(settings: seq<(string, string)>): seq<(string, string)>
    decreases |settings|
  {
    if |settings| == 0 then []
    else
      var last := settings[|settings| - 1];
      NonEmptySettings(settings[..|settings| - 1]) + (if last.1 != "" then [last] else [])
  }

  /** Dropping the empty settings keeps exactly the others, and no more entries. */
  lemma {:induction false} NonEmptySettingsKept(settings: seq<(string, string)>)
    ensures forall e :: e in NonEmptySettings(settings) <==> e in settings && e.1 != ""
    ensures |NonEmptySettings(settings)| <= |settings|
    decreases |settings|
  {
    if |settings| > 0 {
      NonEmptySettingsKept(settings[..|settings| - 1]);
      DropLastSnoc(settings);
    }
  }

  /** The body the connection sends. */
  function RequestBody(settings: seq<(string, string)>, history: HistoryEntries): ClientBody {
    var filtered := NonEmptySettings(settings);
    ClientBody(if |filtered| > 0 then Some(filtered) else None, if |history| > 0 then Some(history) else None)
  }

  /** `settings` is sent exactly when some stored setting is non-empty, and
      then holds only non-empty values; `thinkingHistory` exactly when the
      history has an entry. */
  lemma RequestBodyFields(settings: seq<(string, string)>, history: HistoryEntries)
    ensures RequestBody(settings, history).settings.Some? <==> exists e :: e in settings && e.1 != ""
    ensures RequestBody(settings, history).settings.Some? ==>
      forall e :: e in RequestBody(settings, history).settings.value <==> e in settings && e.1 != ""
    ensures RequestBody(settings, history).thinkingHistory.Some? <==> |history| > 0
    ensures RequestBody(settings, history).thinkingHistory.Some? ==> RequestBody(settings, history).thinkingHistory.value == history
  {
    NonEmptySettingsKept(settings);
    var filtered := NonEmptySettings(settings);
    if |filtered| > 0 {
      assert filtered[0] in filtered;
    }
  }
}
