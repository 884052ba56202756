# think-lab core, modelled in Dafny

think-lab is a chat application that lets a model "interview" its user: the
model calls an `interview` tool with structured questions, the browser renders
them as a wizard, and the answers travel back as the tool's result. Around that
sit two streaming adapters (Anthropic Messages API and OpenAI Chat
Completions), a store that keeps extended-thinking blocks so they can be sent
back on the next turn, and a "context patch" engine that asks a small model
which Markdown patches apply to the user's message and injects them into the
system prompt.

This project models that core and proves properties of the model:

| file | module | models |
|---|---|---|
| common.dfy | Common | `Option`, and the JavaScript string operations used (`startsWith`, `includes`, `indexOf`, `join`, `trim`, `toLowerCase`) |
| json.dfy | Json | values as `JSON.parse` returns them, truthiness, property access |
| chunks.dfy | Chunks | the stream chunks and their builders |
| stream_processor.dfy | StreamProcessor | SSE line framing, the tool-call and content accumulators (classes) |
| message_utils.dfy | MessageUtils | `extractContent` |
| adapter_utils.dfy | AdapterUtils | cancellation test, error chunk, error logging, the adapters' `catch` |
| anthropic_adapter.dfy | AnthropicAdapter | request body, the event machine of `processStream`, `convertMessages` with thinking pairing |
| openai_adapter.dfy | OpenAIAdapter | request body, the per-chunk machine, tool-call accumulation, `convertMessages` |
| thinking_history.dfy | ThinkingHistory | the thinking-history store (class) |
| context_patches.dfy | ContextPatches | patch files, loading, detection prompt and reply, `{{topic}}` substitution, injection, detection model |
| interview.dfy | InterviewTool | the interview tool's input and output schemas as decoders, with encoders |
| multi_select.dfy, custom_input.dfy, editable_chat.dfy | MultiSelect, CustomInput, EditableChat | the three React hooks as classes over their state |
| interview_ui.dfy | InterviewUi | the wizard's step and answer handlers |
| api_chat.dfy | ChatRoute | the `POST /api/chat` handler |
| index_route.dfy | IndexRoute | the chat page's phase tracking, UI state and request body |
| settings_page.dfy | SettingsPage | the settings page's classifiers and its two loaders |

The network, `JSON.parse`/`JSON.stringify`, the file system, clocks and id
generation are parameters: a provider's answer is a value (a sequence of
read pieces, a list of completion chunks, a fetch outcome), parsing is a
function `string -> Option<JsonValue>`, a directory is a listing and a map of
readable files, and `Date.now()`/`generateId()` are given numbers and strings.
Each imperative loop of the source is a `method` with loop invariants proved
equal to a recursive specification function; the properties are lemmas about
those functions.

Where the code and its documentation disagree, the model follows the code:

- The OpenAI adapter flushes its tool calls, on a chunk with a finish reason, in
  the order their indices were first seen (a `Map`'s insertion order), not
  sorted by index (`OpenAIAdapter.StreamToolCalls`).
- The OpenAI adapter reports finish reason `tool_calls` only when the provider
  sent literally `"tool_calls"`; having accumulated tool calls does not matter
  (`OpenAIAdapter.FinishFlushesToolCalls`). The Anthropic adapter, in contrast,
  decides by whether a tool_use block was started (`AnthropicAdapter.DoneAfterEvents`).
- Neither adapter guarantees exactly one terminal chunk: a stream without
  `message_stop` / finish reason ends with no done chunk, one with several ends
  with several, and an error after a done chunk adds an error chunk after it.
- The OpenAI done chunk's total is the provider's `total_tokens` (0 when
  absent), not the sum of the two counts; it is builder-shaped only when the
  provider's numbers add up.
- The chat route picks its detection model with its own function, whose
  fallback names differ from the library's `getDetectionModel`
  (`ChatRoute.DetectionModelsDiffer`).

## Model

| member | source | states |
|---|---|---|
| Common.IndexOf | src/lib/context-patches.ts:216-224 | the first index where the pattern occurs, none exactly when it does not occur |
| Common.Trim | src/hooks/use-custom-input.ts:31 | the infix that starts after the leading white space, with only white space before and after it and no white space at either end |
| Common.TrimUnchanged | src/hooks/use-custom-input.ts:31 | trimming a string that neither starts nor ends with white space leaves it unchanged |
| Common.ToLower | src/routes/settings.tsx:125-126 | same length, every character lower-cased |
| Chunks.TruthyString | src/lib/adapters/base/chunk-builders.ts:50-51 | an optional string field is present exactly when it is a non-empty string, and then unchanged |
| Chunks.TruthyBool | src/lib/adapters/base/chunk-builders.ts:52 | an optional flag is present exactly when it is `true` |
| Chunks.BuildContentChunk | src/lib/adapters/base/chunk-builders.ts:20-34 | a content chunk with role "assistant", the given context, delta and content |
| Chunks.BuildThinkingChunk | src/lib/adapters/base/chunk-builders.ts:39-54 | delta, signature and completion flag appear exactly when truthy and then carry the given values |
| Chunks.BuildToolCallChunk | src/lib/adapters/base/chunk-builders.ts:59-79 | a tool-call chunk of kind "function" that passes index, id, name and arguments through |
| Chunks.BuildDoneChunk | src/lib/adapters/base/chunk-builders.ts:84-101 | the total token count is the sum of prompt and completion counts |
| Chunks.ContentDeltasAppend | src/lib/anthropic-compat-adapter.ts:286-296 | the concatenated content deltas of two runs of chunks are those of each run, in order |
| Chunks.ThinkingDeltasAppend | src/lib/anthropic-compat-adapter.ts:270-279 | the same for thinking deltas |
| StreamProcessor.Split | src/lib/adapters/base/stream-processor.ts:32-33 | `split("\n")` yields at least one piece |
| StreamProcessor.SplitJoin | src/lib/adapters/base/stream-processor.ts:32-33 | joining the pieces with "\n" gives the input back, and no piece contains "\n" |
| StreamProcessor.SplitAppend | src/lib/adapters/base/stream-processor.ts:31-33 | splitting a concatenation re-splits only the last piece of the first part joined to the second |
| StreamProcessor.FrameFromIsSplit | src/lib/adapters/base/stream-processor.ts:23-34 | after any sequence of reads, the lines handed on and the buffer kept are exactly the split of everything read: all pieces but the last, and the last |
| StreamProcessor.UnterminatedTailIgnored | src/lib/adapters/base/stream-processor.ts:33 | a final fragment without a newline is never processed |
| StreamProcessor.LineEvent | src/lib/adapters/base/stream-processor.ts:35-50 | an event comes only from a "data: " line whose payload is not "[DONE]" and parses, and carries the parsed payload |
| StreamProcessor.EventsOfAppend | src/lib/adapters/base/stream-processor.ts:35-50 | the events of two batches of lines are the events of each, in order |
| StreamProcessor.EventsComeFromDataLines | src/lib/adapters/base/stream-processor.ts:35-50 | every event yielded comes from some data line of the input, has a non-null payload and takes its kind from the payload's `type` |
| StreamProcessor.ReadSseStream | src/lib/adapters/base/stream-processor.ts:17-56 | the read loop yields exactly the events of the complete lines of all pieces read |
| StreamProcessor.FrameFromSnoc | src/lib/adapters/base/stream-processor.ts:29-34 | one more read adds exactly the lines completed by that read |
| StreamProcessor.UpdatedCalls | src/lib/adapters/base/stream-processor.ts:71-89 | an update creates the entry if missing and leaves every other index untouched |
| StreamProcessor.ArgumentsConcatenate | src/lib/adapters/base/stream-processor.ts:86-88 | successive argument fragments for one index concatenate in order onto that entry, other entries unchanged |
| StreamProcessor.LatestIdWins | src/lib/adapters/base/stream-processor.ts:80-85 | a later non-empty id replaces an earlier one; an empty partial only ensures the entry exists |
| StreamProcessor.ToolCallAccumulator.Update | src/lib/adapters/base/stream-processor.ts:71-89 | the map becomes the updated map, and a new index is appended to the insertion order |
| StreamProcessor.ToolCallAccumulator.Get | src/lib/adapters/base/stream-processor.ts:94-98 | the entry at the index as a value, or none |
| StreamProcessor.ToolCallAccumulator.GetAll | src/lib/adapters/base/stream-processor.ts:103-108 | a copy of the map in insertion order, entries as values |
| StreamProcessor.ToolCallAccumulator.HasToolCalls | src/lib/adapters/base/stream-processor.ts:110-115 | true exactly when some entry exists |
| StreamProcessor.ToolCallAccumulator.Clear | src/lib/adapters/base/stream-processor.ts:117-119 | no entries remain |
| StreamProcessor.ContentAccumulator.AppendContent | src/lib/adapters/base/stream-processor.ts:130-133 | content grows by the delta and the new total is returned; thinking and signature unchanged |
| StreamProcessor.ContentAccumulator.AppendThinking | src/lib/adapters/base/stream-processor.ts:135-138 | thinking grows by the delta and the new total is returned; content and signature unchanged |
| StreamProcessor.ContentAccumulator.SetSignature | src/lib/adapters/base/stream-processor.ts:140-142 | the signature is replaced, the rest unchanged |
| StreamProcessor.ContentAccumulator.ResetThinking | src/lib/adapters/base/stream-processor.ts:156-159 | thinking and signature cleared, content kept |
| StreamProcessor.ContentAccumulator.Reset | src/lib/adapters/base/stream-processor.ts:161-165 | all three cleared |
| StreamProcessor.ContentAccumulator.AppendAllContent | src/lib/adapters/base/stream-processor.ts:130-133 | appending a series of deltas returns each running total, and the content ends as the old content plus all deltas |
| MessageUtils.ExtractContent | src/lib/message-utils.ts:7-20 | empty for absent or empty content, the string itself, or the concatenated text of the text parts |
| MessageUtils.TextOfPartsAppend | src/lib/message-utils.ts:16-19 | the text of two runs of parts is the text of each, in order |
| MessageUtils.NoTextPartsGiveEmpty | src/lib/message-utils.ts:16-19 | parts without a text part give "" |
| MessageUtils.OnlyTextPartsCount | src/lib/message-utils.ts:16-19 | the result depends only on the text parts, and filtering keeps only text parts |
| AdapterUtils.CreateErrorChunk | src/lib/adapter-utils.ts:18-32 | an error chunk with the given context and the thrown value's message |
| AdapterUtils.LogAdapterError | src/lib/adapter-utils.ts:37-42 | a log line is written exactly when the error is not a user cancellation |
| AdapterUtils.CaughtErrorEndsStream | src/lib/openai-compat-adapter.ts:196-211 | a caught Error appends exactly one error chunk, the one `createErrorChunk` builds, after the chunks already yielded, and logs what `logAdapterError` logs |
| AnthropicAdapter.CountOr | src/lib/anthropic-compat-adapter.ts:125-126 | `n || fallback`: absent and 0 both fall back |
| AnthropicAdapter.MaxTokens | src/lib/anthropic-compat-adapter.ts:116-127 | for a thinking model max_tokens is above the thinking budget (the larger of the request or 16000 and budget + 1000); otherwise the request or 8192 |
| AnthropicAdapter.BuildRequest | src/lib/anthropic-compat-adapter.ts:106-159 | the body: model, messages and streaming; thinking config exactly for thinking models and then below max_tokens; system prompt exactly when prompts are given, joined by newlines; tools with the default input schema where none is given; temperature passed through |
| AnthropicAdapter.DecodeLinesSnoc | src/lib/anthropic-compat-adapter.ts:231-246 | one more line is skipped, adds an event, or (a null payload) ends decoding, and nothing after that counts |
| AnthropicAdapter.RunEventsSnoc | src/lib/anthropic-compat-adapter.ts:248-357 | one more event steps the machine from the state reached and appends its chunks |
| AnthropicAdapter.FeedLine | src/lib/anthropic-compat-adapter.ts:231-357 | one complete line extends the decoded events and the machine's state and chunks exactly as the specification functions do, and adds nothing after a `null` payload |
| AnthropicAdapter.FeedLines | src/lib/anthropic-compat-adapter.ts:231-357 | the inner loop over one read's lines continues decoding and the event machine exactly as the specification functions do |
| AnthropicAdapter.ProcessStream | src/lib/anthropic-compat-adapter.ts:200-362 | `processStream` yields exactly the chunks of running the events of all complete lines, and reports whether a null payload ended it |
| AnthropicAdapter.StepProperties | src/lib/anthropic-compat-adapter.ts:248-357 | each event yields at most one chunk, shaped by its builder, never an error, with the current response id; content grows by exactly the delta emitted and a content chunk carries the new total |
| AnthropicAdapter.RunProperties | src/lib/anthropic-compat-adapter.ts:248-357 | over a whole stream every chunk is builder-shaped, none is an error, the accumulated content is the concatenation of the emitted deltas, and every content chunk carries the running total |
| AnthropicAdapter.ToolCallsAreStartedBlocks | src/lib/anthropic-compat-adapter.ts:262-268 | the tool calls held are exactly the indices of the tool_use blocks started |
| AnthropicAdapter.DoneAfterEvents | src/lib/anthropic-compat-adapter.ts:341-356 | `message_stop` yields one done chunk whose total is input + output (absent counts 0) and whose reason is "tool_calls" exactly when some tool_use block was started |
| AnthropicAdapter.InlineToolRulesAgree | src/lib/anthropic-compat-adapter.ts:263-267 | the adapter's inline tool-call updates are what the shared accumulator's `update` would do |
| AnthropicAdapter.ErrorChunkEndsStream | src/lib/anthropic-compat-adapter.ts:186-197 | a caught Error ends the stream with exactly one error chunk, after the events' chunks, and logs unless it is a cancellation |
| AnthropicAdapter.ErrorChunkIffFailure | src/lib/anthropic-compat-adapter.ts:103-198 | a failed conversion rejects before yielding; otherwise one error chunk at the end exactly when the fetch, the HTTP status ("<status> <text>"), the body ("No response body"), a `null` payload or the read failed with an Error, logged unless a cancellation; a non-Error rejects the generator |
| AnthropicAdapter.ThinkingItems | src/lib/anthropic-compat-adapter.ts:373 | the history's values in order, or nothing without a history |
| AnthropicAdapter.ToolUseBlocks | src/lib/anthropic-compat-adapter.ts:404-413 | one tool_use block per call with id, name and parsed arguments; fails exactly when some argument text does not parse |
| AnthropicAdapter.ToolUses | src/lib/anthropic-compat-adapter.ts:404-413 | the loop over one message's tool calls computes the blocks above |
| AnthropicAdapter.ConvertMessages | src/lib/anthropic-compat-adapter.ts:364-460 | the loop over the messages computes the conversion, or fails where `JSON.parse` throws |
| AnthropicAdapter.ConvertMessage | src/lib/anthropic-compat-adapter.ts:377-458 | one pass of the loop converts one message as the conversion function does, or fails where `JSON.parse` throws |
| AnthropicAdapter.ConvertAllStopsAtFailure | src/lib/anthropic-compat-adapter.ts:376-458 | once a prefix fails to convert, the whole conversion fails |
| AnthropicAdapter.ConvertFailsIffBadArguments | src/lib/anthropic-compat-adapter.ts:404-413 | conversion fails exactly when some assistant message has a tool call whose argument text does not parse |
| AnthropicAdapter.ConvertOneThinking | src/lib/anthropic-compat-adapter.ts:379-441 | one message adds the current thinking item exactly when it is an assistant message of a thinking model and the item exists, and moves the index on for every assistant message |
| AnthropicAdapter.ThinkingPairedByPosition | src/lib/anthropic-compat-adapter.ts:371-441 | the k-th assistant message gets the k-th stored item: the thinking blocks of the output are the first (number of assistant messages) items, and none without a thinking model |
| AnthropicAdapter.ConvertedWellPlaced | src/lib/anthropic-compat-adapter.ts:386-457 | a thinking block only ever comes first in an assistant message, and tool results only travel in user messages |
| AnthropicAdapter.ToolMessagePlacement | src/lib/anthropic-compat-adapter.ts:443-457 | a tool result joins the previous message exactly when that is a user message with blocks, else starts a new user message; earlier messages are unchanged and the result is last |
| OpenAIAdapter.BuildRequest | src/lib/openai-compat-adapter.ts:48-75 | model, messages, streaming, sampling options passed through; tools present exactly when given, one function tool each with the default parameters where no schema is given |
| OpenAIAdapter.WireToolCalls | src/lib/openai-compat-adapter.ts:271-281 | one wire call per tool call, arguments as given when text and serialised otherwise |
| OpenAIAdapter.ConvertOne | src/lib/openai-compat-adapter.ts:260-298 | user, assistant and tool messages map to one message each (an assistant text is null exactly when it has tool calls and no text), any other role to none |
| OpenAIAdapter.ConvertMessages | src/lib/openai-compat-adapter.ts:246-302 | the loop computes the conversion |
| OpenAIAdapter.ConvertAllAppend | src/lib/openai-compat-adapter.ts:260-299 | conversion distributes over concatenation of the input |
| OpenAIAdapter.ConvertedShape | src/lib/openai-compat-adapter.ts:260-299 | one output per message of a known role, and none of them a system message |
| OpenAIAdapter.SystemPromptFirst | src/lib/openai-compat-adapter.ts:251-257 | the joined system prompt comes first exactly when prompts are given, and is the only system message |
| OpenAIAdapter.ReasoningOf | src/lib/openai-compat-adapter.ts:99-102 | `reasoning_content || thinking || thinking_content` |
| OpenAIAdapter.Find | src/lib/openai-compat-adapter.ts:134 | the position of the entry with the index, none exactly when absent |
| OpenAIAdapter.ApplyToolCallDeltas | src/lib/openai-compat-adapter.ts:131-150 | the loop over a chunk's tool-call deltas computes the accumulated entries |
| OpenAIAdapter.EmitToolCalls | src/lib/openai-compat-adapter.ts:156-172 | the flush loop emits one tool-call chunk per entry, in order |
| OpenAIAdapter.StepChunk | src/lib/openai-compat-adapter.ts:89-187 | one iteration of the chunk loop computes the step function |
| OpenAIAdapter.ProcessChunks | src/lib/openai-compat-adapter.ts:87-188 | the chunk loop computes the run over all chunks |
| OpenAIAdapter.RunChunksSnoc | src/lib/openai-compat-adapter.ts:87-188 | one more chunk steps from the state reached and appends its output |
| OpenAIAdapter.AsMapHolds | src/lib/openai-compat-adapter.ts:79-82 | the entry list, read as a `Map`, has exactly its keys and their entries |
| OpenAIAdapter.ToolDeltaIsUpdate | src/lib/openai-compat-adapter.ts:132-149 | one tool-call delta acts on the map exactly as the shared accumulator's `update`, appending a new index to the order |
| OpenAIAdapter.ToolDeltasAreUpdates | src/lib/openai-compat-adapter.ts:131-150 | a series of deltas is a series of updates, with keys in first-seen order and distinct |
| OpenAIAdapter.UpdateAllAppend | src/lib/openai-compat-adapter.ts:131-150 | updating with two batches is updating with one, then the other |
| OpenAIAdapter.FirstSeenAppend | src/lib/openai-compat-adapter.ts:134-140 | first-seen order of two batches is that of the first, then of the second |
| OpenAIAdapter.StreamToolCalls | src/lib/openai-compat-adapter.ts:79-151 | after any stream the tool calls are the updates of all its deltas, keyed in first-seen order |
| OpenAIAdapter.ReasoningStepProperties | src/lib/openai-compat-adapter.ts:99-113 | a thinking chunk exactly when there is reasoning text, carrying it as delta and the new running total |
| OpenAIAdapter.ContentStepProperties | src/lib/openai-compat-adapter.ts:116-127 | a content chunk exactly when there is content, carrying it as delta and the new running total |
| OpenAIAdapter.TextStepProperties | src/lib/openai-compat-adapter.ts:96-127 | at most a thinking chunk then a content chunk, builder-shaped, and the totals grow by what they carry |
| OpenAIAdapter.FinishCarriesNoText | src/lib/openai-compat-adapter.ts:154-187 | the flush emits no content or thinking |
| OpenAIAdapter.StepProperties | src/lib/openai-compat-adapter.ts:89-187 | each chunk's output carries its response id, contains no error, and its content and thinking chunks carry the new running totals |
| OpenAIAdapter.RunTotals | src/lib/openai-compat-adapter.ts:77-188 | over a stream, no error chunks and the totals are the concatenated deltas |
| OpenAIAdapter.RunContentIsRunningTotal | src/lib/openai-compat-adapter.ts:116-127 | every content chunk carries the concatenation of all content deltas so far |
| OpenAIAdapter.RunThinkingIsRunningTotal | src/lib/openai-compat-adapter.ts:103-113 | every thinking chunk carries the concatenation of all reasoning deltas so far |
| OpenAIAdapter.FinishFlushesToolCalls | src/lib/openai-compat-adapter.ts:154-187 | a finish reason flushes every tool call in insertion order, then one done chunk: "tool_calls" exactly when the provider said so, the provider's total, builder-shaped exactly when the counts add up |
| OpenAIAdapter.UnfinishedYieldsOnlyText | src/lib/openai-compat-adapter.ts:96-151 | a chunk without finish reason yields only content and thinking |
| OpenAIAdapter.ErrorChunkIffFailure | src/lib/openai-compat-adapter.ts:61-211 | one error chunk at the end exactly when the provider failed with an Error, logged unless a cancellation; a non-Error rejects the generator |
| ThinkingHistory.Get | src/lib/thinking-history.ts:36-38 | none exactly when the id was never saved, else an item saved under it |
| ThinkingHistory.OverwrittenGet | src/lib/thinking-history.ts:21-23 | overwriting changes only the entry for the id |
| ThinkingHistory.AppendedGet | src/lib/thinking-history.ts:21-23 | appending a new id changes only that lookup |
| ThinkingHistory.SaveReplaces | src/lib/thinking-history.ts:21-23 | save makes the id map to the item, leaves other ids alone, keeps key order with new ids last, and keeps ids distinct |
| ThinkingHistory.ProcessStoresCompleteAndSigned | src/lib/thinking-history.ts:80-91 | a complete, signed thinking chunk is saved under its response id; any other chunk leaves the history as it was |
| ThinkingHistory.ThinkingHistoryStore.Save | src/lib/thinking-history.ts:21-23 | the entries become the saved entries, current thinking untouched |
| ThinkingHistory.ThinkingHistoryStore.GetItem | src/lib/thinking-history.ts:36-38 | the lookup of the id |
| ThinkingHistory.ThinkingHistoryStore.HasHistory | src/lib/thinking-history.ts:43-45 | true exactly when something was saved |
| ThinkingHistory.ThinkingHistoryStore.SetCurrentThinking | src/lib/thinking-history.ts:50-52 | current thinking set, history untouched |
| ThinkingHistory.ThinkingHistoryStore.ClearCurrentThinking | src/lib/thinking-history.ts:64-66 | current thinking cleared, history untouched |
| ThinkingHistory.ThinkingHistoryStore.Clear | src/lib/thinking-history.ts:71-74 | both cleared |
| ThinkingHistory.ThinkingHistoryStore.ProcessChunk | src/lib/thinking-history.ts:80-91 | current thinking follows every thinking chunk; history follows the processing rule |
| ThinkingHistory.ProcessedAllDistinct | src/lib/thinking-history.ts:80-91 | processing any chunks keeps ids distinct |
| ThinkingHistory.UnsignedIdsUntouched | src/lib/thinking-history.ts:80-91 | an id without a complete, signed chunk keeps its old entry |
| ThinkingHistory.LastSignedWins | src/lib/thinking-history.ts:80-91 | an id ends with the item of its last complete, signed chunk |
| ContextPatches.SplitFrontmatter | src/lib/context-patches.ts:5-33 | the frontmatter and body around the first closing marker, none exactly when there is no opening marker or no closing one |
| ContextPatches.MatchFieldNone | src/lib/context-patches.ts:6-7 | a field is absent exactly when no line starts with the key followed by a non-empty value |
| ContextPatches.ParsePatchFile | src/lib/context-patches.ts:25-48 | a patch exactly when frontmatter, id and trigger are all found; id, trigger and content are trimmed, content is the trimmed body |
| ContextPatches.ParseRenderedPatch | src/lib/context-patches.ts:25-48 | a rendered patch file with single-line id and trigger parses back to its id, trigger and trimmed body |
| ContextPatches.EmptyIdTakesNextLine | src/lib/context-patches.ts:6 | with an empty `id:` the pattern's `\s*` crosses the newline and the id becomes the whole trigger line |
| ContextPatches.NameLeTotal | src/lib/context-patches.ts:61 | the name order is total |
| ContextPatches.NameLeTrans | src/lib/context-patches.ts:61 | the name order is transitive |
| ContextPatches.SortNamesSorts | src/lib/context-patches.ts:61 | sorting file names gives a sorted permutation |
| ContextPatches.PatchFrom | src/lib/context-patches.ts:63-77 | a patch exactly for a readable ".md" file that parses |
| ContextPatches.LoadPatches | src/lib/context-patches.ts:53-84 | no directory gives no patches, else the loop computes the patches of the sorted listing |
| ContextPatches.LoadedPairsWithSources | src/lib/context-patches.ts:63-81 | each loaded patch is the parse of its own source file, position by position |
| ContextPatches.SourcesAreTheUsableFiles | src/lib/context-patches.ts:63-81 | exactly the usable files contribute a patch |
| ContextPatches.LoadedInNameOrder | src/lib/context-patches.ts:53-84 | patches come from ".md" files of the listing, in name order, and every usable file contributes |
| ContextPatches.PromptListsEachPatch | src/lib/context-patches.ts:93-95 | the description block splits into one line per patch and the user message appears verbatim |
| ContextPatches.ExtractArray | src/lib/context-patches.ts:8 | the span from the first `[` to the first `]` after it |
| ContextPatches.NoArrayIff | src/lib/context-patches.ts:130-133 | no array exactly when no `]` follows any `[` |
| ContextPatches.MatchOf | src/lib/context-patches.ts:140-146 | an item counts exactly when it has string `patchId` and `topic` |
| ContextPatches.ParseDetectionResponse | src/lib/context-patches.ts:127-151 | no array, a parse failure or a non-array give no matches, else the qualifying items |
| ContextPatches.MatchesComeFromItems | src/lib/context-patches.ts:140-146 | every match comes from some item, never more matches than items |
| ContextPatches.QualifyingItemsKept | src/lib/context-patches.ts:140-146 | every qualifying item is kept |
| ContextPatches.AllQualifyingKeptInOrder | src/lib/context-patches.ts:140-146 | if all qualify, all are kept in order |
| ContextPatches.ReplacesEveryPlaceholder | src/lib/context-patches.ts:9 | for a topic without `$`, every `{{topic}}` becomes the topic and the text between occurrences, whatever it holds short of another `{{topic}}` (braces included), is kept as it is |
| ContextPatches.NoPlaceholderUnchanged | src/lib/context-patches.ts:156-158 | content without the placeholder is unchanged |
| ContextPatches.DollarPatternsExpand | src/lib/context-patches.ts:157 | a topic with `$&` or `$'` is expanded as a replacement pattern, not inserted literally |
| ContextPatches.PatchById | src/lib/context-patches.ts:171-175 | the last patch with the id (as building an id map keeps it), none exactly when no patch has it |
| ContextPatches.BuildInjectionContent | src/lib/context-patches.ts:163-187 | the loop computes the injection |
| ContextPatches.InjectionsOfKnownMatches | src/lib/context-patches.ts:174-180 | no injections exactly when no match names a known patch, never more than matches |
| ContextPatches.InjectionEmptyIffNothingKnown | src/lib/context-patches.ts:167-186 | empty exactly when no match is known, else the header then the injections joined by blank lines |
| ContextPatches.InjectionsInMatchOrder | src/lib/context-patches.ts:171-180 | known matches inject their patch's content with the topic substituted, in match order |
| ContextPatches.RemoveFirst | src/lib/context-patches.ts:217 | removes the first occurrence, unchanged when there is none |
| ContextPatches.GetDetectionModel | src/lib/context-patches.ts:214-229 | "-think" is removed first; else claude and gpt models map to their fixed small models; else the model itself |
| ContextPatches.DetectionModelStable | src/lib/context-patches.ts:214-229 | for a model without "-think" the choice is idempotent |
| InterviewTool.Utf16Length | src/lib/interview-tool.ts:22 | between one and two units per character |
| InterviewTool.DecodeQuestion | src/lib/interview-tool.ts:20-25 | every accepted question is valid (header within 12 units, 2 to 4 options) |
| InterviewTool.DecodeQuestions | src/lib/interview-tool.ts:31-35 | one valid question per item |
| InterviewTool.DecodeInput | src/lib/interview-tool.ts:30-36 | every accepted input is valid (1 to 4 questions) |
| InterviewTool.DecodeOutput | src/lib/interview-tool.ts:41-45 | an output has one answer per key of the `answers` object |
| InterviewTool.DecodeEncodedOptions | src/lib/interview-tool.ts:12-15 | options round-trip |
| InterviewTool.QuestionRoundTrip | src/lib/interview-tool.ts:20-25 | an encoded question decodes back exactly when it is valid |
| InterviewTool.DecodeEncodedQuestions | src/lib/interview-tool.ts:31-35 | valid questions round-trip |
| InterviewTool.InvalidQuestionRejectsAll | src/lib/interview-tool.ts:31-35 | one invalid question rejects the list |
| InterviewTool.InputRoundTrip | src/lib/interview-tool.ts:30-36 | an encoded input decodes back exactly when it is valid |
| InterviewTool.OutputRoundTrip | src/lib/interview-tool.ts:41-45 | every output round-trips |
| InterviewTool.HeaderLimitCountsUnits | src/lib/interview-tool.ts:22 | for text in the basic plane the limit counts characters |
| MultiSelect.WithoutCounts | src/hooks/use-multi-select.ts:43-45 | removing a value drops all its copies and keeps everything else |
| MultiSelect.WithoutMembers | src/hooks/use-multi-select.ts:43-45 | exactly the other values remain |
| MultiSelect.WithoutDistinct | src/hooks/use-multi-select.ts:43-45 | removal keeps a selection duplicate-free |
| MultiSelect.ToggleFlips | src/hooks/use-multi-select.ts:33-37 | toggling flips membership of the value and no other |
| MultiSelect.ToggleTwiceRestores | src/hooks/use-multi-select.ts:33-37 | toggling an unselected value twice restores the selection |
| MultiSelect.UpdatesKeepDistinct | src/hooks/use-multi-select.ts:33-45 | toggle, add and remove keep a selection duplicate-free |
| MultiSelect.AddIdempotent | src/hooks/use-multi-select.ts:39-41 | add selects the value, is idempotent, and does nothing for a selected value |
| MultiSelect.MultiSelectState.IsSelected | src/hooks/use-multi-select.ts:28-31 | true exactly when the value is selected |
| MultiSelect.MultiSelectState.Toggle | src/hooks/use-multi-select.ts:33-37 | the selection becomes the toggled one |
| MultiSelect.MultiSelectState.Add | src/hooks/use-multi-select.ts:39-41 | the selection becomes the added one |
| MultiSelect.MultiSelectState.Remove | src/hooks/use-multi-select.ts:43-45 | the selection loses the value |
| MultiSelect.MultiSelectState.Clear | src/hooks/use-multi-select.ts:47-49 | the selection becomes empty |
| MultiSelect.MultiSelectState.SetSelected | src/hooks/use-multi-select.ts:24-26 | the selection becomes the given values, as they are |
| CustomInput.SubmittedIsTrimmed | src/hooks/use-custom-input.ts:30-38 | a submitted value is non-empty and has no surrounding white space |
| CustomInput.SubmittedKeepsTrimmedValue | src/hooks/use-custom-input.ts:30-38 | a value without surrounding white space is submitted unchanged |
| CustomInput.AllSpaceSubmitsNothing | src/hooks/use-custom-input.ts:30-38 | a value of white space only submits nothing |
| CustomInput.CustomInputState.Submit | src/hooks/use-custom-input.ts:30-38 | returns the trimmed value; on success the input is cleared and closed, otherwise nothing changes |
| CustomInput.CustomInputState.constructor | src/hooks/use-custom-input.ts:18-19 | the input starts empty and closed |
| CustomInput.CustomInputState.SetValue | src/hooks/use-custom-input.ts:18 | the value becomes the given text; the open flag is kept |
| CustomInput.CustomInputState.Open | src/hooks/use-custom-input.ts:21-23 | the input opens and keeps its value |
| CustomInput.CustomInputState.Close | src/hooks/use-custom-input.ts:25-28 | the input closes and its value is emptied |
| CustomInput.CustomInputState.Reset | src/hooks/use-custom-input.ts:40-43 | the input is emptied and closed |
| EditableChat.FirstCallUnique | src/hooks/use-editable-chat.ts:32-52 | the first matching tool call is unique |
| EditableChat.FindToolCall | src/hooks/use-editable-chat.ts:32-52 | the first tool call with the id in message then part order, none exactly when there is none |
| EditableChat.GetToolCallData | src/hooks/use-editable-chat.ts:57-79 | the first matching call's parsed input (null when absent, empty or unparseable) and output, none exactly when there is no such call |
| EditableChat.CanEditToolCall | src/hooks/use-editable-chat.ts:121-130 | true exactly when the first matching call has an output |
| EditableChat.ReplacedShape | src/hooks/use-editable-chat.ts:96-108 | the edit keeps the messages before, replaces only that part's output and drops every later message |
| EditableChat.Chat.ReplaceToolResult | src/hooks/use-editable-chat.ts:85-116 | no matching call leaves the chat unchanged; else the chat is truncated after the edited message, never grows |
| InterviewUi.InitialSelected | src/components/interview/interview-ui.tsx:78-86 | an array answer as is, a non-empty string as one item, else nothing |
| InterviewUi.CurrentQuestion | src/components/interview/interview-ui.tsx:279-286 | a question exactly when the list exists and the step is in range |
| InterviewUi.StepQuestion.HandleOptionClick | src/components/interview/interview-ui.tsx:94-101 | multi-select toggles the label, single-select answers it at once |
| InterviewUi.StepQuestion.HandleMultiSelectConfirm | src/components/interview/interview-ui.tsx:103-107 | answers with the selection exactly when it is non-empty |
| InterviewUi.StepQuestion.HandleCustomSubmit | src/components/interview/interview-ui.tsx:109-119 | a blank entry does nothing; else the input closes and the trimmed text is added (multi-select) or answered (single-select) |
| InterviewUi.KeptIsRestriction | src/components/interview/interview-ui.tsx:304-315 | going back keeps exactly the truthy answers of the kept questions, unchanged |
| InterviewUi.InterviewWizard.HandleAnswer | src/components/interview/interview-ui.tsx:288-302 | records the answer; the last step submits all answers, others move on |
| InterviewUi.InterviewWizard.HandleGoBack | src/components/interview/interview-ui.tsx:304-315 | moves to the step and keeps answers only for questions before it |
| InterviewUi.EmptyLabelShiftsGoBack | src/components/interview/interview-ui.tsx:26-44 | an answered row after a skipped one sends the user to the wrong question |
| InterviewUi.RowsGoBackToTheirQuestion | src/components/interview/interview-ui.tsx:26-44 | with the question's own index each row goes back to its question, and every answered question has a row |
| ChatRoute.RouteDetectionModel | src/routes/api.chat.ts:224-239 | "-think" removed first; else claude and gpt map to the route's small models; else the model itself |
| ChatRoute.DetectionModelsDiffer | src/routes/api.chat.ts:224-239 | the route and the library pick the same detection model exactly when the model has "-think" or is neither claude nor gpt |
| ChatRoute.Resolve | src/routes/api.chat.ts:306-311 | the setting if non-empty, else the environment if non-empty, else the default |
| ChatRoute.ResolvedSettings | src/routes/api.chat.ts:306-311 | model and base URL are never empty; the key is empty exactly when neither source gives one |
| ChatRoute.AdapterFor | src/routes/api.chat.ts:374-377 | the completions adapter exactly when the flag is "true" |
| ChatRoute.DetectionText | src/routes/api.chat.ts:266-276 | no text exactly for a failed or non-ok reply; empty content reads as "[]" |
| ChatRoute.LastUserContentIsLastUsers | src/routes/api.chat.ts:336-342 | the text of the last user message, "" when that is not a string |
| ChatRoute.NoUserMessageGivesEmpty | src/routes/api.chat.ts:336-342 | no user message gives "" |
| ChatRoute.InjectionNeedsDetection | src/routes/api.chat.ts:331-370 | something is injected only when there are patches, a user message, a successful detection and a known match |
| ChatRoute.CaughtResponse | src/routes/api.chat.ts:395-405 | 499 exactly for an abort, else a 500 with the fixed message |
| ChatRoute.Post | src/routes/api.chat.ts:290-406 | aborted requests get 499; body errors are caught with the controller not yet aborted; a missing key is a 500; otherwise a stream with the resolved settings and the base prompt plus the injection |
| ChatRoute.DetectInjection | src/routes/api.chat.ts:331-365 | the injection is the detection result: empty without patches, without user text or when detection fails, otherwise the content built from the matches |
| IndexRoute.PhaseAfter | src/routes/index.tsx:61-90 | thinking, tool-call, content/done chunks move the phase; others leave it |
| IndexRoute.ChatPage.OnChunk | src/routes/index.tsx:61-90 | the phase follows the chunk; thinking chunks update current thinking and the history by the processing rule |
| IndexRoute.ChatPage.OnFinish | src/routes/index.tsx:91-94 | back to idle, current thinking cleared, history kept |
| IndexRoute.EffectivePhase | src/routes/index.tsx:107-108 | pending exactly when loading while idle, or already pending |
| IndexRoute.LastAssistant | src/routes/index.tsx:111-136 | the last assistant message, none exactly when there is none |
| IndexRoute.UiStateCases | src/routes/index.tsx:111-136 | initial without assistant messages; interviewing when loading or an interview is open; follow-up otherwise |
| IndexRoute.NonEmptySettingsKept | src/routes/index.tsx:42-60 | exactly the non-empty settings are sent |
| IndexRoute.RequestBodyFields | src/routes/index.tsx:42-60 | settings sent exactly when one is non-empty; history sent exactly when non-empty |
| SettingsPage.InputBorderClass | src/routes/settings.tsx:34-42 | red for invalid, green for valid, neutral otherwise |
| SettingsPage.ModelPlaceholder | src/routes/settings.tsx:44-58 | one placeholder per loading state and model count |
| SettingsPage.SelectableAfterLoad | src/routes/settings.tsx:105-170 | after a successful load a model can be picked exactly when the provider listed one; never while loading, when idle or after a failed load |
| SettingsPage.SortModelsPermutes | src/routes/settings.tsx:117 | whatever the collation, the sorted list holds exactly the fetched models |
| SettingsPage.SortModelsSorts | src/routes/settings.tsx:117 | for any total, transitive collation standing for `localeCompare`, the list is ordered by id and is a permutation of the fetched one |
| SettingsPage.UnauthorizedTestSubsumed | src/routes/settings.tsx:125-126 | the "unauthorized" test is implied by the "auth" test |
| SettingsPage.LoadFailure | src/routes/settings.tsx:119-131 | auth-required exactly for messages that look like an auth failure, else an error state with the message |
| SettingsPage.NonErrorIsPlainError | src/routes/settings.tsx:120 | a non-Error failure gives the "Unknown error" state |
| SettingsPage.Settings.BeginLoadModels | src/routes/settings.tsx:105-111 | no base URL: idle and no request; else loading |
| SettingsPage.Settings.FinishLoadModels | src/routes/settings.tsx:113-132 | success loads the sorted models; failure classifies the error |
| SettingsPage.Settings.BeginValidateApiKey | src/routes/settings.tsx:136-151 | empty key: idle; wrong prefix: invalid with the fixed message; else validating |
| SettingsPage.Settings.FinishValidateApiKey | src/routes/settings.tsx:153-164 | success loads sorted models and marks valid; failure marks invalid with the message |

## Left out

- Network calls (`fetch`, the OpenAI SDK, `fetchModels`, the detection call) are parameters: the model starts from their outcome.
- `JSON.parse` and `JSON.stringify` are parameters, so the JSON grammar itself is not modelled.
- `TextDecoder` is not modelled: reads are already strings, so a character split across two reads is not modelled.
- Async plumbing (generators, `await`, `finally` releasing the reader) is modelled as whole runs over given inputs.
- The contents of the OpenAI adapter's debug file (`stream-debug.jsonl`) are not modelled; a failing write is (`ProviderStream.Opened.writeFailure`). Console logging other than the error-log decision is left out.
- `Date.now()` and `generateId()` are parameters.
- JSX rendering, styling and React re-render timing are not modelled, nor stale closures.
- The `setTimeout` that re-sends the conversation after `replaceToolResult` is not modelled.
- `replaceToolResult`'s JSON deep clone is modelled as identity on values.
- `use-settings.ts`, `env.ts` and `getPatchesDir`/`path.join` are not part of this model: settings and environment values are inputs.
- Answer objects (`InterviewOutput.answers`, the wizard's answers) and JSON objects are Dafny maps, so their key order is not modelled; thinking-history ids keep insertion order, and the ordering JavaScript gives integer-like keys is not modelled.
- SortModels: `localeCompare` depends on the runtime's collation, which is a parameter `le` of `SortModels`, `FinishLoadModels` and `FinishValidateApiKey`; sortedness is proved for every total, transitive `le`, so the model does not say which of two ids a given locale puts first (ICU puts "deepseek-ai/DeepSeek-V3" before "Qwen/Qwen2.5-72B-Instruct", code-point order the reverse).
- SortNames: `NameLe` compares code points, while the default `sort()` compares UTF-16 code units; the two orders differ only between a character above U+FFFF and one in U+E000-U+FFFF.
- ToLower: only ASCII letters and U+212A are lower-cased; every other character is kept. No other character lower-cases to an ASCII letter without a combining mark after it (U+0130 becomes "i" followed by U+0307), and in "think", "auth" and "unauthorized" no letter is followed by U+0307, so the tests on these words are decided exactly; the length of the lower-cased text is not.
- SortModels: ties under `le` keep their fetched order, as a stable sort does, but this stability is not stated as a lemma.
- Non-string settings and message values, and `null` messages, are left out of the route's inputs.
- `loadModels` and `validateApiKey` are each split into a method before and a method after the fetch.
- Chunk kinds the page receives that are not adapter chunks are one opaque `OtherChunk`.
- The route's base system prompt is a parameter; its text is not reproduced.
- In the route, a thrown value inside the handler other than from reading the body or starting the stream is not modelled.
- GetAll: returns the entries as values, while `new Map(this.calls)` copies only the Map and shares the live entry objects, so a later `update` of an index is not seen through a result the model returned, and a caller cannot change the accumulator through it.
- Get: returns the entry at the index as a value, while `this.calls.get(index)` hands out the accumulator's live entry object; the same aliasing is not modelled.
- `structuredOutput` of both adapters, the web-search tool and the chat components outside the interview are outside the modelled core.

## Findings

| source | as written | input that shows it | evidently intended | confidence | as-written member | corrected member |
|---|---|---|---|---|---|---|
| src/components/interview/interview-ui.tsx:26-44 | the go-back index of an answered row is its position among the answered rows | questions "a", "b" and "c" at step 2, answers a = "" and b = "x": the row shown for "b" goes back to step 0, question "a" | go back to the question's own step | not executed | InterviewUi.EmptyLabelShiftsGoBack | InterviewUi.RowsGoBackToTheirQuestion |
