/** The thinking-history store of src/lib/thinking-history.ts: completed,
    signed thinking blocks keyed by response id, and a pointer to the
    thinking currently being streamed.

    The record object is modelled as its entries in the order their keys
    were first written, the order `Object.values` and `{...record}` follow
    for non-numeric keys. */
module ThinkingHistory {
  import opened Common
  import opened Chunks

  /** The in-progress thinking: the response id and the text so far. */
  datatype CurrentThinking = CurrentThinking(id: string, content: string)

  type HistoryEntries = seq<(string, ThinkingItem)>

  predicate DistinctIds(entries: HistoryEntries) {
    forall j, k :: 0 <= j < k < |entries| ==> entries[j].0 != entries[k].0
  }

  function Ids(entries: HistoryEntries): (r: seq<string>)
    ensures |r| == |entries| && forall k :: 0 <= k < |entries| ==> r[k] == entries[k].0
  {
    seq(|entries|, k requires 0 <= k < |entries| => entries[k].0)
  }

  /** `history[id]`: the item stored under `id`, if any. */
  function Get(entries: HistoryEntries, id: string): (r: Option<ThinkingItem>)
    ensures r.None? <==> id !in Ids(entries)
    ensures r.Some? ==> exists k :: 0 <= k < |entries| && entries[k] == (id, r.value)
    decreases |entries|
  {
    if |entries| == 0 then None
    else if entries[|entries| - 1].0 == id then Some(entries[|entries| - 1].1)
    else
      var r := Get(entries[..|entries| - 1], id);
      assert Ids(entries[..|entries| - 1]) == Ids(entries)[..|entries| - 1];
      r
  }

  /** Every entry for `id` gets `item`; the others stay. */
  function Overwritten(entries: HistoryEntries, id: string, item: ThinkingItem): (r: HistoryEntries)
    ensures |r| == |entries|
  {
    seq(|entries|, k requires 0 <= k < |entries| => if entries[k].0 == id then (id, item) else entries[k])
  }

  /** `history[id] = item`: an existing key keeps its place and gets the
      new item; a new key goes last. */
  function Saved(entries: HistoryEntries, id: string, item: ThinkingItem): HistoryEntries {
    if id in Ids(entries) then Overwritten(entries, id, item) else entries + [(id, item)]
  }

  lemma {:induction false} OverwrittenGet(entries: HistoryEntries, id: string, item: ThinkingItem, other: string)
    ensures Get(Overwritten(entries, id, item), other)
      == if other == id && id in Ids(entries) then Some(item) else Get(entries, other)
    decreases |entries|
  {
    var r := Overwritten(entries, id, item);
    if |entries| > 0 {
      var init := entries[..|entries| - 1];
      assert r[..|r| - 1] == Overwritten(init, id, item);
      assert Ids(init) == Ids(entries)[..|entries| - 1];
      assert Ids(entries) == Ids(init) + [entries[|entries| - 1].0];
      OverwrittenGet(init, id, item, other);
    }
  }

  lemma AppendedGet(entries: HistoryEntries, id: string, item: ThinkingItem, other: string)
    ensures Get(entries + [(id, item)], other) == if other == id then Some(item) else Get(entries, other)
  {
    var r := entries + [(id, item)];
    assert r[..|r| - 1] == entries;
  }

  /** Saving stores the item under its id and leaves every other id's item
      as it was; the ids keep their order and a new id is appended; ids stay
      distinct. */
  lemma SaveReplaces(entries: HistoryEntries, id: string, item: ThinkingItem)
    requires DistinctIds(entries)
    ensures Get(Saved(entries, id, item), id) == Some(item)
    ensures forall other :: other != id ==> Get(Saved(entries, id, item), other) == Get(entries, other)
    ensures Ids(Saved(entries, id, item)) == Ids(entries) + (if id in Ids(entries) then [] else [id])
    ensures DistinctIds(Saved(entries, id, item))
  {
    forall other
      ensures Get(Saved(entries, id, item), other)
        == if other == id then Some(item) else Get(entries, other)
    {
      if id in Ids(entries) {
        OverwrittenGet(entries, id, item, other);
      } else {
        AppendedGet(entries, id, item, other);
      }
    }
  }

  /** What `processChunk` does to the history: a chunk that is complete and
      carries a non-empty signature is saved under its id as
      `{thinking: content, signature}`; any other chunk changes nothing. */
  function Processed(entries: HistoryEntries, chunk: StreamChunk): HistoryEntries
    requires chunk.ThinkingChunk?
  {
    if CompleteAndSigned(chunk) then Saved(entries, chunk.ctx.id, ThinkingItem(chunk.content, chunk.signature.value))
    else entries
  }

  /** processChunk stores exactly the complete, signed chunks: afterwards the
      chunk's id holds its content and signature when it is one, and
      otherwise nothing at all has changed. */
  lemma ProcessStoresCompleteAndSigned(entries: HistoryEntries, chunk: StreamChunk)
    requires DistinctIds(entries) && chunk.ThinkingChunk?
    ensures DistinctIds(Processed(entries, chunk))
    ensures CompleteAndSigned(chunk) ==>
      Get(Processed(entries, chunk), chunk.ctx.id) == Some(ThinkingItem(chunk.content, chunk.signature.value))
    ensures !CompleteAndSigned(chunk) ==> Processed(entries, chunk) == entries
    ensures forall other :: other != chunk.ctx.id ==> Get(Processed(entries, chunk), other) == Get(entries, other)
  {
    if CompleteAndSigned(chunk) {
      SaveReplaces(entries, chunk.ctx.id, ThinkingItem(chunk.content, chunk.signature.value));
    }
  }

  /** The singleton store. */
  class ThinkingHistoryStore {
    var entries: HistoryEntries
    var current: Option<CurrentThinking>

    ghost predicate Valid()
      reads this
    {
      DistinctIds(entries)
    }

    constructor ()
      ensures Valid() && entries == [] && current == None
    {
      entries := [];
      current := None;
    }

    method Save(id: string, item: ThinkingItem)
      requires Valid()
      modifies this
      ensures Valid()
      ensures entries == Saved(old(entries), id, item) && current == old(current)
    {
      SaveReplaces(entries, id, item);
      entries := Saved(entries, id, item);
    }

    /** A copy of the record: a value, so later saves cannot alter it. */
    method GetAll() returns (all: HistoryEntries)
      ensures all == entries
    {
      all := entries;
    }

    method GetItem(id: string) returns (item: Option<ThinkingItem>)
      ensures item == Get(entries, id)
    {
      item := Get(entries, id);
    }

    method HasHistory() returns (b: bool)
      ensures b <==> |entries| > 0
    {
      b := |entries| > 0;
    }

    method SetCurrentThinking(id: string, content: string)
      modifies this
      ensures current == Some(CurrentThinking(id, content)) && entries == old(entries)
    {
      current := Some(CurrentThinking(id, content));
    }

    method GetCurrentThinking() returns (c: Option<CurrentThinking>)
      ensures c == current
    {
      c := current;
    }

    method ClearCurrentThinking()
      modifies this
      ensures current == None && entries == old(entries)
    {
      current := None;
    }

    method Clear()
      modifies this
      ensures Valid() && entries == [] && current == None
    {
      entries := [];
      current := None;
    }

    /** `processChunk`: the pointer always moves to the chunk; the history
      changes only for a complete, signed chunk. */
    method ProcessChunk(chunk: StreamChunk)
      requires Valid() && chunk.ThinkingChunk?
      modifies this
      ensures Valid()
      ensures current == Some(CurrentThinking(chunk.ctx.id, chunk.content))
      ensures entries == Processed(old(entries), chunk)
    {
      SetCurrentThinking(chunk.ctx.id, chunk.content);
      if chunk.isComplete == Some(true) && chunk.signature.Some? && chunk.signature.value != "" {
        Save(chunk.ctx.id, ThinkingItem(chunk.content, chunk.signature.value));
      }
    }
  }

  /** The history after a sequence of thinking chunks, from `entries`. */
  function ProcessedAll(entries: HistoryEntries, chunks: seq<StreamChunk>): HistoryEntries
    requires forall k :: 0 <= k < |chunks| ==> chunks[k].ThinkingChunk?
    decreases |chunks|
  {
    if |chunks| == 0 then entries
    else Processed(ProcessedAll(entries, chunks[..|chunks| - 1]), chunks[|chunks| - 1])
  }

  /** The chunk at `k` is complete and signed for `id`, and no later one is. */
  predicate LastSignedAt(chunks: seq<StreamChunk>, k: int, id: string) {
    && 0 <= k < |chunks| && CompleteAndSigned(chunks[k]) && chunks[k].ctx.id == id
    && forall j :: k < j < |chunks| && CompleteAndSigned(chunks[j]) ==> chunks[j].ctx.id != id
  }

  predicate NoneSignedFor(chunks: seq<StreamChunk>, id: string) {
    forall k :: 0 <= k < |chunks| && CompleteAndSigned(chunks[k]) ==> chunks[k].ctx.id != id
  }

  lemma {:induction false} ProcessedAllDistinct(entries: HistoryEntries, chunks: seq<StreamChunk>)
    requires DistinctIds(entries)
    requires forall k :: 0 <= k < |chunks| ==> chunks[k].ThinkingChunk?
    ensures DistinctIds(ProcessedAll(entries, chunks))
    decreases |chunks|
  {
    if |chunks| > 0 {
      ProcessedAllDistinct(entries, chunks[..|chunks| - 1]);
      ProcessStoresCompleteAndSigned(ProcessedAll(entries, chunks[..|chunks| - 1]), chunks[|chunks| - 1]);
    }
  }

  /** An id no complete, signed chunk carried keeps what it held before. */
  lemma {:induction false} UnsignedIdsUntouched(entries: HistoryEntries, chunks: seq<StreamChunk>, id: string)
    requires DistinctIds(entries)
    requires forall k :: 0 <= k < |chunks| ==> chunks[k].ThinkingChunk?
    requires NoneSignedFor(chunks, id)
    ensures Get(ProcessedAll(entries, chunks), id) == Get(entries, id)
    decreases |chunks|
  {
    if |chunks| > 0 {
      var init := chunks[..|chunks| - 1];
      assert NoneSignedFor(init, id);
      UnsignedIdsUntouched(entries, init, id);
      ProcessedAllDistinct(entries, init);
      ProcessStoresCompleteAndSigned(ProcessedAll(entries, init), chunks[|chunks| - 1]);
    }
  }

  /** After a stream of thinking chunks, an id holds the content and
      signature of the last complete, signed chunk with that id. */
  lemma {:induction false} LastSignedWins(entries: HistoryEntries, chunks: seq<StreamChunk>, k: int, id: string)
    requires DistinctIds(entries)
    requires forall k :: 0 <= k < |chunks| ==> chunks[k].ThinkingChunk?
    requires LastSignedAt(chunks, k, id)
    ensures Get(ProcessedAll(entries, chunks), id) == Some(ThinkingItem(chunks[k].content, chunks[k].signature.value))
    decreases |chunks|
  {
    var init := chunks[..|chunks| - 1];
    ProcessedAllDistinct(entries, init);
    ProcessStoresCompleteAndSigned(ProcessedAll(entries, init), chunks[|chunks| - 1]);
    if k < |chunks| - 1 {
      assert LastSignedAt(init, k, id);
      LastSignedWins(entries, init, k, id);
    }
  }
}
