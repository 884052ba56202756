/** The server-sent-events reader and the two accumulators of
    src/lib/adapters/base/stream-processor.ts.

    The reader splits the decoded text on "\n" only, keeps the unterminated
    tail in a buffer for the next read, and turns each complete line that
    starts with `data: ` (one space) into an event, skipping the `[DONE]`
    sentinel and payloads that do not parse. Byte decoding is not modelled:
    the body arrives as a sequence of already-decoded pieces. */
module StreamProcessor {
  import opened Common
  import opened Json

  // ---------------------------------------------------------------------
  // Line framing
  // ---------------------------------------------------------------------

  /** `s.split("\n")`: never empty; the parts hold no "\n". */
  function Split(s: string): (r: seq<string>)
    ensures |r| >= 1
    decreases |s|
  {
    if |s| == 0 then [""]
    else if s[0] == '\n' then [""] + Split(s[1..])
    else
      var rest := Split(s[1..]);
      [[s[0]] + rest[0]] + rest[1..]
  }

  function Last(parts: seq<string>): string
    requires |parts| >= 1
  {
    parts[|parts| - 1]
  }

  function AllButLast(parts: seq<string>): seq<string>
    requires |parts| >= 1
  {
    parts[..|parts| - 1]
  }

  /** Splitting is undone by joining with "\n", and no part holds a "\n". */
  lemma {:induction false} SplitJoin(s: string)
    ensures Join(Split(s), "\n") == s
    ensures forall k, i :: 0 <= k < |Split(s)| && 0 <= i < |Split(s)[k]| ==> Split(s)[k][i] != '\n'
  {
    if |s| == 0 {
    } else if s[0] == '\n' {
      SplitJoin(s[1..]);
      assert s == "" + "\n" + s[1..];
    } else {
      var rest := Split(s[1..]);
      SplitJoin(s[1..]);
      if |rest| == 1 {
        assert s == [s[0]] + rest[0];
      } else {
        assert rest == [rest[0]] + rest[1..];
        assert Join(rest, "\n") == rest[0] + "\n" + Join(rest[1..], "\n");
        assert s == [s[0]] + Join(rest, "\n");
      }
    }
  }

  /** A text without "\n" is a single part. */
  lemma {:induction false} SplitNoNewline(s: string)
    requires forall i :: 0 <= i < |s| ==> s[i] != '\n'
    ensures Split(s) == [s]
  {
    if |s| > 0 {
      SplitNoNewline(s[1..]);
      assert [s[0]] + s[1..] == s;
    }
  }

  /** Splitting a concatenation: the complete lines of `a` stay as they are
      and only its unterminated tail is joined to `b`. */
  lemma {:induction false} SplitAppend(a: string, b: string)
    ensures Split(a + b) == AllButLast(Split(a)) + Split(Last(Split(a)) + b)
    decreases |a|
  {
    if |a| == 0 {
      assert a + b == b;
    } else {
      SplitAppend(a[1..], b);
      if a[0] == '\n' {
        SplitAppendNewline(a, b);
      } else if |Split(a[1..])| == 1 {
        SplitAppendSingle(a, b);
      } else {
        SplitAppendMany(a, b);
      }
    }
  }

  /** Splitting text that starts with a character other than "\n": that
      character joins the first part. */
  lemma SplitCons(s: string)
    requires |s| > 0 && s[0] != '\n'
    ensures Split(s) == [[s[0]] + Split(s[1..])[0]] + Split(s[1..])[1..]
  {
  }

  /** Splitting text that starts with "\n": an empty first part. */
  lemma SplitNewline(s: string)
    requires |s| > 0 && s[0] == '\n'
    ensures Split(s) == [""] + Split(s[1..])
  {
  }

  lemma TailOfAppend<T>(a: seq<T>, b: seq<T>)
    requires |a| > 0
    ensures (a + b)[0] == a[0] && (a + b)[1..] == a[1..] + b
  {
  }

  lemma ConsTail(c: char, r: string, b: string)
    ensures ([c] + r + b)[0] == c && ([c] + r + b)[1..] == r + b
  {
  }

  lemma AllButLastCons(h: string, rest: seq<string>)
    requires |rest| > 1
    ensures AllButLast(rest)[0] == rest[0]
    ensures AllButLast([h] + rest[1..]) == [h] + AllButLast(rest)[1..]
    ensures Last([h] + rest[1..]) == Last(rest)
  {
  }

  lemma SplitAppendNewline(a: string, b: string)
    requires |a| > 0 && a[0] == '\n'
    requires Split(a[1..] + b) == AllButLast(Split(a[1..])) + Split(Last(Split(a[1..])) + b)
    ensures Split(a + b) == AllButLast(Split(a)) + Split(Last(Split(a)) + b)
  {
    var rest := Split(a[1..]);
    TailOfAppend(a, b);
    SplitNewline(a);
    SplitNewline(a + b);
    EmptyPartFirst(rest);
    AppendAssoc([""], AllButLast(rest), Split(Last(rest) + b));
  }

  lemma EmptyPartFirst(rest: seq<string>)
    requires |rest| >= 1
    ensures AllButLast([""] + rest) == [""] + AllButLast(rest)
    ensures Last([""] + rest) == Last(rest)
  {
  }

  lemma SplitAppendSingle(a: string, b: string)
    requires |a| > 0 && a[0] != '\n' && |Split(a[1..])| == 1
    requires Split(a[1..] + b) == AllButLast(Split(a[1..])) + Split(Last(Split(a[1..])) + b)
    ensures Split(a + b) == AllButLast(Split(a)) + Split(Last(Split(a)) + b)
  {
    var rest := Split(a[1..]);
    var h := [a[0]] + rest[0];
    var y := Split(rest[0] + b);
    assert AllButLast(rest) == [] && Last(rest) == rest[0];
    assert Split(a[1..] + b) == y;
    TailOfAppend(a, b);
    SplitCons(a);
    assert Split(a) == [h];
    SplitCons(a + b);
    assert Split(a + b) == [[a[0]] + y[0]] + y[1..];
    ConsTail(a[0], rest[0], b);
    SplitCons(h + b);
    assert AllButLast(Split(a)) + Split(Last(Split(a)) + b) == Split(h + b);
  }

  lemma SplitAppendMany(a: string, b: string)
    requires |a| > 0 && a[0] != '\n' && |Split(a[1..])| > 1
    requires Split(a[1..] + b) == AllButLast(Split(a[1..])) + Split(Last(Split(a[1..])) + b)
    ensures Split(a + b) == AllButLast(Split(a)) + Split(Last(Split(a)) + b)
  {
    var rest := Split(a[1..]);
    var h := [a[0]] + rest[0];
    var y := Split(Last(rest) + b);
    TailOfAppend(a, b);
    SplitCons(a);
    SplitCons(a + b);
    TailOfAppend(AllButLast(rest), y);
    AllButLastCons(h, rest);
    AppendAssoc([h], AllButLast(rest)[1..], y);
  }

  /** One read: the buffer plus the new piece is split; every part but the
      last is a complete line, the last becomes the new buffer. */
  function Feed(buffer: string, piece: string): (seq<string>, string) {
    var parts := Split(buffer + piece);
    (AllButLast(parts), Last(parts))
  }

  /** The complete lines produced by reading `pieces` in order, starting
      from `buffer`, and the buffer left at the end. */
  function FrameFrom(buffer: string, pieces: seq<string>): (seq<string>, string)
    decreases |pieces|
  {
    if |pieces| == 0 then ([], buffer)
    else
      var first := Feed(buffer, pieces[0]);
      var others := FrameFrom(first.1, pieces[1..]);
      (first.0 + others.0, others.1)
  }

  /** Cutting the text into reads anywhere gives the same lines as splitting
      the whole text; the unterminated tail is what remains in the buffer. */
  lemma {:induction false} FrameFromIsSplit(buffer: string, pieces: seq<string>)
    requires forall i :: 0 <= i < |buffer| ==> buffer[i] != '\n'
    ensures FrameFrom(buffer, pieces).0 == AllButLast(Split(buffer + Concat(pieces)))
    ensures FrameFrom(buffer, pieces).1 == Last(Split(buffer + Concat(pieces)))
    decreases |pieces|
  {
    if |pieces| == 0 {
      assert buffer + Concat(pieces) == buffer;
      SplitNoNewline(buffer);
    } else {
      var p, rest := pieces[0], Concat(pieces[1..]);
      var parts := Split(buffer + p);
      SplitTailNoNewline(buffer + p);
      FrameFromIsSplit(Last(parts), pieces[1..]);
      SplitAppend(buffer + p, rest);
      assert buffer + Concat(pieces) == (buffer + p) + rest;
      LastOfAppend(AllButLast(parts), Split(Last(parts) + rest));
    }
  }

  /** The unterminated tail of a split holds no "\n". */
  lemma SplitTailNoNewline(s: string)
    ensures forall i :: 0 <= i < |Last(Split(s))| ==> Last(Split(s))[i] != '\n'
  {
    SplitJoin(s);
    var parts := Split(s);
    assert Last(parts) == parts[|parts| - 1];
  }

  lemma LastOfAppend(a: seq<string>, b: seq<string>)
    requires |b| >= 1
    ensures AllButLast(a + b) == a + AllButLast(b) && Last(a + b) == Last(b)
  {
    assert (a + b)[..|a + b| - 1] == a + b[..|b| - 1];
  }

  /** The lines that reading the whole body yields. */
  function CompleteLines(pieces: seq<string>): seq<string> {
    AllButLast(Split(Concat(pieces)))
  }

  /** Text appended after the last "\n" never becomes a line: when the
      reader reports done, the tail left in the buffer is dropped. */
  lemma UnterminatedTailIgnored(pieces: seq<string>, tail: string)
    requires forall i :: 0 <= i < |tail| ==> tail[i] != '\n'
    ensures CompleteLines(pieces + [tail]) == CompleteLines(pieces)
  {
    var t := Concat(pieces);
    ConcatAppend(pieces, [tail]);
    assert Concat([tail]) == tail;
    SplitAppend(t, tail);
    SplitJoin(t);
    var last := Last(Split(t));
    assert forall i :: 0 <= i < |last| ==> last[i] != '\n';
    assert forall i :: 0 <= i < |last + tail| ==> (last + tail)[i] != '\n';
    SplitNoNewline(last + tail);
  }

  // ---------------------------------------------------------------------
  // Events
  // ---------------------------------------------------------------------

  datatype SseEvent = SseEvent(kind: JsonValue, data: JsonValue)

  const DataPrefix: string := "data: "
  const DoneSentinel: string := "[DONE]"

  /** `parsed.type || "unknown"` */
  function EventKind(parsed: JsonValue): JsonValue
    requires !parsed.JNull?
  {
    match Member(parsed, "type")
    case Some(t) => if Truthy(t) then t else JString("unknown")
    case None => JString("unknown")
  }

  /** The event one complete line yields, if any. A payload that parses to
      `null` is skipped as well: reading `.type` of it throws inside the
      same `try` that catches parse failures. */
  function LineEvent(line: string, parse: Parser): (r: Option<SseEvent>)
    ensures r.Some? ==> StartsWith(line, DataPrefix) && line[6..] != DoneSentinel
    ensures r.Some? ==> parse(line[6..]) == Some(r.value.data)
  {
    if !StartsWith(line, DataPrefix) then None
    else
      var data := line[6..];
      if data == DoneSentinel then None
      else match parse(data)
        case None => None
        case Some(parsed) =>
          if parsed.JNull? then None else Some(SseEvent(EventKind(parsed), parsed))
  }

  function EventsOf(lines: seq<string>, parse: Parser): seq<SseEvent>
    decreases |lines|
  {
    if |lines| == 0 then []
    else
      var rest := EventsOf(lines[1..], parse);
      match LineEvent(lines[0], parse)
      case Some(e) => [e] + rest
      case None => rest
  }

  lemma {:induction false} EventsOfAppend(a: seq<string>, b: seq<string>, parse: Parser)
    ensures EventsOf(a + b, parse) == EventsOf(a, parse) + EventsOf(b, parse)
  {
    if |a| > 0 {
      assert (a + b)[1..] == a[1..] + b;
      EventsOfAppend(a[1..], b, parse);
    } else {
      assert a + b == b;
    }
  }

  /** Every event comes from a `data: ` line of the input, its data is the
      parse of the text after those six characters, that text is not the
      `[DONE]` sentinel, and its kind is the payload's truthy `type` field or
      "unknown". */
  lemma {:induction false} EventsComeFromDataLines(lines: seq<string>, parse: Parser, k: nat)
    requires k < |EventsOf(lines, parse)|
    ensures exists j :: (0 <= j < |lines| && StartsWith(lines[j], DataPrefix)
      && lines[j][6..] != DoneSentinel && LineEvent(lines[j], parse) == Some(EventsOf(lines, parse)[k]))
    ensures var e := EventsOf(lines, parse)[k];
      !e.data.JNull? && e.kind == EventKind(e.data)
    decreases |lines|
  {
    var rest := EventsOf(lines[1..], parse);
    match LineEvent(lines[0], parse)
    case Some(e) =>
      if k > 0 {
        EventsComeFromDataLines(lines[1..], parse, k - 1);
        var j :| 0 <= j < |lines[1..]| && StartsWith(lines[1..][j], DataPrefix)
          && lines[1..][j][6..] != DoneSentinel && LineEvent(lines[1..][j], parse) == Some(rest[k - 1]);
        assert lines[j + 1] == lines[1..][j];
      }
    case None =>
      EventsComeFromDataLines(lines[1..], parse, k);
      var j :| 0 <= j < |lines[1..]| && StartsWith(lines[1..][j], DataPrefix)
        && lines[1..][j][6..] != DoneSentinel && LineEvent(lines[1..][j], parse) == Some(rest[k]);
      assert lines[j + 1] == lines[1..][j];
  }

  /** The events of a whole body, however it was cut into reads. */
  function StreamEvents(pieces: seq<string>, parse: Parser): seq<SseEvent> {
    EventsOf(CompleteLines(pieces), parse)
  }

  /** `readSSEStream`: read piece after piece, keep the tail in `buffer`,
      and emit the event of every complete line. */
  method ReadSseStream(pieces: seq<string>, parse: Parser) returns (events: seq<SseEvent>)
    ensures events == StreamEvents(pieces, parse)
  {
    var buffer := "";
    events := [];
    var i := 0;
    while i < |pieces|
      invariant 0 <= i <= |pieces|
      invariant events == EventsOf(FrameFrom("", pieces[..i]).0, parse)
      invariant buffer == FrameFrom("", pieces[..i]).1
    {
      buffer := buffer + pieces[i];
      var parts := Split(buffer);
      var lines := AllButLast(parts);
      buffer := Last(parts);
      var j := 0;
      ghost var before := events;
      while j < |lines|
        invariant 0 <= j <= |lines|
        invariant events == before + EventsOf(lines[..j], parse)
      {
        var e := LineEvent(lines[j], parse);
        if e.Some? {
          events := events + [e.value];
        }
        TakeSnoc(lines, j);
        EventsOfAppend(lines[..j], [lines[j]], parse);
        AppendAssoc(before, EventsOf(lines[..j], parse), EventsOf([lines[j]], parse));
        j := j + 1;
      }
      assert lines[..j] == lines;
      FrameFromSnoc("", pieces[..i], pieces[i]);
      TakeSnoc(pieces, i);
      EventsOfAppend(FrameFrom("", pieces[..i]).0, lines, parse);
      i := i + 1;
    }
    assert pieces[..i] == pieces;
    FrameFromIsSplit("", pieces);
    assert "" + Concat(pieces) == Concat(pieces);
  }

  /** Reading one more piece extends the lines by that read's complete lines. */
  lemma {:induction false} FrameFromSnoc(buffer: string, pieces: seq<string>, p: string)
    ensures var prior := FrameFrom(buffer, pieces);
      FrameFrom(buffer, pieces + [p]) == (prior.0 + Feed(prior.1, p).0, Feed(prior.1, p).1)
    decreases |pieces|
  {
    if |pieces| == 0 {
      assert pieces + [p] == [p];
      var f := Feed(buffer, p);
      assert [p][1..] == [];
      assert FrameFrom(f.1, []) == ([], f.1);
      assert FrameFrom(buffer, [p]) == (f.0 + [], f.1);
      assert f.0 + [] == [] + f.0;
    } else {
      assert (pieces + [p])[0] == pieces[0];
      assert (pieces + [p])[1..] == pieces[1..] + [p];
      var f := Feed(buffer, pieces[0]);
      FrameFromSnoc(f.1, pieces[1..], p);
      var g := FrameFrom(f.1, pieces[1..]);
      assert FrameFrom(buffer, pieces) == (f.0 + g.0, g.1);
      assert FrameFrom(buffer, pieces + [p]) == (f.0 + (g.0 + Feed(g.1, p).0), Feed(g.1, p).1);
      assert f.0 + (g.0 + Feed(g.1, p).0) == (f.0 + g.0) + Feed(g.1, p).0;
    }
  }

  // ---------------------------------------------------------------------
  // Tool call accumulator
  // ---------------------------------------------------------------------

  datatype ToolCallEntry = ToolCallEntry(id: string, name: string, arguments: string)

  /** The optional fields of an update; "" stands for absent, which the
      code's truthiness tests treat alike. */
  datatype ToolCallPartial = ToolCallPartial(id: string, name: string, arguments: string)

  const EmptyEntry: ToolCallEntry := ToolCallEntry("", "", "")

  /** The entry after one `update`: id and name are overwritten when given,
      argument fragments are appended. */
  function UpdatedEntry(existing: Option<ToolCallEntry>, partial: ToolCallPartial): ToolCallEntry {
    var call := if existing.Some? then existing.value else EmptyEntry;
    var call := if partial.id != "" then call.(id := partial.id) else call;
    var call := if partial.name != "" then call.(name := partial.name) else call;
    if partial.arguments != "" then call.(arguments := call.arguments + partial.arguments) else call
  }

  function Lookup(calls: map<int, ToolCallEntry>, index: int): Option<ToolCallEntry> {
    if index in calls then Some(calls[index]) else None
  }

  /** The map after `update(index, partial)`. */
  function UpdatedCalls(calls: map<int, ToolCallEntry>, index: int, partial: ToolCallPartial): (r: map<int, ToolCallEntry>)
    ensures r.Keys == calls.Keys + {index}
    ensures forall k :: k in calls && k != index ==> r[k] == calls[k]
  {
    calls[index := UpdatedEntry(Lookup(calls, index), partial)]
  }

  /** The map after `update(index, {arguments: a})` for each `a` in turn. */
  function UpdateArguments(calls: map<int, ToolCallEntry>, index: int, fragments: seq<string>): map<int, ToolCallEntry>
    decreases |fragments|
  {
    if |fragments| == 0 then calls
    else UpdateArguments(UpdatedCalls(calls, index, ToolCallPartial("", "", fragments[0])), index, fragments[1..])
  }

  /** After updates carrying argument fragments a1..an, the entry's
      arguments are a1+...+an (after what it held before), its id and name
      are those it had, and the entries at other indices are unchanged. */
  lemma {:induction false} ArgumentsConcatenate(calls: map<int, ToolCallEntry>, index: int, fragments: seq<string>)
    ensures var r := UpdateArguments(calls, index, fragments);
      var before := if index in calls then calls[index] else EmptyEntry;
      && r.Keys == calls.Keys + (if |fragments| == 0 then {} else {index})
      && (index in r ==> r[index] == before.(arguments := before.arguments + Concat(fragments)))
      && (forall k :: k in calls && k != index ==> r[k] == calls[k])
    decreases |fragments|
  {
    if |fragments| > 0 {
      var next := UpdatedCalls(calls, index, ToolCallPartial("", "", fragments[0]));
      ArgumentsConcatenate(next, index, fragments[1..]);
    }
  }

  /** `id` and `name` keep the last non-empty value given; an update without
      them leaves them as they were. */
  lemma LatestIdWins(calls: map<int, ToolCallEntry>, index: int, first: string, second: string)
    requires second != ""
    ensures UpdatedCalls(UpdatedCalls(calls, index, ToolCallPartial(first, "", "")), index, ToolCallPartial(second, "", ""))[index].id == second
    ensures UpdatedCalls(calls, index, ToolCallPartial("", "", "")) == calls[index := if index in calls then calls[index] else EmptyEntry]
  {
  }

  class ToolCallAccumulator {
    /** `calls`, and the order in which its keys were first set (a JavaScript
        Map iterates in insertion order). */
    var calls: map<int, ToolCallEntry>
    var order: seq<int>

    ghost predicate Valid()
      reads this
    {
      && (forall i :: i in calls <==> i in order)
      && (forall k :: 0 <= k < |order| ==> order[k] in calls)
      && (forall j, k :: 0 <= j < k < |order| ==> order[j] != order[k])
    }

    constructor ()
      ensures Valid() && calls == map[] && order == []
    {
      calls := map[];
      order := [];
    }

    /** Creates the entry on first use of `index`, then applies `partial`. */
    method Update(index: int, partial: ToolCallPartial)
      requires Valid()
      modifies this
      ensures Valid()
      ensures calls == UpdatedCalls(old(calls), index, partial)
      ensures order == if index in old(calls) then old(order) else old(order) + [index]
    {
      if index !in calls {
        calls := calls[index := EmptyEntry];
        order := order + [index];
      }
      calls := calls[index := UpdatedEntry(Some(calls[index]), partial)];
    }

    method Get(index: int) returns (r: Option<ToolCallEntry>)
      ensures r == Lookup(calls, index)
    {
      r := Lookup(calls, index);
    }

    /** A copy of the map in insertion order, the entries as values. */
    method GetAll() returns (snapshot: seq<(int, ToolCallEntry)>)
      requires Valid()
      ensures |snapshot| == |order|
      ensures forall k :: 0 <= k < |order| ==> snapshot[k] == (order[k], calls[order[k]])
    {
      snapshot := [];
      var k := 0;
      while k < |order|
        invariant 0 <= k <= |order|
        invariant |snapshot| == k
        invariant forall j :: 0 <= j < k ==> snapshot[j] == (order[j], calls[order[j]])
      {
        snapshot := snapshot + [(order[k], calls[order[k]])];
        k := k + 1;
      }
    }

    method HasToolCalls() returns (b: bool)
      requires Valid()
      ensures b <==> calls.Keys != {}
    {
      b := |order| > 0;
      if b {
        assert order[0] in calls.Keys;
      } else {
        assert forall i :: i in calls ==> i in order;
        assert calls.Keys == {};
      }
    }

    method Clear()
      modifies this
      ensures Valid() && calls == map[] && order == []
    {
      calls := map[];
      order := [];
    }
  }

  // ---------------------------------------------------------------------
  // Content accumulator
  // ---------------------------------------------------------------------

  class ContentAccumulator {
    var content: string
    var thinking: string
    var signature: string

    constructor ()
      ensures content == "" && thinking == "" && signature == ""
    {
      content, thinking, signature := "", "", "";
    }

    /** Appends and returns the running concatenation of content deltas. */
    method AppendContent(delta: string) returns (total: string)
      modifies this
      ensures content == old(content) + delta && total == content
      ensures thinking == old(thinking) && signature == old(signature)
    {
      content := content + delta;
      total := content;
    }

    method AppendThinking(delta: string) returns (total: string)
      modifies this
      ensures thinking == old(thinking) + delta && total == thinking
      ensures content == old(content) && signature == old(signature)
    {
      thinking := thinking + delta;
      total := thinking;
    }

    method SetSignature(sig: string)
      modifies this
      ensures signature == sig
      ensures content == old(content) && thinking == old(thinking)
    {
      signature := sig;
    }

    method GetContent() returns (r: string)
      ensures r == content
    {
      r := content;
    }

    method GetThinking() returns (r: string)
      ensures r == thinking
    {
      r := thinking;
    }

    method GetSignature() returns (r: string)
      ensures r == signature
    {
      r := signature;
    }

    /** Starts a new thinking segment: content is kept. */
    method ResetThinking()
      modifies this
      ensures thinking == "" && signature == "" && content == old(content)
    {
      thinking := "";
      signature := "";
    }

    method Reset()
      modifies this
      ensures content == "" && thinking == "" && signature == ""
    {
      content, thinking, signature := "", "", "";
    }

    /** Appending the deltas one by one returns, each time, the
        concatenation of the deltas so far. */
    method AppendAllContent(deltas: seq<string>) returns (totals: seq<string>)
      modifies this
      ensures |totals| == |deltas|
      ensures forall k :: 0 <= k < |deltas| ==> totals[k] == old(content) + Concat(deltas[..k + 1])
      ensures content == old(content) + Concat(deltas)
      ensures thinking == old(thinking) && signature == old(signature)
    {
      totals := [];
      var k := 0;
      while k < |deltas|
        invariant 0 <= k <= |deltas|
        invariant |totals| == k
        invariant content == old(content) + Concat(deltas[..k])
        invariant forall j :: 0 <= j < k ==> totals[j] == old(content) + Concat(deltas[..j + 1])
        invariant thinking == old(thinking) && signature == old(signature)
      {
        var t := AppendContent(deltas[k]);
        ConcatAppend(deltas[..k], [deltas[k]]);
        TakeSnoc(deltas, k);
        assert Concat([deltas[k]]) == deltas[k];
        totals := totals + [t];
        k := k + 1;
      }
      assert deltas[..k] == deltas;
    }
  }
}
