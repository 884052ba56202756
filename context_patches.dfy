/** The context-patch engine of src/lib/context-patches.ts: patch files with
    a small frontmatter, the prompt that asks a model which patches apply,
    the tolerant reading of its answer, and the text injected into the
    system prompt. The fixed regular expressions are written out by hand
    with the matching rules of JavaScript's engine. */
module ContextPatches {
  import opened Common
  import opened Json
  import StreamProcessor

  datatype ContextPatch = ContextPatch(id: string, trigger: string, content: string)

  datatype PatchMatch = PatchMatch(patchId: string, topic: string)

  /** No white space at either end: what `trim` leaves. */
  predicate Bare(s: string) {
    |s| > 0 ==> !IsJsSpace(s[0]) && !IsJsSpace(s[|s| - 1])
  }

  predicate SingleLine(s: string) {
    forall i :: 0 <= i < |s| ==> !IsLineTerminator(s[i])
  }

  // ---------------------------------------------------------------------
  // Frontmatter: /^---\n([\s\S]*?)\n---\n([\s\S]*)$/

  const Opening := "---\n"
  const Closing := "\n---\n"

  lemma FourPieces(s: string, a: nat, b: nat)
    requires a <= b && b + 5 <= |s|
    ensures s == s[..a] + s[a..b] + s[b..b + 5] + s[b + 5..]
  {
    var x := s[..a] + s[a..b] + s[b..b + 5] + s[b + 5..];
    assert |x| == |s|;
    forall i | 0 <= i < |s|
      ensures x[i] == s[i]
    {
      if i < a {
      } else if i < b {
        assert x[i] == s[a..b][i - a];
      } else if i < b + 5 {
        assert x[i] == s[b..b + 5][i - b];
      } else {
        assert x[i] == s[b + 5..][i - (b + 5)];
      }
    }
  }

  /** No "\n---\n" starts where the first two characters are not "\n-". */
  lemma NotClosingAt(s: string, j: nat)
    requires j + 1 < |s| && (s[j] != '\n' || s[j + 1] != '-')
    ensures !OccursAt(s, Closing, j)
  {
    if j + 5 <= |s| {
      assert s[j..j + 5][0] == s[j] && s[j..j + 5][1] == s[j + 1];
    }
  }

  /** The lazy group stops at the first "\n---\n" after the opening line;
      the body is everything after it. */
  function SplitFrontmatter(content: string): (r: Option<(string, string)>)
    ensures r.Some? ==> content == Opening + r.value.0 + Closing + r.value.1
    ensures r.Some? ==> forall j :: 4 <= j < 4 + |r.value.0| ==> !OccursAt(content, Closing, j)
    ensures r.None? <==> !StartsWith(content, Opening) || forall j :: 4 <= j ==> !OccursAt(content, Closing, j)
  {
    if !StartsWith(content, Opening) then None
    else match IndexOfFrom(content, Closing, 4)
      case None => None
      case Some(i) =>
        FourPieces(content, 4, i);
        Some((content[4..i], content[i + 5..]))
  }

  // ---------------------------------------------------------------------
  // Fields: /^id:\s*(.+)$/m and /^trigger:\s*(.+)$/m

  /** Where `^` matches in multiline mode. */
  predicate LineStart(s: string, i: int) {
    i == 0 || (0 < i <= |s| && IsLineTerminator(s[i - 1]))
  }

  /** The end of the greedy `\s*` run that starts at `j`. */
  function SpaceEnd(s: string, j: nat): (p: nat)
    requires j <= |s|
    ensures j <= p <= |s|
    ensures forall q :: j <= q < p ==> IsJsSpace(s[q])
    ensures p < |s| ==> !IsJsSpace(s[p])
    decreases |s| - j
  {
    if j < |s| && IsJsSpace(s[j]) then SpaceEnd(s, j + 1) else j
  }

  /** The end of the line that holds index `q`. */
  function LineEnd(s: string, q: nat): (e: nat)
    requires q <= |s|
    ensures q <= e <= |s|
    ensures forall x :: q <= x < e ==> !IsLineTerminator(s[x])
    ensures e < |s| ==> IsLineTerminator(s[e])
    decreases |s| - q
  {
    if q < |s| && !IsLineTerminator(s[q]) then LineEnd(s, q + 1) else q
  }

  /** Where `(.+)` starts: the greedy `\s*` gives back characters, from its
      end `p` towards `j`, until `.` (anything but a line terminator) can
      match the next one. */
  function CaptureStart(s: string, j: nat, p: nat): (r: Option<nat>)
    requires j <= p <= |s|
    ensures r.Some? ==> j <= r.value <= p && r.value < |s| && !IsLineTerminator(s[r.value])
    ensures r.Some? ==> forall q :: r.value < q <= p && q < |s| ==> IsLineTerminator(s[q])
    ensures r.None? <==> forall q :: j <= q <= p && q < |s| ==> IsLineTerminator(s[q])
    decreases p - j
  {
    if p < |s| && !IsLineTerminator(s[p]) then Some(p)
    else if p == j then None
    else CaptureStart(s, j, p - 1)
  }

  /** `^key\s*(.+)$` tried at index `i`: the captured group, a non-empty
      piece of one line. */
  function FieldAt(s: string, key: string, i: nat): (r: Option<string>)
    requires i <= |s|
    ensures r.Some? ==> OccursAt(s, key, i) && |r.value| > 0 && SingleLine(r.value)
  {
    if !OccursAt(s, key, i) then None
    else
      var j := i + |key|;
      match CaptureStart(s, j, SpaceEnd(s, j))
      case None => None
      case Some(q) => Some(s[q..LineEnd(s, q)])
  }

  /** The pattern cannot match at index `i`. */
  predicate NoFieldAt(s: string, key: string, i: nat)
    requires i <= |s|
  {
    !LineStart(s, i) || FieldAt(s, key, i).None?
  }

  /** `s.match(/^key\s*(.+)$/m)?.[1]`: the group at the first line start,
      from `from` on, where the pattern matches. */
  function MatchField(s: string, key: string, from: nat): (r: Option<string>)
    requires from <= |s|
    ensures r.Some? ==> |r.value| > 0 && SingleLine(r.value)
    decreases |s| - from
  {
    if !NoFieldAt(s, key, from) then FieldAt(s, key, from)
    else if from == |s| then None
    else MatchField(s, key, from + 1)
  }

  /** The pattern fails exactly when it fails at every index. */
  lemma {:induction false} MatchFieldNone(s: string, key: string, from: nat)
    requires from <= |s|
    ensures MatchField(s, key, from).None? <==> forall i :: from <= i <= |s| ==> NoFieldAt(s, key, i)
    decreases |s| - from
  {
    if !NoFieldAt(s, key, from) {
      MatchFieldFound(s, key, from);
    } else if from < |s| {
      MatchFieldStep(s, key, from);
      MatchFieldNone(s, key, from + 1);
      NoFieldsFromNext(s, key, from);
    }
  }

  lemma MatchFieldFound(s: string, key: string, from: nat)
    requires from <= |s| && !NoFieldAt(s, key, from)
    ensures MatchField(s, key, from).Some?
  {
  }

  lemma NoFieldsFromNext(s: string, key: string, from: nat)
    requires from < |s| && NoFieldAt(s, key, from)
    ensures (forall i :: from <= i <= |s| ==> NoFieldAt(s, key, i))
        <==> (forall i :: from + 1 <= i <= |s| ==> NoFieldAt(s, key, i))
  {
  }

  /** A position where the pattern cannot match passes the search on. */
  lemma MatchFieldStep(s: string, key: string, from: nat)
    requires from < |s| && NoFieldAt(s, key, from)
    ensures MatchField(s, key, from) == MatchField(s, key, from + 1)
  {
  }

  /** Positions where the pattern cannot match do not change the result. */
  lemma MatchFieldSkip(s: string, key: string, from: nat, to: nat)
    requires from <= to <= |s|
    requires forall i :: from <= i < to ==> NoFieldAt(s, key, i)
    ensures MatchField(s, key, from) == MatchField(s, key, to)
  {
    var r := MatchField(s, key, to);
    var i := to;
    while i > from
      invariant from <= i <= to
      invariant MatchField(s, key, i) == r
    {
      i := i - 1;
      MatchFieldStep(s, key, i);
    }
  }

  /** The line that holds `q` ends at `e`. */
  lemma {:induction false} LineEndAt(s: string, q: nat, e: nat)
    requires q <= e <= |s|
    requires forall x :: q <= x < e ==> !IsLineTerminator(s[x])
    requires e == |s| || IsLineTerminator(s[e])
    ensures LineEnd(s, q) == e
    decreases e - q
  {
    if q < e {
      LineEndAt(s, q + 1, e);
    }
  }

  const IdKey := "id:"
  const TriggerKey := "trigger:"

  /** `parsePatchFile`: a patch needs the frontmatter fences and both an
      `id:` and a `trigger:` line; all three parts come back trimmed. */
  function ParsePatchFile(content: string): (r: Option<ContextPatch>)
    ensures r.Some? <==> (
      && SplitFrontmatter(content).Some?
      && MatchField(SplitFrontmatter(content).value.0, IdKey, 0).Some?
      && MatchField(SplitFrontmatter(content).value.0, TriggerKey, 0).Some?)
    ensures r.Some? ==> Bare(r.value.id) && Bare(r.value.trigger) && Bare(r.value.content)
    ensures r.Some? ==> r.value.content == Trim(SplitFrontmatter(content).value.1)
  {
    match SplitFrontmatter(content)
    case None => None
    case Some((frontmatter, rest)) =>
      var idMatch := MatchField(frontmatter, IdKey, 0);
      var triggerMatch := MatchField(frontmatter, TriggerKey, 0);
      if idMatch.None? || triggerMatch.None? then None
      else Some(ContextPatch(Trim(idMatch.value), Trim(triggerMatch.value), Trim(rest)))
  }

  /** The frontmatter a writer would produce for these fields. */
  function RenderFrontmatter(id: string, trigger: string): string {
    IdKey + " " + id + "\n" + TriggerKey + " " + trigger
  }

  /** The patch file a writer would produce for these fields. */
  function RenderPatchFile(id: string, trigger: string, body: string): string {
    Opening + RenderFrontmatter(id, trigger) + Closing + body
  }

  /** A one-line field after `key` and one space is captured exactly. */
  lemma FieldAfterSpace(s: string, key: string, i: nat, value: string)
    requires i + |key| + 1 + |value| <= |s|
    requires OccursAt(s, key, i) && s[i + |key|] == ' '
    requires s[i + |key| + 1..i + |key| + 1 + |value|] == value
    requires |value| > 0 && Bare(value) && SingleLine(value)
    requires i + |key| + 1 + |value| == |s| || IsLineTerminator(s[i + |key| + 1 + |value|])
    ensures FieldAt(s, key, i) == Some(value)
  {
    var j := i + |key|;
    assert s[j + 1] == value[0];
    assert SpaceEnd(s, j + 1) == j + 1;
    assert SpaceEnd(s, j) == j + 1;
    assert CaptureStart(s, j, j + 1) == Some(j + 1);
    forall x | j + 1 <= x < j + 1 + |value|
      ensures !IsLineTerminator(s[x])
    {
      assert s[x] == value[x - (j + 1)];
    }
    LineEndAt(s, j + 1, j + 1 + |value|);
  }

  /** The only line break in a rendered frontmatter ends the id line. */
  lemma RenderedLineBreak(id: string, trigger: string)
    requires SingleLine(id) && SingleLine(trigger)
    ensures var fm := RenderFrontmatter(id, trigger);
      && fm[4 + |id|] == '\n'
      && forall x :: 0 <= x < |fm| && x != 4 + |id| ==> !IsLineTerminator(fm[x])
  {
    var fm := RenderFrontmatter(id, trigger);
    forall x | 0 <= x < |fm| && x != 4 + |id|
      ensures !IsLineTerminator(fm[x])
    {
      if 4 <= x < 4 + |id| {
        assert fm[x] == id[x - 4];
      } else if 14 + |id| <= x {
        assert fm[x] == trigger[x - (14 + |id|)];
      }
    }
  }

  lemma RenderedFrontmatter(id: string, trigger: string, body: string)
    requires SingleLine(id) && SingleLine(trigger)
    ensures SplitFrontmatter(RenderPatchFile(id, trigger, body)) == Some((RenderFrontmatter(id, trigger), body))
  {
    var fm := RenderFrontmatter(id, trigger);
    var content := RenderPatchFile(id, trigger, body);
    RenderedLineBreak(id, trigger);
    assert content[4 + 4 + |id| + 1] == 't';
    forall j | 4 <= j < 4 + |fm|
      ensures !OccursAt(content, Closing, j)
    {
      assert content[j] == fm[j - 4];
      NotClosingAt(content, j);
    }
    SplitAtFirstClosing(content, fm, body);
  }

  /** Frontmatter without "\n---\n" inside is split off exactly. */
  lemma SplitAtFirstClosing(content: string, fm: string, body: string)
    requires content == Opening + fm + Closing + body
    requires forall j :: 4 <= j < 4 + |fm| ==> !OccursAt(content, Closing, j)
    ensures SplitFrontmatter(content) == Some((fm, body))
  {
    assert content[..4] == Opening;
    assert content[4 + |fm|..4 + |fm| + 5] == Closing;
    assert OccursAt(content, Closing, 4 + |fm|);
    assert IndexOfFrom(content, Closing, 4) == Some(4 + |fm|);
    assert content[4..4 + |fm|] == fm && content[4 + |fm| + 5..] == body;
  }

  lemma RenderedId(id: string, trigger: string)
    requires |id| > 0 && Bare(id) && SingleLine(id) && SingleLine(trigger)
    ensures MatchField(RenderFrontmatter(id, trigger), IdKey, 0) == Some(id)
  {
    var fm := RenderFrontmatter(id, trigger);
    RenderedLineBreak(id, trigger);
    assert fm[4..4 + |id|] == id;
    FieldAfterSpace(fm, IdKey, 0, id);
  }

  /** No `trigger:` field starts on the `id:` line of a rendered frontmatter. */
  lemma RenderedIdLineHasNoTrigger(id: string, trigger: string)
    requires SingleLine(id) && SingleLine(trigger)
    ensures var fm := RenderFrontmatter(id, trigger);
      forall i :: 0 <= i < 5 + |id| ==> NoFieldAt(fm, TriggerKey, i)
  {
    var fm := RenderFrontmatter(id, trigger);
    RenderedLineBreak(id, trigger);
    forall i | 0 <= i < 5 + |id|
      ensures NoFieldAt(fm, TriggerKey, i)
    {
      if i > 0 {
        assert !IsLineTerminator(fm[i - 1]);
      } else {
        assert fm[0] != TriggerKey[0];
      }
    }
  }

  lemma RenderedTrigger(id: string, trigger: string)
    requires SingleLine(id)
    requires |trigger| > 0 && Bare(trigger) && SingleLine(trigger)
    ensures MatchField(RenderFrontmatter(id, trigger), TriggerKey, 0) == Some(trigger)
  {
    var fm := RenderFrontmatter(id, trigger);
    RenderedIdLineHasNoTrigger(id, trigger);
    MatchFieldSkip(fm, TriggerKey, 0, 5 + |id|);
    RenderedTriggerLine(id, trigger);
    MatchFieldFirst(fm, TriggerKey, 5 + |id|);
  }

  /** The `trigger:` line of a rendered frontmatter starts a line and holds
      the trigger. */
  lemma RenderedTriggerLine(id: string, trigger: string)
    requires SingleLine(id)
    requires |trigger| > 0 && Bare(trigger) && SingleLine(trigger)
    ensures 5 + |id| <= |RenderFrontmatter(id, trigger)|
    ensures LineStart(RenderFrontmatter(id, trigger), 5 + |id|)
    ensures FieldAt(RenderFrontmatter(id, trigger), TriggerKey, 5 + |id|) == Some(trigger)
  {
    var fm := RenderFrontmatter(id, trigger);
    var t := 4 + |id|;
    RenderedLineBreak(id, trigger);
    assert fm[t + 1..t + 9] == TriggerKey;
    assert fm[t + 10..] == trigger;
    FieldAfterSpace(fm, TriggerKey, t + 1, trigger);
  }

  /** A field at a line start is the first match from there. */
  lemma MatchFieldFirst(s: string, key: string, i: nat)
    requires i <= |s| && LineStart(s, i) && FieldAt(s, key, i).Some?
    ensures MatchField(s, key, i) == FieldAt(s, key, i)
  {
  }

  /** Reading back a rendered patch file gives its fields, with the body
      trimmed. */
  lemma ParseRenderedPatch(id: string, trigger: string, body: string)
    requires |id| > 0 && Bare(id) && SingleLine(id)
    requires |trigger| > 0 && Bare(trigger) && SingleLine(trigger)
    ensures ParsePatchFile(RenderPatchFile(id, trigger, body)) == Some(ContextPatch(id, trigger, Trim(body)))
  {
    RenderedFrontmatter(id, trigger, body);
    RenderedId(id, trigger);
    RenderedTrigger(id, trigger);
    TrimUnchanged(id);
    TrimUnchanged(trigger);
  }

  /** A frontmatter whose `id:` line is empty. */
  function EmptyIdFrontmatter(trigger: string): string {
    IdKey + "\n" + TriggerKey + " " + trigger
  }

  lemma EmptyIdFrontmatterSplits(trigger: string, body: string)
    requires SingleLine(trigger)
    ensures SplitFrontmatter(Opening + EmptyIdFrontmatter(trigger) + Closing + body)
      == Some((EmptyIdFrontmatter(trigger), body))
  {
    var fm := EmptyIdFrontmatter(trigger);
    var content := Opening + fm + Closing + body;
    assert content[8] == 't';
    forall j | 4 <= j < 4 + |fm|
      ensures !OccursAt(content, Closing, j)
    {
      assert content[j] == fm[j - 4];
      if 13 <= j - 4 {
        assert fm[j - 4] == trigger[j - 17];
      }
      NotClosingAt(content, j);
    }
    SplitAtFirstClosing(content, fm, body);
  }

  lemma EmptyIdCapturesNextLine(trigger: string)
    requires SingleLine(trigger)
    ensures MatchField(EmptyIdFrontmatter(trigger), IdKey, 0) == Some(TriggerKey + " " + trigger)
  {
    var fm := EmptyIdFrontmatter(trigger);
    forall x | 4 <= x < |fm|
      ensures !IsLineTerminator(fm[x])
    {
      if 13 <= x {
        assert fm[x] == trigger[x - 13];
      }
    }
    assert SpaceEnd(fm, 3) == 4;
    assert CaptureStart(fm, 3, 4) == Some(4);
    LineEndAt(fm, 4, |fm|);
    assert fm[4..LineEnd(fm, 4)] == TriggerKey + " " + trigger;
    assert OccursAt(fm, IdKey, 0) && |IdKey| == 3;
    assert !NoFieldAt(fm, IdKey, 0);
  }

  lemma EmptyIdLineHasNoTrigger(trigger: string)
    ensures forall i :: 0 <= i < 4 ==> NoFieldAt(EmptyIdFrontmatter(trigger), TriggerKey, i)
  {
    var fm := EmptyIdFrontmatter(trigger);
    assert fm[0] != TriggerKey[0];
    assert fm[..4] == IdKey + "\n";
  }

  lemma EmptyIdTrigger(trigger: string)
    requires |trigger| > 0 && Bare(trigger) && SingleLine(trigger)
    ensures MatchField(EmptyIdFrontmatter(trigger), TriggerKey, 0) == Some(trigger)
  {
    var fm := EmptyIdFrontmatter(trigger);
    EmptyIdLineHasNoTrigger(trigger);
    MatchFieldSkip(fm, TriggerKey, 0, 4);
    EmptyIdTriggerLine(trigger);
    MatchFieldFirst(fm, TriggerKey, 4);
  }

  lemma EmptyIdTriggerLine(trigger: string)
    requires |trigger| > 0 && Bare(trigger) && SingleLine(trigger)
    ensures 4 <= |EmptyIdFrontmatter(trigger)| && LineStart(EmptyIdFrontmatter(trigger), 4)
    ensures FieldAt(EmptyIdFrontmatter(trigger), TriggerKey, 4) == Some(trigger)
  {
    var fm := EmptyIdFrontmatter(trigger);
    assert fm[3] == '\n';
    assert fm[4..12] == TriggerKey && fm[13..] == trigger;
    FieldAfterSpace(fm, TriggerKey, 4, trigger);
  }

  /** `\s*` crosses line breaks: an `id:` line with nothing after it takes
      the whole next line, here the trigger line, as the id. */
  lemma EmptyIdTakesNextLine(trigger: string, body: string)
    requires |trigger| > 0 && Bare(trigger) && SingleLine(trigger)
    ensures ParsePatchFile(Opening + EmptyIdFrontmatter(trigger) + Closing + body)
      == Some(ContextPatch(TriggerKey + " " + trigger, trigger, Trim(body)))
  {
    EmptyIdFrontmatterSplits(trigger, body);
    EmptyIdCapturesNextLine(trigger);
    EmptyIdTrigger(trigger);
    TrimUnchanged(TriggerKey + " " + trigger);
    TrimUnchanged(trigger);
  }

  // ---------------------------------------------------------------------
  // loadPatches

  /** The patch directory as the code sees it: missing, or its entry names
      in `readdirSync` order with the text of every entry that
      `readFileSync` can read (an entry absent from `readable` throws and is
      skipped). */
  datatype Directory = Missing | Listing(names: seq<string>, readable: map<string, string>)

  predicate EndsWith(s: string, suffix: string) {
    |suffix| <= |s| && s[|s| - |suffix|..] == suffix
  }

  /** Code-point lexicographic order, the order `sort()` without a
      comparator puts file names in. */
  predicate NameLe(a: string, b: string)
    decreases |a|
  {
    |a| == 0 || (|b| > 0 && (a[0] < b[0] || (a[0] == b[0] && NameLe(a[1..], b[1..]))))
  }

  lemma {:induction false} NameLeTotal(a: string, b: string)
    ensures NameLe(a, b) || NameLe(b, a)
    decreases |a|
  {
    if |a| > 0 && |b| > 0 && a[0] == b[0] {
      NameLeTotal(a[1..], b[1..]);
    }
  }

  lemma {:induction false} NameLeTrans(a: string, b: string, c: string)
    requires NameLe(a, b) && NameLe(b, c)
    ensures NameLe(a, c)
    decreases |a|
  {
    if |a| > 0 && a[0] == b[0] && b[0] == c[0] {
      NameLeTrans(a[1..], b[1..], c[1..]);
    }
  }

  predicate SortedNames(names: seq<string>) {
    forall i, j :: 0 <= i < j < |names| ==> NameLe(names[i], names[j])
  }

  function Insert(x: string, names: seq<string>): (r: seq<string>)
    decreases |names|
  {
    if |names| == 0 then [x]
    else if NameLe(x, names[0]) then [x] + names
    else [names[0]] + Insert(x, names[1..])
  }

  /** `names.sort()` */
  function SortNames(names: seq<string>): seq<string>
    decreases |names|
  {
    if |names| == 0 then [] else Insert(names[|names| - 1], SortNames(names[..|names| - 1]))
  }

  lemma {:induction false} InsertPermutes(x: string, names: seq<string>)
    ensures multiset(Insert(x, names)) == multiset(names) + multiset{x}
    decreases |names|
  {
    if |names| > 0 && !NameLe(x, names[0]) {
      InsertPermutes(x, names[1..]);
      assert names == [names[0]] + names[1..];
    }
  }

  lemma {:induction false} InsertSorted(x: string, names: seq<string>)
    requires SortedNames(names)
    ensures SortedNames(Insert(x, names))
    decreases |names|
  {
    if |names| == 0 {
    } else if NameLe(x, names[0]) {
      forall j | 0 <= j < |names|
        ensures NameLe(x, names[j])
      {
        if j > 0 {
          NameLeTrans(x, names[0], names[j]);
        }
      }
    } else {
      NameLeTotal(x, names[0]);
      InsertSorted(x, names[1..]);
      InsertPermutes(x, names[1..]);
      var r := Insert(x, names[1..]);
      forall k | 0 <= k < |r|
        ensures NameLe(names[0], r[k])
      {
        assert r[k] in multiset(r);
        if r[k] != x {
          assert r[k] in multiset(names[1..]);
          var j :| 0 <= j < |names[1..]| && names[1..][j] == r[k];
        }
      }
    }
  }

  /** Sorting gives the same names, in order. */
  lemma {:induction false} SortNamesSorts(names: seq<string>)
    ensures SortedNames(SortNames(names))
    ensures multiset(SortNames(names)) == multiset(names)
    decreases |names|
  {
    if |names| > 0 {
      var init := names[..|names| - 1];
      SortNamesSorts(init);
      InsertSorted(names[|names| - 1], SortNames(init));
      InsertPermutes(names[|names| - 1], SortNames(init));
      DropLastSnoc(names);
    }
  }

  /** What one directory entry contributes: a patch when it is a readable
      `.md` file that parses. */
  function PatchFrom(name: string, readable: map<string, string>): (r: Option<ContextPatch>)
    ensures r.Some? <==> EndsWith(name, ".md") && name in readable && ParsePatchFile(readable[name]).Some?
    ensures r.Some? ==> r == ParsePatchFile(readable[name])
  {
    if EndsWith(name, ".md") && name in readable then ParsePatchFile(readable[name]) else None
  }

  /** The patches the loop collects from `names`, in their order. */
  function Loaded(names: seq<string>, readable: map<string, string>): seq<ContextPatch>
    decreases |names|
  {
    if |names| == 0 then []
    else
      Loaded(names[..|names| - 1], readable)
        + match PatchFrom(names[|names| - 1], readable) case Some(p) => [p] case None => []
  }

  /** The names that gave a patch, in their order. */
  function Sources(names: seq<string>, readable: map<string, string>): seq<string>
    decreases |names|
  {
    if |names| == 0 then []
    else
      Sources(names[..|names| - 1], readable)
        + if PatchFrom(names[|names| - 1], readable).Some? then [names[|names| - 1]] else []
  }

  /** `loadPatches`: nothing for a missing directory; otherwise the
      patches of the readable `.md` files that parse, in sorted name
      order, unparseable and unreadable files skipped. */
  method LoadPatches(dir: Directory) returns (patches: seq<ContextPatch>)
    ensures dir.Missing? ==> patches == []
    ensures dir.Listing? ==> patches == Loaded(SortNames(dir.names), dir.readable)
  {
    patches := [];
    if dir.Missing? {
      return;
    }
    var files := SortNames(dir.names);
    var i := 0;
    while i < |files|
      invariant 0 <= i <= |files|
      invariant patches == Loaded(files[..i], dir.readable)
    {
      var file := files[i];
      assert files[..i + 1][..i] == files[..i];
      if EndsWith(file, ".md") && file in dir.readable {
        var patch := ParsePatchFile(dir.readable[file]);
        if patch.Some? {
          patches := patches + [patch.value];
        }
      }
      i := i + 1;
    }
    assert files[..|files|] == files;
  }

  /** Each loaded patch is the parse of its own file. */
  lemma {:induction false} LoadedPairsWithSources(names: seq<string>, readable: map<string, string>)
    ensures |Loaded(names, readable)| == |Sources(names, readable)|
    ensures forall k :: 0 <= k < |Sources(names, readable)| ==>
      PatchFrom(Sources(names, readable)[k], readable) == Some(Loaded(names, readable)[k])
    decreases |names|
  {
    if |names| > 0 {
      LoadedPairsWithSources(names[..|names| - 1], readable);
    }
  }

  /** The files used are exactly the listed files that give a patch. */
  lemma {:induction false} SourcesAreTheUsableFiles(names: seq<string>, readable: map<string, string>)
    ensures forall n :: n in Sources(names, readable) <==> n in names && PatchFrom(n, readable).Some?
    decreases |names|
  {
    if |names| > 0 {
      var init := names[..|names| - 1];
      SourcesAreTheUsableFiles(init, readable);
      DropLastSnoc(names);
    }
  }

  /** The files used keep the listing's order. */
  lemma {:induction false} SourcesKeepOrder(names: seq<string>, readable: map<string, string>)
    requires SortedNames(names)
    ensures SortedNames(Sources(names, readable))
    decreases |names|
  {
    if |names| > 0 {
      var init := names[..|names| - 1];
      var last := names[|names| - 1];
      SourcesKeepOrder(init, readable);
      SourcesAreTheUsableFiles(init, readable);
      var sources := Sources(names, readable);
      if PatchFrom(last, readable).Some? {
        forall i, j | 0 <= i < j < |sources|
          ensures NameLe(sources[i], sources[j])
        {
          if j == |sources| - 1 {
            assert sources[i] in Sources(init, readable);
            var a :| 0 <= a < |init| && init[a] == sources[i];
          }
        }
      }
    }
  }

  /** The loaded patches come from `.md` files in sorted name order. */
  lemma LoadedInNameOrder(names: seq<string>, readable: map<string, string>)
    ensures var sources := Sources(SortNames(names), readable);
      && |Loaded(SortNames(names), readable)| == |sources|
      && SortedNames(sources)
      && (forall k :: 0 <= k < |sources| ==> EndsWith(sources[k], ".md") && sources[k] in names)
      && (forall n :: n in names && PatchFrom(n, readable).Some? ==> n in sources)
  {
    SortNamesSorts(names);
    var sorted := SortNames(names);
    LoadedPairsWithSources(sorted, readable);
    SourcesAreTheUsableFiles(sorted, readable);
    SourcesKeepOrder(sorted, readable);
    forall n | n in names
      ensures n in sorted
    {
      assert n in multiset(names);
    }
    forall n | n in sorted
      ensures n in names
    {
      assert n in multiset(sorted);
    }
  }

  // ---------------------------------------------------------------------
  // buildDetectionPrompt

  const PromptHead := "你是一个精确的话题检测器。分析用户消息，判断是否明确涉及以下领域。\n\n## 可用领域\n"
  const PromptMiddle := "\n\n## 用户消息\n"
  const PromptTail := "\n\n## 规则\n1. **保守匹配**：只有当用户消息明确涉及该领域时才匹配，模糊或边缘情况不匹配\n2. 如果匹配，提取用户讨论的具体话题作为 topic\n3. 返回 JSON 格式\n\n## 输出格式\n返回 JSON 数组，每个匹配项包含 patchId 和 topic：\n```json\n[{\"patchId\": \"acf\", \"topic\": \"房产网站内容建模\"}]\n```\n\n如果没有匹配，返回空数组：\n```json\n[]\n```\n\n只返回 JSON，不要其他内容。"

  /** One line of the domain list. */
  function PatchLine(p: ContextPatch): string {
    "- " + p.id + ": " + p.trigger
  }

  function PatchLines(patches: seq<ContextPatch>): (r: seq<string>)
    ensures |r| == |patches| && forall k :: 0 <= k < |patches| ==> r[k] == PatchLine(patches[k])
  {
    seq(|patches|, k requires 0 <= k < |patches| => PatchLine(patches[k]))
  }

  function PatchDescriptions(patches: seq<ContextPatch>): string {
    Join(PatchLines(patches), "\n")
  }

  /** `buildDetectionPrompt`: the fixed instructions around the domain list
      and the user's message, which goes in verbatim. */
  function BuildDetectionPrompt(patches: seq<ContextPatch>, userMessage: string): (r: string)
    ensures r == PromptHead + PatchDescriptions(patches) + PromptMiddle + userMessage + PromptTail
  {
    PromptHead + PatchDescriptions(patches) + PromptMiddle + userMessage + PromptTail
  }

  predicate NoNewline(s: string) {
    forall i :: 0 <= i < |s| ==> s[i] != '\n'
  }

  /** Splitting at a line break that follows a line without one. */
  lemma {:induction false} SplitAfterLine(a: string, b: string)
    requires NoNewline(a)
    ensures StreamProcessor.Split(a + "\n" + b) == [a] + StreamProcessor.Split(b)
    decreases |a|
  {
    if |a| == 0 {
      assert a + "\n" + b == "\n" + b;
      assert ("\n" + b)[1..] == b;
    } else {
      var s := a + "\n" + b;
      assert s[1..] == a[1..] + "\n" + b;
      SplitAfterLine(a[1..], b);
      assert [a[0]] + a[1..] == a;
    }
  }

  /** Lines without line breaks, joined with "\n", split back into the
      same lines. */
  lemma {:induction false} JoinedLinesSplit(lines: seq<string>)
    requires |lines| >= 1
    requires forall k :: 0 <= k < |lines| ==> NoNewline(lines[k])
    ensures StreamProcessor.Split(Join(lines, "\n")) == lines
    decreases |lines|
  {
    if |lines| == 1 {
      StreamProcessor.SplitNoNewline(lines[0]);
    } else {
      JoinedLinesSplit(lines[1..]);
      SplitAfterLine(lines[0], Join(lines[1..], "\n"));
    }
  }

  /** The domain list has one line per patch, in order, as long as no id
      or trigger holds a line break; the message follows it verbatim. */
  lemma PromptListsEachPatch(patches: seq<ContextPatch>, userMessage: string)
    requires |patches| >= 1
    requires forall k :: 0 <= k < |patches| ==> NoNewline(patches[k].id) && NoNewline(patches[k].trigger)
    ensures var prompt := BuildDetectionPrompt(patches, userMessage);
      var d := |PromptHead|;
      var m := d + |PatchDescriptions(patches)| + |PromptMiddle|;
      && StreamProcessor.Split(prompt[d..d + |PatchDescriptions(patches)|]) == PatchLines(patches)
      && prompt[m..m + |userMessage|] == userMessage
  {
    var lines := PatchLines(patches);
    forall k | 0 <= k < |lines|
      ensures NoNewline(lines[k])
    {
      PatchLineNoNewline(patches[k]);
    }
    JoinedLinesSplit(lines);
    InfixesOfFive(PromptHead, PatchDescriptions(patches), PromptMiddle, userMessage, PromptTail);
  }

  /** A patch line holds a line break only where its id or trigger does. */
  lemma PatchLineNoNewline(p: ContextPatch)
    requires NoNewline(p.id) && NoNewline(p.trigger)
    ensures NoNewline(PatchLine(p))
  {
    var line := PatchLine(p);
    forall i | 0 <= i < |line|
      ensures line[i] != '\n'
    {
      if 2 <= i < 2 + |p.id| {
        assert line[i] == p.id[i - 2];
      } else if 4 + |p.id| <= i {
        assert line[i] == p.trigger[i - (4 + |p.id|)];
      }
    }
  }

  /** The second and the fourth of five concatenated strings, cut back out. */
  lemma InfixesOfFive(a: string, b: string, c: string, d: string, e: string)
    ensures (a + b + c + d + e)[|a|..|a| + |b|] == b
    ensures (a + b + c + d + e)[|a| + |b| + |c|..|a| + |b| + |c| + |d|] == d
  {
  }

  // ---------------------------------------------------------------------
  // parseDetectionResponse

  /** The first index at or after `from` that holds `c`. */
  function CharFrom(s: string, c: char, from: nat): (r: Option<nat>)
    requires from <= |s|
    ensures r.Some? ==> from <= r.value < |s| && s[r.value] == c
    ensures r.Some? ==> forall k :: from <= k < r.value ==> s[k] != c
    ensures r.None? ==> forall k :: from <= k < |s| ==> s[k] != c
    decreases |s| - from
  {
    if from == |s| then None
    else if s[from] == c then Some(from)
    else CharFrom(s, c, from + 1)
  }

  /** `JSON_ARRAY_REGEX` (/\[[\s\S]*?\]/): from the first "[" to the
      nearest "]" after it. */
  function ExtractArray(s: string): (r: Option<string>)
    ensures r.Some? ==> (
      && CharFrom(s, '[', 0).Some?
      && CharFrom(s, '[', 0).value + |r.value| <= |s|
      && s[CharFrom(s, '[', 0).value..CharFrom(s, '[', 0).value + |r.value|] == r.value)
    ensures r.Some? ==> (
      && |r.value| >= 2 && r.value[0] == '[' && r.value[|r.value| - 1] == ']'
      && forall k :: 0 < k < |r.value| - 1 ==> r.value[k] != ']')
  {
    match CharFrom(s, '[', 0)
    case None => None
    case Some(i) =>
      match CharFrom(s, ']', i + 1)
      case None => None
      case Some(j) => Some(s[i..j + 1])
  }

  /** There is nothing to extract exactly when no "[" has a "]" after it. */
  lemma NoArrayIff(s: string)
    ensures ExtractArray(s).None? <==> forall i, j :: 0 <= i < j < |s| && s[i] == '[' ==> s[j] != ']'
  {
    match CharFrom(s, '[', 0)
    case None =>
    case Some(i) =>
      if CharFrom(s, ']', i + 1).None? {
        forall a, b | 0 <= a < b < |s| && s[a] == '['
          ensures s[b] != ']'
        {
          assert i <= a;
        }
      }
  }

  /** The filter's test: a non-null object whose `patchId` and `topic` are
      both strings. Arrays and other values have neither property. */
  function MatchOf(item: JsonValue): (r: Option<PatchMatch>)
    ensures r.Some? <==> (
      && item.JObject? && "patchId" in item.fields && "topic" in item.fields
      && item.fields["patchId"].JString? && item.fields["topic"].JString?)
    ensures r.Some? ==> r.value == PatchMatch(item.fields["patchId"].s, item.fields["topic"].s)
  {
    if item.JNull? then None
    else match (StringMember(item, "patchId"), StringMember(item, "topic"))
      case (Some(id), Some(topic)) => Some(PatchMatch(id, topic))
      case _ => None
  }

  /** `parsed.filter(...)`: the qualifying items, in order. */
  function MatchesOf(items: seq<JsonValue>): seq<PatchMatch>
    decreases |items|
  {
    if |items| == 0 then []
    else
      MatchesOf(items[..|items| - 1])
        + match MatchOf(items[|items| - 1]) case Some(m) => [m] case None => []
  }

  /** `parseDetectionResponse`, with `JSON.parse` as `parse`. */
  function ParseDetectionResponse(response: string, parse: Parser): (r: seq<PatchMatch>)
    ensures ExtractArray(response).None? ==> r == []
    ensures ExtractArray(response).Some? ==>
      var parsed := parse(ExtractArray(response).value);
      && (parsed.Some? && parsed.value.JArray? ==> r == MatchesOf(parsed.value.items))
      && (!(parsed.Some? && parsed.value.JArray?) ==> r == [])
  {
    match ExtractArray(response)
    case None => []
    case Some(text) =>
      match parse(text)
      case Some(JArray(items)) => MatchesOf(items)
      case _ => []
  }

  /** Every kept match comes from an item of the array. */
  lemma {:induction false} MatchesComeFromItems(items: seq<JsonValue>)
    ensures forall m :: m in MatchesOf(items) ==> exists k :: 0 <= k < |items| && MatchOf(items[k]) == Some(m)
    ensures |MatchesOf(items)| <= |items|
    decreases |items|
  {
    if |items| > 0 {
      var init := items[..|items| - 1];
      MatchesComeFromItems(init);
      assert forall k :: 0 <= k < |init| ==> init[k] == items[k];
    }
  }

  /** Every qualifying item is kept. */
  lemma {:induction false} QualifyingItemsKept(items: seq<JsonValue>)
    ensures forall k :: 0 <= k < |items| && MatchOf(items[k]).Some? ==> MatchOf(items[k]).value in MatchesOf(items)
    decreases |items|
  {
    if |items| > 0 {
      var init := items[..|items| - 1];
      QualifyingItemsKept(init);
      assert forall k :: 0 <= k < |init| ==> init[k] == items[k];
    }
  }

  /** When every item qualifies, the matches line up with the array. */
  lemma {:induction false} AllQualifyingKeptInOrder(items: seq<JsonValue>)
    requires forall k :: 0 <= k < |items| ==> MatchOf(items[k]).Some?
    ensures |MatchesOf(items)| == |items|
    ensures forall k :: 0 <= k < |items| ==> MatchesOf(items)[k] == MatchOf(items[k]).value
    decreases |items|
  {
    if |items| > 0 {
      AllQualifyingKeptInOrder(items[..|items| - 1]);
    }
  }

  // ---------------------------------------------------------------------
  // replaceVariables

  const Placeholder := "{{topic}}"

  /** The replacement string's `$`-patterns, as `String.prototype.replace`
      expands them for a match with no capture groups: `$$` is "$", `$&`
      the match, `` $` `` the text before it, `$'` the text after it; any
      other `$` stays as it is. */
  function Expand(t: string, before: string, after: string): string
    decreases |t|
  {
    if |t| == 0 then ""
    else if t[0] == '$' && |t| >= 2 && t[1] == '$' then "$" + Expand(t[2..], before, after)
    else if t[0] == '$' && |t| >= 2 && t[1] == '&' then Placeholder + Expand(t[2..], before, after)
    else if t[0] == '$' && |t| >= 2 && t[1] == '`' then before + Expand(t[2..], before, after)
    else if t[0] == '$' && |t| >= 2 && t[1] == '\'' then after + Expand(t[2..], before, after)
    else [t[0]] + Expand(t[1..], before, after)
  }

  /** The global replace from index `from` on: scanning left to right, an
      occurrence of the placeholder becomes the expanded topic and the scan
      resumes after it (so occurrences never overlap); any other character
      is kept. */
  function ReplaceFrom(s: string, topic: string, from: nat): string
    requires from <= |s|
    decreases |s| - from
  {
    if from == |s| then ""
    else if PlaceholderAt(s, from) then
      Expand(topic, s[..from], s[from + 9..]) + ReplaceFrom(s, topic, from + 9)
    else [s[from]] + ReplaceFrom(s, topic, from + 1)
  }

  /** The pattern matches at `j`, character by character. */
  predicate PlaceholderAt(s: string, j: nat) {
    && j + 9 <= |s|
    && s[j] == '{' && s[j + 1] == '{'
    && s[j + 2] == 't' && s[j + 3] == 'o' && s[j + 4] == 'p' && s[j + 5] == 'i' && s[j + 6] == 'c'
    && s[j + 7] == '}' && s[j + 8] == '}'
  }

  lemma PlaceholderAtIsOccurrence(s: string, j: nat)
    ensures PlaceholderAt(s, j) <==> OccursAt(s, Placeholder, j)
  {
    if j + 9 <= |s| {
      var w := s[j..j + 9];
      assert forall k :: 0 <= k < 9 ==> w[k] == s[j + k];
      if PlaceholderAt(s, j) {
        assert w == Placeholder;
      }
      if OccursAt(s, Placeholder, j) {
        assert w == Placeholder;
        assert w[0] == '{' && w[1] == '{' && w[2] == 't' && w[3] == 'o' && w[4] == 'p';
        assert w[5] == 'i' && w[6] == 'c' && w[7] == '}' && w[8] == '}';
      }
    }
  }

  /** `replaceVariables`: `content.replace(/\{\{topic\}\}/g, topic)`. */
  function ReplaceVariables(content: string, topic: string): string {
    ReplaceFrom(content, topic, 0)
  }

  predicate NoDollar(t: string) {
    forall i :: 0 <= i < |t| ==> t[i] != '$'
  }

  lemma {:induction false} ExpandLiteral(t: string, before: string, after: string)
    requires NoDollar(t)
    ensures Expand(t, before, after) == t
    decreases |t|
  {
    if |t| > 0 {
      ExpandLiteral(t[1..], before, after);
      assert [t[0]] + t[1..] == t;
    }
  }

  /** A position where the placeholder does not start keeps its character. */
  lemma CopyChar(s: string, from: nat, topic: string)
    requires from < |s| && !PlaceholderAt(s, from)
    ensures ReplaceFrom(s, topic, from) == [s[from]] + ReplaceFrom(s, topic, from + 1)
  {
  }

  /** A stretch where no placeholder starts is copied as it is. */
  lemma {:induction false} CopyUpTo(s: string, from: nat, to: nat, topic: string)
    requires from <= to <= |s|
    requires forall j :: from <= j < to ==> !PlaceholderAt(s, j)
    ensures ReplaceFrom(s, topic, from) == s[from..to] + ReplaceFrom(s, topic, to)
    decreases (to as int) - from
  {
    if from < to {
      CopyChar(s, from, topic);
      CopyUpTo(s, from + 1, to, topic);
      assert s[from..to] == [s[from]] + s[from + 1..to];
      AppendAssoc([s[from]], s[from + 1..to], ReplaceFrom(s, topic, to));
    } else {
      assert s[from..to] == [];
    }
  }

  /** The placeholder overlaps no other occurrence of itself: no proper
      prefix of `{{topic}}` is also a suffix of it. */
  lemma NoStraddle(s: string, j: nat, i: nat)
    requires j < i < j + 9 && PlaceholderAt(s, i)
    ensures !PlaceholderAt(s, j)
  {
    if i == j + 1 {
      assert s[j + 2] == '{';
    } else {
      assert s[j + (i - j)] == '{';
    }
  }

  /** A placeholder starting inside a piece of `s` that does not include it
      would have to run past the piece. */
  lemma InsideNoMatch(s: string, from: nat, p: string, j: nat)
    requires from <= j && j + 9 <= from + |p| <= |s| && s[from..from + |p|] == p
    requires !Includes(p, Placeholder)
    ensures !PlaceholderAt(s, j)
  {
    var q := j - from;
    SliceOfSlice(s, from, from + |p|, q, q + 9);
    assert !OccursAt(p, Placeholder, q);
    PlaceholderAtIsOccurrence(s, j);
  }

  /** No placeholder starts inside a piece that does not include one and
      that ends the text or is followed by a placeholder. */
  lemma PieceHasNoMatch(s: string, from: nat, p: string)
    requires from + |p| <= |s| && s[from..from + |p|] == p && !Includes(p, Placeholder)
    requires from + |p| == |s| || PlaceholderAt(s, from + |p|)
    ensures forall j :: from <= j < from + |p| ==> !PlaceholderAt(s, j)
  {
    forall j | from <= j < from + |p|
      ensures !PlaceholderAt(s, j)
    {
      if j + 9 <= from + |p| {
        InsideNoMatch(s, from, p, j);
      } else if from + |p| < |s| {
        NoStraddle(s, j, from + |p|);
      }
    }
  }

  /** A placeholder becomes the topic when the topic has no `$`. */
  lemma ReplaceStep(s: string, from: nat, topic: string)
    requires from + 9 <= |s| && s[from..from + 9] == Placeholder
    requires NoDollar(topic)
    ensures ReplaceFrom(s, topic, from) == topic + ReplaceFrom(s, topic, from + 9)
  {
    PlaceholderAtIsOccurrence(s, from);
    ExpandLiteral(topic, s[..from], s[from + 9..]);
  }

  lemma AppendChain(x: string, a: string, y: string, b: string, z: string, c: string)
    requires x == a + y && y == b + z && z == c
    ensures x == a + b + c
  {
  }

  /** A piece without the placeholder followed by a placeholder becomes the
      piece followed by the topic. */
  lemma ReplaceFirstPiece(s: string, from: nat, p: string, topic: string)
    requires from + |p| + 9 <= |s| && s[from..from + |p|] == p && !Includes(p, Placeholder)
    requires s[from + |p|..from + |p| + 9] == Placeholder && NoDollar(topic)
    ensures ReplaceFrom(s, topic, from) == p + topic + ReplaceFrom(s, topic, from + |p| + 9)
  {
    var i := from + |p|;
    PlaceholderAtIsOccurrence(s, i);
    PieceHasNoMatch(s, from, p);
    CopyUpTo(s, from, i, topic);
    ReplaceStep(s, i, topic);
    AppendChain(ReplaceFrom(s, topic, from), p, ReplaceFrom(s, topic, i), topic, ReplaceFrom(s, topic, i + 9), ReplaceFrom(s, topic, i + 9));
  }

  /** The text before the first placeholder, the placeholder and the rest. */
  lemma JoinedPieces(s: string, from: nat, parts: seq<string>)
    requires from <= |s| && |parts| >= 2 && s[from..] == Join(parts, Placeholder)
    ensures from + |parts[0]| + 9 <= |s|
    ensures s[from..from + |parts[0]|] == parts[0]
    ensures s[from + |parts[0]|..from + |parts[0]| + 9] == Placeholder
    ensures s[from + |parts[0]| + 9..] == Join(parts[1..], Placeholder)
  {
    var p, i, rest := parts[0], from + |parts[0]|, Join(parts[1..], Placeholder);
    assert s[from..] == p + Placeholder + rest;
    assert s[from..i] == s[from..][..|p|];
    assert s[i..i + 9] == s[from..][|p|..|p| + 9];
    assert s[i + 9..] == s[from..][|p| + 9..];
  }

  /** The last piece: copied as it is. */
  lemma ReplaceLastPiece(s: string, from: nat, p: string, topic: string)
    requires from <= |s| && s[from..] == p && !Includes(p, Placeholder)
    ensures ReplaceFrom(s, topic, from) == p
  {
    assert s[from..from + |p|] == p;
    PieceHasNoMatch(s, from, p);
    CopyUpTo(s, from, |s|, topic);
    assert ReplaceFrom(s, topic, |s|) == [];
    assert p + [] == p;
  }

  /** No piece holds the placeholder, stated piece after piece. */
  predicate PiecesFree(parts: seq<string>) {
    |parts| == 0 || (!Includes(parts[0], Placeholder) && PiecesFree(parts[1..]))
  }

  lemma {:induction false} PiecesFreeEach(parts: seq<string>)
    requires forall k :: 0 <= k < |parts| ==> !Includes(parts[k], Placeholder)
    ensures PiecesFree(parts)
    decreases |parts|
  {
    if |parts| > 0 {
      assert !Includes(parts[0], Placeholder);
      assert forall k :: 0 <= k < |parts| - 1 ==> parts[1..][k] == parts[k + 1];
      PiecesFreeEach(parts[1..]);
    }
  }

  lemma {:induction false} ReplaceJoined(s: string, from: nat, parts: seq<string>, topic: string)
    requires from <= |s| && |parts| >= 1 && s[from..] == Join(parts, Placeholder)
    requires PiecesFree(parts) && NoDollar(topic)
    ensures ReplaceFrom(s, topic, from) == Join(parts, topic)
    decreases |parts|
  {
    if |parts| == 1 {
      ReplaceLastPiece(s, from, parts[0], topic);
      assert Join(parts, topic) == parts[0];
    } else {
      JoinedPieces(s, from, parts);
      ReplaceJoined(s, from + |parts[0]| + 9, parts[1..], topic);
      ReplaceJoinedCons(s, from, parts, topic);
    }
  }

  /** The first piece and placeholder, then the rest already replaced. */
  lemma ReplaceJoinedCons(s: string, from: nat, parts: seq<string>, topic: string)
    requires |parts| >= 2 && from + |parts[0]| + 9 <= |s|
    requires s[from..from + |parts[0]|] == parts[0] && !Includes(parts[0], Placeholder)
    requires s[from + |parts[0]|..from + |parts[0]| + 9] == Placeholder && NoDollar(topic)
    requires ReplaceFrom(s, topic, from + |parts[0]| + 9) == Join(parts[1..], topic)
    ensures ReplaceFrom(s, topic, from) == Join(parts, topic)
  {
    JoinCons(parts, topic);
    ReplaceFirstPiece(s, from, parts[0], topic);
    SameFrontSameWhole(ReplaceFrom(s, topic, from), Join(parts, topic), parts[0] + topic,
                       ReplaceFrom(s, topic, from + |parts[0]| + 9), Join(parts[1..], topic));
  }

  lemma SameFrontSameWhole(x: string, y: string, front: string, xs: string, ys: string)
    requires x == front + xs && y == front + ys && xs == ys
    ensures x == y
  {
  }

  /** With a topic free of `$`, every `{{topic}}` becomes the topic and
      the text between occurrences, which may hold any other text, braces
      included, is kept as it is. */
  lemma ReplacesEveryPlaceholder(parts: seq<string>, topic: string)
    requires |parts| >= 1 && forall k :: 0 <= k < |parts| ==> !Includes(parts[k], Placeholder)
    requires NoDollar(topic)
    ensures ReplaceVariables(Join(parts, Placeholder), topic) == Join(parts, topic)
  {
    PiecesFreeEach(parts);
    ReplaceJoined(Join(parts, Placeholder), 0, parts, topic);
  }

  lemma {:induction false} NoOccurrenceKept(s: string, from: nat, topic: string)
    requires from <= |s| && forall j :: from <= j <= |s| ==> !OccursAt(s, Placeholder, j)
    ensures ReplaceFrom(s, topic, from) == s[from..]
    decreases |s| - from
  {
    if from < |s| {
      PlaceholderAtIsOccurrence(s, from);
      NoOccurrenceKept(s, from + 1, topic);
      assert [s[from]] + s[from + 1..] == s[from..];
    }
  }

  /** Text without a placeholder is returned unchanged, whatever the topic. */
  lemma NoPlaceholderUnchanged(content: string, topic: string)
    requires !Includes(content, Placeholder)
    ensures ReplaceVariables(content, topic) == content
  {
    NoOccurrenceKept(content, 0, topic);
  }

  /** A topic holding `$`-patterns is expanded, not inserted literally. */
  lemma DollarPatternsExpand()
    ensures ReplaceVariables("{{topic}}", "$&") == "{{topic}}"
    ensures ReplaceVariables("a{{topic}}b", "$'") == "abb"
  {
    var s := "a{{topic}}b";
    assert PlaceholderAt("{{topic}}", 0);
    CopyChar(s, 0, "$'");
    assert PlaceholderAt(s, 1);
    assert s[10..] == "b";
  }

  // ---------------------------------------------------------------------
  // buildInjectionContent

  /** `new Map(patches.map(p => [p.id, p])).get(id)`: a later patch with
      the same id overwrites an earlier one, so the last one wins. */
  function PatchById(patches: seq<ContextPatch>, id: string): (r: Option<ContextPatch>)
    ensures r.None? <==> forall k :: 0 <= k < |patches| ==> patches[k].id != id
    ensures r.Some? ==> exists k :: (
      && 0 <= k < |patches| && patches[k] == r.value && r.value.id == id
      && forall j :: k < j < |patches| ==> patches[j].id != id)
    decreases |patches|
  {
    if |patches| == 0 then None
    else if patches[|patches| - 1].id == id then Some(patches[|patches| - 1])
    else
      var r := PatchById(patches[..|patches| - 1], id);
      assert forall k :: 0 <= k < |patches| - 1 ==> patches[..|patches| - 1][k] == patches[k];
      r
  }

  /** The substituted bodies the loop collects, in match order. */
  function Injections(patches: seq<ContextPatch>, matches: seq<PatchMatch>): seq<string>
    decreases |matches|
  {
    if |matches| == 0 then []
    else
      var m := matches[|matches| - 1];
      Injections(patches, matches[..|matches| - 1])
        + match PatchById(patches, m.patchId) case Some(p) => [ReplaceVariables(p.content, m.topic)] case None => []
  }

  const InjectionHeader := "\n\n---\n\n## Context Patches\n\n"

  function InjectionContent(patches: seq<ContextPatch>, matches: seq<PatchMatch>): string {
    if |matches| == 0 then ""
    else
      var injections := Injections(patches, matches);
      if |injections| == 0 then "" else InjectionHeader + Join(injections, "\n\n")
  }

  /** `buildInjectionContent` */
  method BuildInjectionContent(patches: seq<ContextPatch>, matches: seq<PatchMatch>) returns (r: string)
    ensures r == InjectionContent(patches, matches)
  {
    if |matches| == 0 {
      return "";
    }
    var injections: seq<string> := [];
    var i := 0;
    while i < |matches|
      invariant 0 <= i <= |matches|
      invariant injections == Injections(patches, matches[..i])
    {
      var m := matches[i];
      assert matches[..i + 1][..i] == matches[..i];
      var patch := PatchById(patches, m.patchId);
      if patch.Some? {
        var content := ReplaceVariables(patch.value.content, m.topic);
        injections := injections + [content];
      }
      i := i + 1;
    }
    assert matches[..|matches|] == matches;
    if |injections| == 0 {
      return "";
    }
    r := InjectionHeader + Join(injections, "\n\n");
  }

  predicate Known(patches: seq<ContextPatch>, m: PatchMatch) {
    PatchById(patches, m.patchId).Some?
  }

  /** One body per match that names a known patch. */
  lemma {:induction false} InjectionsOfKnownMatches(patches: seq<ContextPatch>, matches: seq<PatchMatch>)
    ensures |Injections(patches, matches)| == 0 <==> forall k :: 0 <= k < |matches| ==> !Known(patches, matches[k])
    ensures |Injections(patches, matches)| <= |matches|
    decreases |matches|
  {
    if |matches| > 0 {
      var init := matches[..|matches| - 1];
      InjectionsOfKnownMatches(patches, init);
      assert forall k :: 0 <= k < |init| ==> init[k] == matches[k];
    }
  }

  /** The injection is empty exactly when no match names a known patch;
      otherwise it is the header followed by the bodies. */
  lemma InjectionEmptyIffNothingKnown(patches: seq<ContextPatch>, matches: seq<PatchMatch>)
    ensures InjectionContent(patches, matches) == "" <==> forall k :: 0 <= k < |matches| ==> !Known(patches, matches[k])
    ensures InjectionContent(patches, matches) != "" ==>
      InjectionContent(patches, matches) == InjectionHeader + Join(Injections(patches, matches), "\n\n")
  {
    InjectionsOfKnownMatches(patches, matches);
    assert |InjectionHeader| > 0;
  }

  /** When every match names a known patch, the bodies follow the matches
      one for one: the last patch with the named id, with its topic put in. */
  lemma {:induction false} InjectionsInMatchOrder(patches: seq<ContextPatch>, matches: seq<PatchMatch>)
    requires forall k :: 0 <= k < |matches| ==> Known(patches, matches[k])
    ensures |Injections(patches, matches)| == |matches|
    ensures forall k :: 0 <= k < |matches| && Known(patches, matches[k]) ==>
      Injections(patches, matches)[k] == ReplaceVariables(PatchById(patches, matches[k].patchId).value.content, matches[k].topic)
    decreases |matches|
  {
    if |matches| > 0 {
      InjectionsInMatchOrder(patches, matches[..|matches| - 1]);
    }
  }

  // ---------------------------------------------------------------------
  // getDetectionModel

  const ThinkMarker := "-think"
  const ClaudeDetectionModel := "claude-haiku-4-5-20251001"
  const GptDetectionModel := "gpt-4.1-mini"

  /** `s.replace(p, "")` with a string pattern: the first occurrence goes. */
  function RemoveFirst(s: string, p: string): (r: string)
    ensures !Includes(s, p) ==> r == s
    ensures Includes(s, p) ==> exists i :: (
      && OccursAt(s, p, i) && (forall j :: 0 <= j < i ==> !OccursAt(s, p, j))
      && r == s[..i] + s[i + |p|..])
  {
    match IndexOf(s, p)
    case None => s
    case Some(i) => s[..i] + s[i + |p|..]
  }

  /** `getDetectionModel`: a thinking model loses its first "-think";
      otherwise Claude models go to Haiku, GPT models to gpt-4.1-mini, and
      anything else is used as it is. */
  function GetDetectionModel(mainModel: string): (r: string)
    ensures Includes(mainModel, ThinkMarker) ==> |r| == |mainModel| - |ThinkMarker|
    ensures Includes(mainModel, ThinkMarker) ==> r == RemoveFirst(mainModel, ThinkMarker)
    ensures !Includes(mainModel, ThinkMarker) && Includes(mainModel, "claude") ==> r == ClaudeDetectionModel
    ensures !Includes(mainModel, ThinkMarker) && !Includes(mainModel, "claude") && Includes(mainModel, "gpt")
      ==> r == GptDetectionModel
    ensures !Includes(mainModel, ThinkMarker) && !Includes(mainModel, "claude") && !Includes(mainModel, "gpt")
      ==> r == mainModel
  {
    if Includes(mainModel, ThinkMarker) then RemoveFirst(mainModel, ThinkMarker)
    else if Includes(mainModel, "claude") then ClaudeDetectionModel
    else if Includes(mainModel, "gpt") then GptDetectionModel
    else mainModel
  }

  /** A string without some character of `p` cannot contain `p`. */
  lemma MissingCharExcludes(s: string, p: string, c: char)
    requires c in p && c !in s
    ensures !Includes(s, p)
  {
    var k :| 0 <= k < |p| && p[k] == c;
    assert forall i :: 0 <= i <= |s| ==> !OccursAt(s, p, i);
  }

  /** The two cheap targets map to themselves, so for any model without
      "-think" asking again gives the same detection model. */
  lemma DetectionModelStable(mainModel: string)
    requires !Includes(mainModel, ThinkMarker)
    ensures GetDetectionModel(GetDetectionModel(mainModel)) == GetDetectionModel(mainModel)
  {
    assert 'k' in ThinkMarker && 'k' !in GptDetectionModel;
    MissingCharExcludes(GptDetectionModel, ThinkMarker, 'k');
    assert 'n' in ThinkMarker && 'n' !in ClaudeDetectionModel;
    MissingCharExcludes(ClaudeDetectionModel, ThinkMarker, 'n');
    assert OccursAt(ClaudeDetectionModel, "claude", 0);
    assert OccursAt(GptDetectionModel, "gpt", 0);
    assert 'c' !in GptDetectionModel;
    MissingCharExcludes(GptDetectionModel, "claude", 'c');
  }
}
