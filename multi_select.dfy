/** The multi-select hook of src/hooks/use-multi-select.ts: a list of
    selected values that toggle, add, remove and clear replace. React's
    state cell is the field `selected`; each updater computes the new list
    from the previous one, and those computations are the functions below. */
module MultiSelect {
  import opened Common

  /** `prev.filter((v) => v !== value)`. */
  function Without(s: seq<string>, value: string): seq<string>
    decreases |s|
  {
    if |s| == 0 then []
    else Without(s[..|s| - 1], value) + (if s[|s| - 1] == value then [] else [s[|s| - 1]])
  }

  /** `toggle`: a present value is removed everywhere, an absent one goes last. */
  function Toggled(s: seq<string>, value: string): seq<string> {
    if value in s then Without(s, value) else s + [value]
  }

  /** `add`: an absent value goes last; a present one changes nothing. */
  function Added(s: seq<string>, value: string): seq<string> {
    if value in s then s else s + [value]
  }

  predicate Distinct(s: seq<string>) {
    forall j, k :: 0 <= j < k < |s| ==> s[j] != s[k]
  }

  /** Filtering drops exactly the occurrences of `value`: every other value
      keeps its number of occurrences. */
  lemma {:induction false} WithoutCounts(s: seq<string>, value: string)
    ensures multiset(Without(s, value)) == multiset(s)[value := 0]
    decreases |s|
  {
    if |s| > 0 {
      var init := s[..|s| - 1];
      WithoutCounts(init, value);
      DropLastSnoc(s);
    }
  }

  /** Filtering keeps the order: it distributes over concatenation. */
  lemma {:induction false} WithoutConcat(a: seq<string>, b: seq<string>, value: string)
    ensures Without(a + b, value) == Without(a, value) + Without(b, value)
    decreases |b|
  {
    if |b| > 0 {
      var init := b[..|b| - 1];
      assert (a + b)[..|a + b| - 1] == a + init;
      WithoutConcat(a, init, value);
    } else {
      assert a + b == a;
    }
  }

  /** A list without the value is left as it is. */
  lemma {:induction false} WithoutAbsent(s: seq<string>, value: string)
    requires value !in s
    ensures Without(s, value) == s
    decreases |s|
  {
    if |s| > 0 {
      WithoutAbsent(s[..|s| - 1], value);
      DropLastSnoc(s);
    }
  }

  lemma {:induction false} WithoutMembers(s: seq<string>, value: string, x: string)
    ensures x in Without(s, value) <==> x in s && x != value
  {
    WithoutCounts(s, value);
    assert x in Without(s, value) <==> x in multiset(Without(s, value));
    assert x in s <==> x in multiset(s);
  }

  lemma {:induction false} WithoutDistinct(s: seq<string>, value: string)
    requires Distinct(s)
    ensures Distinct(Without(s, value))
    decreases |s|
  {
    if |s| > 0 {
      var init := s[..|s| - 1];
      WithoutDistinct(init, value);
      WithoutMembers(init, value, s[|s| - 1]);
    }
  }

  /** `toggle` flips the membership of the value and no other. */
  lemma ToggleFlips(s: seq<string>, value: string)
    ensures value in Toggled(s, value) <==> value !in s
    ensures forall x :: x != value ==> (x in Toggled(s, value) <==> x in s)
  {
    forall x {
      WithoutMembers(s, value, x);
    }
  }

  /** Toggling an absent value twice gives back the original list. */
  lemma ToggleTwiceRestores(s: seq<string>, value: string)
    requires value !in s
    ensures Toggled(Toggled(s, value), value) == s
  {
    WithoutConcat(s, [value], value);
    WithoutAbsent(s, value);
    assert Without([value], value) == [];
  }

  /** `toggle` and `add` keep a list free of duplicates. */
  lemma UpdatesKeepDistinct(s: seq<string>, value: string)
    requires Distinct(s)
    ensures Distinct(Toggled(s, value)) && Distinct(Added(s, value)) && Distinct(Without(s, value))
  {
    WithoutDistinct(s, value);
  }

  /** `add` leaves the value selected and is idempotent; it appends only
      when the value was absent. */
  lemma AddIdempotent(s: seq<string>, value: string)
    ensures value in Added(s, value)
    ensures Added(Added(s, value), value) == Added(s, value)
    ensures value in s ==> Added(s, value) == s
  {
    assert Added(s, value)[|Added(s, value)| - 1] == value || value in s;
  }

  /** The hook's state. */
  class MultiSelectState {
    var selected: seq<string>

    /** `initialSelected ?? []`. */
    constructor (initialSelected: Option<seq<string>>)
      ensures selected == if initialSelected.Some? then initialSelected.value else []
    {
      selected := if initialSelected.Some? then initialSelected.value else [];
    }

    method IsSelected(value: string) returns (b: bool)
      ensures b <==> value in selected
    {
      b := value in selected;
    }

    method Toggle(value: string)
      modifies this
      ensures selected == Toggled(old(selected), value)
    {
      selected := Toggled(selected, value);
    }

    method Add(value: string)
      modifies this
      ensures selected == Added(old(selected), value)
    {
      selected := Added(selected, value);
    }

    method Remove(value: string)
      modifies this
      ensures selected == Without(old(selected), value)
    {
      selected := Without(selected, value);
    }

    method Clear()
      modifies this
      ensures selected == []
    {
      selected := [];
    }

    method SetSelected(values: seq<string>)
      modifies this
      ensures selected == values
    {
      selected := values;
    }
  }
}
