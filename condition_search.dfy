/** frontend/src/components/ConditionSearch: toggling filter chips on and off. */
module ConditionSearch {
  import opened Text

  /** `a` is `b` with some elements left out, order kept. */
  predicate IsSubsequence<T(==)>(a: seq<T>, b: seq<T>)
    decreases |b|
  {
    a == [] || (b != [] && (if a[0] == b[0] then IsSubsequence(a[1..], b[1..]) else IsSubsequence(a, b[1..])))
  }

  /** `selection.filter(item => item !== value)`. */
  function RemoveAll(selection: seq<string>, value: string): (r: seq<string>)
    ensures value !in r
    ensures |r| <= |selection|
    ensures forall x :: x in r ==> x in selection
    decreases |selection|
  {
    if selection == [] then []
    else if selection[0] == value then RemoveAll(selection[1..], value)
    else [selection[0]] + RemoveAll(selection[1..], value)
  }

  /** Removing keeps every other value with its multiplicity, in the original order. */
  lemma {:induction false} RemoveAllKeepsOthers(selection: seq<string>, value: string)
    ensures IsSubsequence(RemoveAll(selection, value), selection)
    ensures forall x :: x != value ==> multiset(RemoveAll(selection, value))[x] == multiset(selection)[x]
    decreases |selection|
  {
    if selection != [] {
      RemoveAllKeepsOthers(selection[1..], value);
      assert selection == [selection[0]] + selection[1..];
      var rest := RemoveAll(selection[1..], value);
      if selection[0] != value {
        assert ([selection[0]] + rest)[1..] == rest;
      } else {
        if rest != [] {
          assert rest[0] != selection[0];
        }
      }
    }
  }

  lemma {:induction false} RemoveAllAbsent(selection: seq<string>, value: string)
    requires value !in selection
    ensures RemoveAll(selection, value) == selection
    decreases |selection|
  {
    if selection != [] {
      RemoveAllAbsent(selection[1..], value);
      assert selection == [selection[0]] + selection[1..];
    }
  }

  lemma {:induction false} RemoveAllAppend(selection: seq<string>, value: string)
    ensures RemoveAll(selection + [value], value) == RemoveAll(selection, value)
    decreases |selection|
  {
    if selection == [] {
      assert [] + [value] == [value];
    } else {
      assert (selection + [value])[1..] == selection[1..] + [value];
      RemoveAllAppend(selection[1..], value);
    }
  }

  /** toggleSelection: drop every occurrence of a present value, otherwise append it. */
  function Toggle(selection: seq<string>, value: string): (r: seq<string>)
    ensures value in selection ==> r == RemoveAll(selection, value)
    ensures value !in selection ==> r == selection + [value]
  {
    if value in selection then RemoveAll(selection, value) else selection + [value]
  }

  /** Only the toggled value's membership flips; every other value keeps its membership. */
  lemma {:induction false} ToggleFlipsOnlyValue(selection: seq<string>, value: string)
    ensures value in Toggle(selection, value) <==> value !in selection
    ensures forall x :: x != value ==> (x in Toggle(selection, value) <==> x in selection)
  {
    if value in selection {
      RemoveAllKeepsOthers(selection, value);
      forall x | x != value
        ensures x in Toggle(selection, value) <==> x in selection
      {
        assert multiset(RemoveAll(selection, value))[x] == multiset(selection)[x];
      }
    }
  }

  /** Toggling an absent value on and off again gives back the original list. */
  lemma {:induction false} ToggleTwiceRestores(selection: seq<string>, value: string)
    requires value !in selection
    ensures Toggle(Toggle(selection, value), value) == selection
  {
    assert value in selection + [value];
    RemoveAllAppend(selection, value);
    RemoveAllAbsent(selection, value);
  }

  /** A chip is drawn selected iff its id's decimal text is in the selection. */
  predicate ChipSelected(selection: seq<string>, id: int)
  {
    IntToString(id) in selection
  }

  /** Clicking a chip flips exactly that chip's selected state. */
  lemma ClickFlipsChip(selection: seq<string>, id: int)
    ensures ChipSelected(Toggle(selection, IntToString(id)), id) <==> !ChipSelected(selection, id)
  {
    ToggleFlipsOnlyValue(selection, IntToString(id));
  }
}
