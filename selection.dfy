/** The selection: the options the user picked, in the order picked, with
    no option twice. */
module Selection {
  import opened ArrayOps

  /** `handleSelectItem`: append the option unless it is already selected. */
  function Select(items: seq<string>, item: string): (r: seq<string>)
    ensures item in r
    ensures items <= r && |r| <= |items| + 1
    ensures forall x :: x in r <==> x in items || x == item
    ensures NoDuplicates(items) ==> NoDuplicates(r)
  {
    if item in items then items else items + [item]
  }

  /** The test `i !== item` passed to `filter` by `handleRemoveItem`. */
  function Unequal(item: string): string -> bool {
    i => i != item
  }

  /** `handleRemoveItem`: keep every selected option other than `item`. */
  function Deselect(items: seq<string>, item: string): (r: seq<string>)
    ensures multiset(r) == multiset(items)[item := 0]
    ensures NoDuplicates(items) ==> NoDuplicates(r)
  {
    var r := KeepIf(items, Unequal(item));
    assert multiset(r) == multiset(items)[item := 0] by {
      forall x ensures multiset(r)[x] == multiset(items)[item := 0][x] {
        KeepIfCount(items, Unequal(item), x);
      }
    }
    assert NoDuplicates(items) ==> NoDuplicates(r) by {
      if NoDuplicates(items) {
        KeepIfNoDuplicates(items, Unequal(item));
      }
    }
    r
  }

  /** Selecting an option a second time changes nothing. */
  lemma SelectIdempotent(items: seq<string>, item: string)
    ensures Select(Select(items, item), item) == Select(items, item)
  {
  }

  /** The contract of `Select` pins its result down on every duplicate-free
      selection: any `r` meeting it is the old selection when the option is
      already there, and the old selection with the option appended otherwise. */
  lemma SelectContractIsExact(items: seq<string>, item: string, r: seq<string>)
    requires NoDuplicates(items)
    requires item in r && items <= r && |r| <= |items| + 1
    requires forall x :: x in r <==> x in items || x == item
    requires NoDuplicates(r)
    ensures item in items ==> r == items
    ensures item !in items ==> r == items + [item]
  {
    var n := |items|;
    if |r| == n + 1 {
      var y := r[n];
      assert y in r;
      assert r == items + [y];
      forall j | 0 <= j < n
        ensures items[j] != y
      {
        assert r[j] == items[j];
      }
      assert y == item;
    } else {
      assert r == items;
    }
  }

  /** The options that remain keep their relative order: the result is the
      subsequence of the selection at exactly the positions not holding `item`. */
  lemma DeselectPositions(items: seq<string>, item: string) returns (idx: seq<nat>)
    ensures |idx| == |Deselect(items, item)|
    ensures Increasing(idx)
    ensures forall k :: 0 <= k < |idx| ==>
      idx[k] < |items| && Deselect(items, item)[k] == items[idx[k]]
    ensures forall i :: 0 <= i < |items| ==> (items[i] != item <==> i in idx)
  {
    idx := KeepIfPositions(items, Unequal(item));
  }

  /** Removing an option that is not selected changes nothing. */
  lemma DeselectAbsent(items: seq<string>, item: string)
    requires item !in items
    ensures Deselect(items, item) == items
  {
    KeepIfAll(items, Unequal(item));
  }

  /** In a duplicate-free selection, removing all occurrences of an option is
      removing its one occurrence: the options before and after it close up. */
  lemma DeselectUnique(items: seq<string>, i: nat)
    requires NoDuplicates(items)
    requires i < |items|
    ensures Deselect(items, items[i]) == items[..i] + items[i + 1..]
  {
    var item := items[i];
    var before, after := items[..i], items[i + 1..];
    assert items == before + [item] + after;
    KeepIfAppend(before + [item], after, Unequal(item));
    KeepIfAppend(before, [item], Unequal(item));
    assert KeepIf([item], Unequal(item)) == [];
    KeepIfAll(before, Unequal(item));
    KeepIfAll(after, Unequal(item));
  }

  /** Selecting `a`, then `b`, then `a` again gives `[a, b]`, not `[b, a]`;
      removing `a` then leaves `[b]`. */
  lemma SelectionSession(a: string, b: string)
    requires a != b
    ensures Select(Select(Select([], a), b), a) == [a, b]
    ensures Deselect([a, b], a) == [b]
  {
    DeselectUnique([a, b], 0);
  }
}
