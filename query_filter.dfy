/** The query filter: for each category, the options whose lower-cased
    text contains the lower-cased query (`filteredData`). */
module QueryFilter {
  import opened Text
  import opened ArrayOps

  datatype Option<T> = None | Some(value: T)

  /** One entry of the widget's `data` prop: a category name and its
      options. The prop is a sequence of these in `Object.keys` order. */
  datatype Category = Category(key: string, options: seq<string>)

  /** `item.toLowerCase().includes(query.toLowerCase())` */
  predicate Matches(item: string, query: string): (r: bool)
    ensures r <==> exists i: nat :: OccursAt(Lower(item), Lower(query), i)
    ensures query == "" ==> r
  {
    var text, needle := Lower(item), Lower(query);
    ContainsIffOccurs(text, needle);
    Contains(text, needle)
  }

  /** The test passed to `filter` for a given query. */
  function MatchesQuery(query: string): string -> bool {
    item => Matches(item, query)
  }

  /** `data[key].filter(...)` for one category. */
  function FilterOptions(options: seq<string>, query: string): (r: seq<string>)
    ensures forall x :: x in r <==> x in options && Matches(x, query)
  {
    var r := KeepIf(options, MatchesQuery(query));
    assert forall x :: x in r <==> x in options && Matches(x, query) by {
      forall x ensures x in r <==> x in options && Matches(x, query) {
        KeepIfCount(options, MatchesQuery(query), x);
      }
    }
    r
  }

  /** `keys.reduce(...)`: one entry per category, in key order, holding the
      category's filtered options. */
  function Filter(data: seq<Category>, query: string): (r: seq<Category>)
    ensures |r| == |data|
    ensures forall i :: 0 <= i < |data| ==>
      r[i].key == data[i].key && r[i].options == FilterOptions(data[i].options, query)
  {
    if data == [] then []
    else [Category(data[0].key, FilterOptions(data[0].options, query))] + Filter(data[1..], query)
  }

  /** Position `i` holds the first category named `key`. */
  ghost predicate FirstWithKey(data: seq<Category>, key: string, i: int) {
    0 <= i < |data| && data[i].key == key && forall j :: 0 <= j < i ==> data[j].key != key
  }

  /** `data[key]`: the options of the first category named `key`. */
  function Lookup(data: seq<Category>, key: string): (r: Option<seq<string>>)
    ensures r.None? <==> forall i :: 0 <= i < |data| ==> data[i].key != key
    ensures r.Some? ==> exists i :: FirstWithKey(data, key, i) && data[i].options == r.value
  {
    if data == [] then None
    else if data[0].key == key then
      assert FirstWithKey(data, key, 0);
      Some(data[0].options)
    else
      var r := Lookup(data[1..], key);
      assert r.None? ==> forall i :: 0 <= i < |data| ==> data[i].key != key by {
        if r.None? {
          forall i | 1 <= i < |data| ensures data[i].key != key {
            assert data[i] == data[1..][i - 1];
          }
        }
      }
      assert r.Some? ==> exists i :: FirstWithKey(data, key, i) && data[i].options == r.value by {
        if r.Some? {
          var i :| FirstWithKey(data[1..], key, i) && data[1..][i].options == r.value;
          assert FirstWithKey(data, key, i + 1);
        }
      }
      r
  }

  /** `filteredData[key]` exists exactly for the keys of `data` and holds the
      filtered options of that category. */
  lemma {:induction false} FilterLookup(data: seq<Category>, query: string, key: string)
    ensures Lookup(Filter(data, query), key) ==
      match Lookup(data, key)
      case None => None
      case Some(options) => Some(FilterOptions(options, query))
  {
    if data != [] {
      assert Filter(data, query)[1..] == Filter(data[1..], query);
      FilterLookup(data[1..], query, key);
    }
  }

  /** Within a category the result is the subsequence of options at exactly
      the positions whose option matches the query, in their original order. */
  lemma FilterOptionsPositions(options: seq<string>, query: string) returns (idx: seq<nat>)
    ensures |idx| == |FilterOptions(options, query)|
    ensures Increasing(idx)
    ensures forall k :: 0 <= k < |idx| ==>
      idx[k] < |options| && FilterOptions(options, query)[k] == options[idx[k]]
    ensures forall i :: 0 <= i < |options| ==> (Matches(options[i], query) <==> i in idx)
  {
    idx := KeepIfPositions(options, MatchesQuery(query));
  }

  /** The empty query matches every option. */
  lemma FilterOptionsEmptyQuery(options: seq<string>)
    ensures FilterOptions(options, "") == options
  {
    forall i | 0 <= i < |options|
      ensures MatchesQuery("")(options[i])
    {
    }
    KeepIfAll(options, MatchesQuery(""));
  }

  /** With the empty query every category keeps all its options. */
  lemma FilterEmptyQuery(data: seq<Category>)
    ensures Filter(data, "") == data
  {
    var r := Filter(data, "");
    forall i | 0 <= i < |data|
      ensures r[i] == data[i]
    {
      FilterOptionsEmptyQuery(data[i].options);
    }
  }

  /** The query's letter case does not matter: queries that lower-case alike
      select the same options. */
  lemma FilterIgnoresQueryCase(data: seq<Category>, query1: string, query2: string)
    requires Lower(query1) == Lower(query2)
    ensures Filter(data, query1) == Filter(data, query2)
  {
    var r1, r2 := Filter(data, query1), Filter(data, query2);
    forall i | 0 <= i < |data|
      ensures r1[i] == r2[i]
    {
      KeepIfAgree(data[i].options, MatchesQuery(query1), MatchesQuery(query2));
    }
  }

  /** An option's letter case does not matter either: an option matches
      exactly when its lower-case form does. */
  lemma MatchesIgnoresItemCase(item: string, query: string)
    ensures Matches(item, query) == Matches(Lower(item), query)
  {
    LowerIdempotent(item);
  }
}
