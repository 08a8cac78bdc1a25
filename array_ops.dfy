/** The array operations the widget uses: `Array.prototype.filter` and a
    duplicate-free predicate for the selection. */
module ArrayOps {

  /** `s.filter(keep)`: the elements of `s` that satisfy `keep`, in order. */
  function KeepIf<T>(s: seq<T>, keep: T -> bool): (r: seq<T>)
    ensures |r| <= |s|
    ensures forall k :: 0 <= k < |r| ==> keep(r[k])
  {
    if s == [] then [] else (if keep(s[0]) then [s[0]] else []) + KeepIf(s[1..], keep)
  }

  ghost predicate NoDuplicates<T>(s: seq<T>) {
    forall i, j :: 0 <= i < j < |s| ==> s[i] != s[j]
  }

  ghost predicate Increasing(idx: seq<nat>) {
    forall j, k :: 0 <= j < k < |idx| ==> idx[j] < idx[k]
  }

  /** `r` lists the elements of `s` at the increasing positions `idx`, and
      `idx` holds exactly the positions of `s` whose element satisfies `keep`. */
  ghost predicate KeptPositions<T>(s: seq<T>, keep: T -> bool, r: seq<T>, idx: seq<nat>) {
    && |idx| == |r|
    && Increasing(idx)
    && (forall k :: 0 <= k < |idx| ==> idx[k] < |s| && r[k] == s[idx[k]])
    && (forall i :: 0 <= i < |s| ==> (keep(s[i]) <==> i in idx))
  }

  /** Every position moved one place to the right. */
  function Shift(idx: seq<nat>): (r: seq<nat>)
    ensures |r| == |idx|
    ensures forall k :: 0 <= k < |idx| ==> r[k] == idx[k] + 1
  {
    seq(|idx|, k requires 0 <= k < |idx| => idx[k] + 1)
  }

  /** The result of `filter` is the subsequence of `s` at exactly the
      positions whose element passes the test, in their original order. */
  lemma {:induction false} KeepIfPositions<T>(s: seq<T>, keep: T -> bool) returns (idx: seq<nat>)
    ensures KeptPositions(s, keep, KeepIf(s, keep), idx)
  {
    if s == [] {
      idx := [];
    } else {
      var rest := KeepIfPositions(s[1..], keep);
      idx := ExtendPositions(s, keep, rest);
    }
  }

  /** One step of KeepIfPositions: the positions for `s` from those for its tail. */
  lemma ExtendPositions<T>(s: seq<T>, keep: T -> bool, rest: seq<nat>) returns (idx: seq<nat>)
    requires s != []
    requires KeptPositions(s[1..], keep, KeepIf(s[1..], keep), rest)
    ensures KeptPositions(s, keep, KeepIf(s, keep), idx)
  {
    var head: seq<nat> := if keep(s[0]) then [0] else [];
    idx := head + Shift(rest);
    assert KeepIf(s, keep) == (if keep(s[0]) then [s[0]] else []) + KeepIf(s[1..], keep);
    ShiftIncreasing(head, rest);
    ExtendElements(s, keep, rest, head);
    ExtendMembership(s, keep, rest, head);
  }

  lemma ShiftIncreasing(head: seq<nat>, rest: seq<nat>)
    requires head == [] || head == [0]
    requires Increasing(rest)
    ensures Increasing(head + Shift(rest))
  {
  }

  lemma ExtendElements<T>(s: seq<T>, keep: T -> bool, rest: seq<nat>, head: seq<nat>)
    requires s != []
    requires head == if keep(s[0]) then [0] else []
    requires |rest| == |KeepIf(s[1..], keep)|
    requires forall k :: 0 <= k < |rest| ==> rest[k] < |s[1..]| && KeepIf(s[1..], keep)[k] == s[1..][rest[k]]
    ensures
      var r, idx := (if keep(s[0]) then [s[0]] else []) + KeepIf(s[1..], keep), head + Shift(rest);
      |idx| == |r| && forall k :: 0 <= k < |idx| ==> idx[k] < |s| && r[k] == s[idx[k]]
  {
  }

  lemma ExtendMembership<T>(s: seq<T>, keep: T -> bool, rest: seq<nat>, head: seq<nat>)
    requires s != []
    requires head == if keep(s[0]) then [0] else []
    requires forall i :: 0 <= i < |s[1..]| ==> (keep(s[1..][i]) <==> i in rest)
    ensures forall i :: 0 <= i < |s| ==> (keep(s[i]) <==> i in head + Shift(rest))
  {
    var shifted := Shift(rest);
    forall i | 0 <= i < |s|
      ensures keep(s[i]) <==> i in head + shifted
    {
      if i > 0 {
        assert s[i] == s[1..][i - 1];
        if i in shifted {
          var k :| 0 <= k < |shifted| && shifted[k] == i;
          assert rest[k] == i - 1;
        }
        if i - 1 in rest {
          var k :| 0 <= k < |rest| && rest[k] == i - 1;
          assert shifted[k] == i;
        }
      } else {
        assert forall k :: 0 <= k < |shifted| ==> shifted[k] != 0;
      }
    }
  }

  /** How often `x` occurs in the result: as often as in `s` when it passes
      the test, never otherwise. */
  lemma {:induction false} KeepIfCount<T>(s: seq<T>, keep: T -> bool, x: T)
    ensures multiset(KeepIf(s, keep))[x] == if keep(x) then multiset(s)[x] else 0
  {
    if s != [] {
      KeepIfCount(s[1..], keep, x);
      assert s == [s[0]] + s[1..];
    }
  }

  /** When every element passes, `filter` returns its input unchanged. */
  lemma {:induction false} KeepIfAll<T>(s: seq<T>, keep: T -> bool)
    requires forall i :: 0 <= i < |s| ==> keep(s[i])
    ensures KeepIf(s, keep) == s
  {
    if s != [] {
      KeepIfAll(s[1..], keep);
    }
  }

  /** `filter` distributes over concatenation. */
  lemma {:induction false} KeepIfAppend<T>(a: seq<T>, b: seq<T>, keep: T -> bool)
    ensures KeepIf(a + b, keep) == KeepIf(a, keep) + KeepIf(b, keep)
  {
    if a != [] {
      assert (a + b)[1..] == a[1..] + b;
      KeepIfAppend(a[1..], b, keep);
    } else {
      assert a + b == b;
    }
  }

  /** Two tests that agree on every element filter the same way. */
  lemma {:induction false} KeepIfAgree<T>(s: seq<T>, keep1: T -> bool, keep2: T -> bool)
    requires forall i :: 0 <= i < |s| ==> keep1(s[i]) == keep2(s[i])
    ensures KeepIf(s, keep1) == KeepIf(s, keep2)
  {
    if s != [] {
      KeepIfAgree(s[1..], keep1, keep2);
    }
  }

  /** Filtering a duplicate-free sequence leaves it duplicate-free. */
  lemma KeepIfNoDuplicates<T>(s: seq<T>, keep: T -> bool)
    requires NoDuplicates(s)
    ensures NoDuplicates(KeepIf(s, keep))
  {
    var r := KeepIf(s, keep);
    var idx := KeepIfPositions(s, keep);
    forall j, k | 0 <= j < k < |r|
      ensures r[j] != r[k]
    {
      assert idx[j] < idx[k];
    }
  }
}
