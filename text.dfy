/** The two string primitives the query filter relies on: `toLowerCase`
    (restricted to ASCII letters) and `includes` (substring search). */
module Text {

  predicate IsUpper(c: char) {
    'A' <= c <= 'Z'
  }

  /** Lower-case of one character: ASCII capitals move down by 32, every
      other character is kept. */
  function LowerChar(c: char): (r: char)
    ensures !IsUpper(r)
    ensures !IsUpper(c) ==> r == c
    ensures IsUpper(c) ==> 'a' <= r <= 'z' && r as int - c as int == 'a' as int - 'A' as int
  {
    if IsUpper(c) then (c as int + ('a' as int - 'A' as int)) as char else c
  }

  /** `s.toLowerCase()` over ASCII: the same length, each character lowered. */
  function Lower(s: string): (r: string)
    ensures |r| == |s|
    ensures forall i :: 0 <= i < |s| ==> r[i] == LowerChar(s[i])
  {
    if s == [] then [] else [LowerChar(s[0])] + Lower(s[1..])
  }

  /** Lowering twice is lowering once. */
  lemma LowerIdempotent(s: string)
    ensures Lower(Lower(s)) == Lower(s)
  {
  }

  /** The reference meaning of "`sub` occurs in `s` starting at `i`". */
  predicate OccursAt(s: string, sub: string, i: nat) {
    i + |sub| <= |s| && s[i..i + |sub|] == sub
  }

  /** `s.includes(sub)`: search for `sub` at every start position in turn. */
  function Contains(s: string, sub: string): (r: bool)
    ensures sub == [] ==> r
    ensures r ==> |sub| <= |s|
    decreases |s|
  {
    if |sub| > |s| then false
    else if s[..|sub|] == sub then true
    else |s| > 0 && Contains(s[1..], sub)
  }

  /** The search finds `sub` exactly when it occurs at some position. */
  lemma {:induction false} ContainsIffOccurs(s: string, sub: string)
    ensures Contains(s, sub) <==> exists i: nat :: OccursAt(s, sub, i)
  {
    if |sub| > |s| {
      forall i: nat ensures !OccursAt(s, sub, i) { }
    } else if s[..|sub|] == sub {
      assert OccursAt(s, sub, 0);
    } else {
      assert |s| > 0;
      var t := s[1..];
      ContainsIffOccurs(t, sub);
      forall i: nat | i + |sub| <= |t|
        ensures OccursAt(t, sub, i) <==> OccursAt(s, sub, i + 1)
      {
        assert t[i..i + |sub|] == s[i + 1..i + 1 + |sub|];
      }
      if Contains(t, sub) {
        var i: nat :| OccursAt(t, sub, i);
        assert OccursAt(s, sub, i + 1);
      } else {
        forall i: nat ensures !OccursAt(s, sub, i) {
          if i > 0 {
            assert !OccursAt(t, sub, i - 1);
          }
        }
      }
    }
  }
}
