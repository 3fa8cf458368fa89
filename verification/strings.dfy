/** The two string operations of Go's `strings` package that the SDK relies on. */
module Strings {

  /**
   * `strings.Contains(s, sub)`: `sub` occurs somewhere in `s`.
   * (`strings.HasPrefix(s, p)` is Dafny's prefix relation `p <= s`.)
   */
  predicate Contains(s: string, sub: string): (r: bool)
    ensures sub <= s ==> r
    ensures r ==> |sub| <= |s|
    decreases |s|
  {
    sub <= s || (s != [] && Contains(s[1..], sub))
  }

  /** `sub` sits in `s` starting at offset `i`. */
  predicate OccursAt(s: string, sub: string, i: nat) {
    i + |sub| <= |s| && s[i..i + |sub|] == sub
  }

  /** Contains is exactly "sub is a contiguous slice of s at some offset". */
  lemma {:induction false} ContainsIffOccurs(s: string, sub: string)
    ensures Contains(s, sub) <==> exists i: nat :: OccursAt(s, sub, i)
    decreases |s|
  {
    if Contains(s, sub) {
      if sub <= s {
        assert OccursAt(s, sub, 0);
      } else {
        ContainsIffOccurs(s[1..], sub);
        var j: nat :| OccursAt(s[1..], sub, j);
        assert s[j + 1..j + 1 + |sub|] == s[1..][j..j + |sub|];
        assert OccursAt(s, sub, j + 1);
      }
    }
    if exists i: nat :: OccursAt(s, sub, i) {
      var i: nat :| OccursAt(s, sub, i);
      if i == 0 {
        assert sub <= s;
      } else {
        var tail := s[1..];
        assert |tail[i - 1..i - 1 + |sub|]| == |sub|;
        forall k | 0 <= k < |sub|
          ensures tail[i - 1..i - 1 + |sub|][k] == sub[k]
        {
          assert tail[i - 1..i - 1 + |sub|][k] == s[i + k] == s[i..i + |sub|][k];
        }
        assert tail[i - 1..i - 1 + |sub|] == sub;
        assert OccursAt(tail, sub, i - 1);
        ContainsIffOccurs(s[1..], sub);
      }
    }
  }
}
