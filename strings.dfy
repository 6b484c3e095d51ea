/**
 * The two string tests the handlers use: `startsWith` (route gating) and
 * the store's `contains` filter (product search). Strings are sequences of
 * characters compared exactly, with no case folding.
 */
module Strings {

  /** `s.startsWith(p)`. */
  predicate HasPrefix(s: string, p: string) {
    |p| <= |s| && s[..|p|] == p
  }

  /** `sub` occurs somewhere in `s`, tried position by position. */
  predicate Contains(s: string, sub: string)
    decreases |s|
  {
    HasPrefix(s, sub) || (|s| > 0 && Contains(s[1..], sub))
  }

  /** `Contains` agrees with the positional definition of a substring. */
  lemma {:induction false} ContainsAt(s: string, sub: string)
    ensures Contains(s, sub) <==> exists i :: 0 <= i <= |s| && HasPrefix(s[i..], sub)
    decreases |s|
  {
    if |s| == 0 {
      assert s[0..] == s;
    } else {
      ContainsAt(s[1..], sub);
      if Contains(s, sub) {
        if HasPrefix(s, sub) {
          assert s[0..] == s;
        } else {
          var i :| 0 <= i <= |s| - 1 && HasPrefix(s[1..][i..], sub);
          assert s[1..][i..] == s[i + 1..];
        }
      } else {
        forall i | 0 <= i <= |s| ensures !HasPrefix(s[i..], sub) {
          if i == 0 {
            assert s[0..] == s;
          } else {
            assert s[1..][i - 1..] == s[i..];
          }
        }
      }
    }
  }

  /** Every string that begins with `p` passes the prefix test for `p`. */
  lemma PrefixOfConcat(p: string, t: string)
    ensures HasPrefix(p + t, p)
  {
    assert (p + t)[..|p|] == p;
  }
}
