/**
 * The two query shapes the handlers rely on: a `where` filter that keeps
 * the rows satisfying a predicate, and a stable sort by an integer key
 * (used both for `orderBy` and for the workload sort of the assignment).
 */
module Collections {

  /** The elements of `s` that satisfy `p`, in their original order. */
  function Filter<T(!new)>(s: seq<T>, p: T -> bool): (r: seq<T>)
    ensures |r| <= |s|
    ensures forall x :: multiset(r)[x] == if p(x) then multiset(s)[x] else 0
    ensures forall x :: x in r <==> x in s && p(x)
  {
    if s == [] then []
    else
      assert s == [s[0]] + s[1..];
      if p(s[0]) then [s[0]] + Filter(s[1..], p) else Filter(s[1..], p)
  }

  predicate SortedBy<T>(s: seq<T>, key: T -> int) {
    forall i, j :: 0 <= i < j < |s| ==> key(s[i]) <= key(s[j])
  }

  /** Inserts `x` before the first element whose key is not smaller, so an
      element inserted later precedes the equal-keyed ones already placed. */
  function Insert<T>(x: T, s: seq<T>, key: T -> int): (r: seq<T>)
    requires SortedBy(s, key)
    ensures |r| == |s| + 1
    ensures multiset(r) == multiset(s) + multiset{x}
    ensures SortedBy(r, key)
  {
    if s == [] || key(x) <= key(s[0]) then [x] + s
    else
      assert s == [s[0]] + s[1..];
      var rest := Insert(x, s[1..], key);
      assert forall y :: y in rest ==> key(s[0]) <= key(y) by {
        forall y | y in rest ensures key(s[0]) <= key(y) {
          assert y in multiset(rest);
          if y != x {
            assert y in multiset(s[1..]);
          }
        }
      }
      [s[0]] + rest
  }

  /** A stable sort in ascending key order: of two elements with the same
      key, the one earlier in `s` stays earlier. */
  function SortBy<T>(s: seq<T>, key: T -> int): (r: seq<T>)
    ensures |r| == |s|
    ensures multiset(r) == multiset(s)
    ensures SortedBy(r, key)
  {
    if s == [] then []
    else
      assert s == [s[0]] + s[1..];
      Insert(s[0], SortBy(s[1..], key), key)
  }

  /** `i` is the first position of a least key in `s`. */
  predicate IsFirstMin<T>(s: seq<T>, key: T -> int, i: int) {
    && 0 <= i < |s|
    && (forall j :: 0 <= j < |s| ==> key(s[i]) <= key(s[j]))
    && (forall j :: 0 <= j < i ==> key(s[i]) < key(s[j]))
  }

  /** Prepending `x` to `t` moves the first least key to `x` exactly when
      `x`'s key is at most the old least key. */
  lemma FirstMinCons<T>(x: T, t: seq<T>, key: T -> int, k: int)
    requires IsFirstMin(t, key, k)
    ensures key(x) <= key(t[k]) ==> IsFirstMin([x] + t, key, 0)
    ensures key(t[k]) < key(x) ==> IsFirstMin([x] + t, key, k + 1)
  {
    var s := [x] + t;
    forall j | 1 <= j < |s|
      ensures key(t[k]) <= key(s[j]) && (j < k + 1 ==> key(t[k]) < key(s[j]))
    {
      assert s[j] == t[j - 1];
    }
  }

  /** The head of the stable sort is the first element of least key. */
  lemma {:induction false} SortByHead<T>(s: seq<T>, key: T -> int)
    requires |s| > 0
    ensures exists i :: IsFirstMin(s, key, i) && SortBy(s, key)[0] == s[i]
  {
    var t := s[1..];
    assert s == [s[0]] + t;
    var sorted := SortBy(t, key);
    assert SortBy(s, key) == Insert(s[0], sorted, key);
    if t == [] {
      assert SortBy(s, key)[0] == s[0];
      assert IsFirstMin(s, key, 0);
    } else {
      SortByHead(t, key);
      var k :| IsFirstMin(t, key, k) && sorted[0] == t[k];
      FirstMinCons(s[0], t, key, k);
      if key(s[0]) <= key(sorted[0]) {
        assert SortBy(s, key)[0] == s[0];
      } else {
        assert SortBy(s, key)[0] == s[k + 1];
      }
    }
  }
}
