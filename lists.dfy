/**
 * The array operations the front-end reducers and handlers use:
 * `filter`, `findIndex`, and an indexed write after `findIndex`.
 */
module Lists {

  /**
   * `r` is `s` with some elements dropped and the rest kept in order.
   * Defined by the two choices for the last element of `s`.
   */
  predicate IsSubsequence<T(==)>(r: seq<T>, s: seq<T>)
    decreases |s|
  {
    if r == [] then true
    else if s == [] then false
    else (r[|r| - 1] == s[|s| - 1] && IsSubsequence(r[..|r| - 1], s[..|s| - 1]))
         || IsSubsequence(r, s[..|s| - 1])
  }

  /** `Array.prototype.filter`: the elements satisfying `keep`, in their original order. */
  function Filter<T(==)>(s: seq<T>, keep: T -> bool): (r: seq<T>)
    ensures |r| <= |s|
    ensures forall i :: 0 <= i < |r| ==> r[i] in s && keep(r[i])
    ensures forall i :: 0 <= i < |s| && keep(s[i]) ==> s[i] in r
    ensures IsSubsequence(r, s)
  {
    if s == [] then []
    else
      var rest := Filter(s[..|s| - 1], keep);
      var last := s[|s| - 1];
      assert s == s[..|s| - 1] + [last];
      if keep(last) then
        assert (rest + [last])[..|rest|] == rest;
        rest + [last]
      else rest
  }

  /** A filter every element passes changes nothing. */
  lemma {:induction false} FilterAll<T>(s: seq<T>, keep: T -> bool)
    requires forall i :: 0 <= i < |s| ==> keep(s[i])
    ensures Filter(s, keep) == s
  {
    if s != [] {
      FilterAll(s[..|s| - 1], keep);
    }
  }

  /** Filtering by a stronger condition keeps no more elements. */
  lemma {:induction false} FilterStronger<T>(s: seq<T>, p: T -> bool, q: T -> bool)
    requires forall x :: p(x) ==> q(x)
    ensures |Filter(s, p)| <= |Filter(s, q)|
  {
    if s != [] {
      FilterStronger(s[..|s| - 1], p, q);
    }
  }

  /** `Array.prototype.findIndex`: the first position whose element matches, or -1. */
  function FirstIndex<T>(s: seq<T>, matches: T -> bool): (r: int)
    ensures -1 <= r < |s|
    ensures r == -1 ==> forall i :: 0 <= i < |s| ==> !matches(s[i])
    ensures 0 <= r ==> matches(s[r]) && forall i :: 0 <= i < r ==> !matches(s[i])
  {
    if s == [] then -1
    else if matches(s[0]) then 0
    else
      var k := FirstIndex(s[1..], matches);
      if k == -1 then -1 else k + 1
  }

  /** The linear search behind `findIndex`, as the reducers run it. */
  method FindIndex<T>(s: seq<T>, matches: T -> bool) returns (index: int)
    ensures index == FirstIndex(s, matches)
  {
    index := 0;
    while index < |s| && !matches(s[index])
      invariant 0 <= index <= |s|
      invariant forall i :: 0 <= i < index ==> !matches(s[i])
    {
      index := index + 1;
    }
    if index == |s| {
      index := -1;
    }
  }

  /** `const i = s.findIndex(matches); if (i !== -1) s[i] = x;` as a value. */
  function ReplaceFirst<T>(s: seq<T>, matches: T -> bool, x: T): seq<T>
  {
    var i := FirstIndex(s, matches);
    if i == -1 then s else s[i := x]
  }

  /** No two elements of `s` share a key. */
  predicate UniqueBy<T, K(==)>(s: seq<T>, key: T -> K)
  {
    forall i, j :: 0 <= i < j < |s| ==> key(s[i]) != key(s[j])
  }

  /** Every element of a subsequence occurs in the list. */
  lemma {:induction false} ElementOfSubsequence<T>(r: seq<T>, s: seq<T>, i: int)
    requires IsSubsequence(r, s) && 0 <= i < |r|
    ensures exists k :: 0 <= k < |s| && s[k] == r[i]
    decreases |s|
  {
    var n := |s| - 1;
    if r[|r| - 1] == s[n] && IsSubsequence(r[..|r| - 1], s[..n]) {
      if i == |r| - 1 {
        assert s[n] == r[i];
      } else {
        ElementOfSubsequence(r[..|r| - 1], s[..n], i);
        var k :| 0 <= k < n && s[..n][k] == r[..|r| - 1][i];
        assert s[k] == r[i];
      }
    } else {
      ElementOfSubsequence(r, s[..n], i);
      var k :| 0 <= k < n && s[..n][k] == r[i];
      assert s[k] == r[i];
    }
  }

  /** Dropping elements cannot make two keys equal. */
  lemma {:induction false} SubsequenceUniqueBy<T, K>(r: seq<T>, s: seq<T>, key: T -> K)
    requires UniqueBy(s, key) && IsSubsequence(r, s)
    ensures UniqueBy(r, key)
    decreases |s|
  {
    if r != [] {
      var n := |s| - 1;
      assert UniqueBy(s[..n], key);
      if r[|r| - 1] == s[n] && IsSubsequence(r[..|r| - 1], s[..n]) {
        var front := r[..|r| - 1];
        SubsequenceUniqueBy(front, s[..n], key);
        forall i, j | 0 <= i < j < |r|
          ensures key(r[i]) != key(r[j])
        {
          if j == |r| - 1 {
            ElementOfSubsequence(front, s[..n], i);
            var k :| 0 <= k < n && s[..n][k] == front[i];
            assert key(s[k]) != key(s[n]);
          } else {
            assert r[i] == front[i] && r[j] == front[j];
          }
        }
      } else {
        SubsequenceUniqueBy(r, s[..n], key);
      }
    }
  }

  /** A filtered list of unique keys has unique keys. */
  lemma FilterUniqueBy<T, K>(s: seq<T>, keep: T -> bool, key: T -> K)
    requires UniqueBy(s, key)
    ensures UniqueBy(Filter(s, keep), key)
  {
    SubsequenceUniqueBy(Filter(s, keep), s, key);
  }

  /** An element is in the filtered list exactly when it is in the list and passes the test. */
  lemma FilterExactly<T>(s: seq<T>, keep: T -> bool)
    ensures forall x :: x in Filter(s, keep) <==> x in s && keep(x)
  {
    var r := Filter(s, keep);
    forall x | x in r
      ensures x in s && keep(x)
    {
      var i :| 0 <= i < |r| && r[i] == x;
    }
    forall x | x in s && keep(x)
      ensures x in r
    {
      var i :| 0 <= i < |s| && s[i] == x;
    }
  }
}
