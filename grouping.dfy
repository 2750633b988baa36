/**
 * The stream reductions of the reports: `map(..).reduce(ZERO, add)`,
 * `collect(groupingBy(key, counting()))` and
 * `collect(groupingBy(key, reducing(ZERO, val, add)))`.
 * A grouping result is a list of (key, sum) pairs with distinct keys,
 * in order of first appearance.
 */
module Grouping {

  /** Σ val(x) over `xs`. */
  function SumOf<T>(xs: seq<T>, val: T -> int): int
  {
    if xs == [] then 0 else SumOf(xs[..|xs| - 1], val) + val(xs[|xs| - 1])
  }

  /** Σ val(x) over the elements of `xs` whose key is `k`. */
  function SumWhere<T, K(==)>(xs: seq<T>, key: T -> K, val: T -> int, k: K): int
  {
    if xs == [] then 0
    else SumWhere(xs[..|xs| - 1], key, val, k)
         + (if key(xs[|xs| - 1]) == k then val(xs[|xs| - 1]) else 0)
  }

  predicate Distinct<K(==)>(ks: seq<K>)
  {
    forall i, j :: 0 <= i < j < |ks| ==> ks[i] != ks[j]
  }

  /** The keys occurring in `xs`, each once, in order of first appearance. */
  function KeysOf<T, K(==)>(xs: seq<T>, key: T -> K): (ks: seq<K>)
    ensures Distinct(ks)
    ensures forall i :: 0 <= i < |xs| ==> key(xs[i]) in ks
    ensures forall j :: 0 <= j < |ks| ==> exists i :: 0 <= i < |xs| && key(xs[i]) == ks[j]
  {
    if xs == [] then []
    else
      var ks := KeysOf(xs[..|xs| - 1], key);
      var k := key(xs[|xs| - 1]);
      if k in ks then ks else ks + [k]
  }

  /** One (key, sum) pair per key of `ks`. */
  function Buckets<T, K(==)>(ks: seq<K>, xs: seq<T>, key: T -> K, val: T -> int): (ps: seq<(K, int)>)
    ensures |ps| == |ks|
    ensures forall j :: 0 <= j < |ks| ==> ps[j] == (ks[j], SumWhere(xs, key, val, ks[j]))
  {
    if ks == [] then []
    else Buckets(ks[..|ks| - 1], xs, key, val) + [(ks[|ks| - 1], SumWhere(xs, key, val, ks[|ks| - 1]))]
  }

  /** `groupingBy(key, summing(val))`. */
  function GroupBy<T, K(==)>(xs: seq<T>, key: T -> K, val: T -> int): seq<(K, int)>
  {
    Buckets(KeysOf(xs, key), xs, key, val)
  }

  /** Σ of the sums of a grouping. */
  function Total<K>(ps: seq<(K, int)>): int
  {
    if ps == [] then 0 else Total(ps[..|ps| - 1]) + ps[|ps| - 1].1
  }

  /** A key that occurs nowhere contributes nothing. */
  lemma {:induction false} SumWhereAbsent<T, K>(xs: seq<T>, key: T -> K, val: T -> int, k: K)
    requires forall i :: 0 <= i < |xs| ==> key(xs[i]) != k
    ensures SumWhere(xs, key, val, k) == 0
  {
    if xs != [] {
      SumWhereAbsent(xs[..|xs| - 1], key, val, k);
    }
  }

  /** Adding one element to the grouped list adds its value to exactly the bucket of its key. */
  lemma {:induction false} BucketsSnoc<T, K>(ks: seq<K>, ys: seq<T>, x: T, key: T -> K, val: T -> int)
    requires Distinct(ks)
    ensures Total(Buckets(ks, ys + [x], key, val))
         == Total(Buckets(ks, ys, key, val)) + (if key(x) in ks then val(x) else 0)
  {
    if ks != [] {
      var front := ks[..|ks| - 1];
      var k := ks[|ks| - 1];
      assert ks == front + [k];
      BucketsSnoc(front, ys, x, key, val);
      assert (ys + [x])[..|ys|] == ys;
      assert key(x) in ks <==> key(x) in front || key(x) == k;
      assert key(x) in front ==> key(x) != k;
    }
  }

  /** The buckets of a grouping add up to the ungrouped sum. */
  lemma {:induction false} GroupByTotal<T, K>(xs: seq<T>, key: T -> K, val: T -> int)
    ensures Total(GroupBy(xs, key, val)) == SumOf(xs, val)
  {
    if xs != [] {
      var ys := xs[..|xs| - 1];
      var x := xs[|xs| - 1];
      assert xs == ys + [x];
      GroupByTotal(ys, key, val);
      var ks := KeysOf(ys, key);
      BucketsSnoc(ks, ys, x, key, val);
      if key(x) !in ks {
        SumWhereAbsent(ys, key, val, key(x));
        assert KeysOf(xs, key) == ks + [key(x)];
      }
    }
  }

  /** A sum of the same value `c` over `xs` is `c` times its length (the `counting()` collector). */
  lemma {:induction false} SumOfConstant<T>(xs: seq<T>, val: T -> int, c: int)
    requires forall i :: 0 <= i < |xs| ==> val(xs[i]) == c
    ensures SumOf(xs, val) == c * |xs|
  {
    if xs != [] {
      SumOfConstant(xs[..|xs| - 1], val, c);
    }
  }

  /** Σ distributes over concatenation. */
  lemma {:induction false} SumOfAppend<T>(xs: seq<T>, ys: seq<T>, val: T -> int)
    ensures SumOf(xs + ys, val) == SumOf(xs, val) + SumOf(ys, val)
    decreases |ys|
  {
    if ys != [] {
      assert (xs + ys)[..|xs + ys| - 1] == xs + ys[..|ys| - 1];
      SumOfAppend(xs, ys[..|ys| - 1], val);
    } else {
      assert xs + ys == xs;
    }
  }

  /** Changing one element of `xs` changes Σ by exactly the change in that element's value. */
  lemma {:induction false} SumOfUpdate<T>(xs: seq<T>, k: int, y: T, val: T -> int)
    requires 0 <= k < |xs|
    ensures SumOf(xs[k := y], val) == SumOf(xs, val) - val(xs[k]) + val(y)
    decreases |xs|
  {
    var n := |xs| - 1;
    if k == n {
      assert xs[k := y][..n] == xs[..n];
    } else {
      assert xs[k := y][..n] == xs[..n][k := y];
      SumOfUpdate(xs[..n], k, y, val);
    }
  }
}
