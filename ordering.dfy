/** `ORDER BY created_at DESC` and `AVG(rating)` as the read routes use them.

    The database returns rows with equal timestamps in an unspecified order,
    so the specification of the ordering is only "non-increasing key and the
    same rows"; `SortDesc` is one function meeting it. `AVG` over no rows is
    SQL NULL, which the routes turn into a sentinel; over rows it is the
    arithmetic mean (the two-decimal formatting is not modelled). */
module Ordering {

  ghost predicate Descending<T>(s: seq<T>, key: T -> int)
  {
    forall i, j :: 0 <= i < j < |s| ==> key(s[i]) >= key(s[j])
  }

  function InsertDesc<T>(x: T, s: seq<T>, key: T -> int): (r: seq<T>)
    requires Descending(s, key)
    ensures Descending(r, key)
    ensures multiset(r) == multiset(s) + multiset{x}
    ensures |r| == |s| + 1
    ensures r[0] == x || (s != [] && r[0] == s[0])
  {
    if s == [] || key(x) >= key(s[0]) then [x] + s
    else
      var rest := InsertDesc(x, s[1..], key);
      assert s == [s[0]] + s[1..];
      assert key(rest[0]) <= key(s[0]);
      [s[0]] + rest
  }

  /** The rows in non-increasing order of `key`: the same rows, nothing added or lost. */
  function SortDesc<T>(s: seq<T>, key: T -> int): (r: seq<T>)
    ensures Descending(r, key)
    ensures multiset(r) == multiset(s)
    ensures |r| == |s|
  {
    if s == [] then []
    else
      assert s == [s[0]] + s[1..];
      InsertDesc(s[0], SortDesc(s[1..], key), key)
  }

  function Sum(xs: seq<real>): real
  {
    if xs == [] then 0.0 else xs[0] + Sum(xs[1..])
  }

  /** The value of `AVG(rating)`: NULL over no rows, else the mean. */
  datatype Average = NotAvailable | Mean(value: real)

  function AverageOf(xs: seq<real>): (a: Average)
    ensures a.NotAvailable? <==> xs == []
  {
    if xs == [] then NotAvailable else Mean(Sum(xs) / (|xs| as real))
  }

  lemma {:induction false} SumBounds(xs: seq<real>, lo: real, hi: real)
    requires forall k :: 0 <= k < |xs| ==> lo <= xs[k] <= hi
    ensures (|xs| as real) * lo <= Sum(xs) <= (|xs| as real) * hi
  {
    if xs != [] {
      SumBounds(xs[1..], lo, hi);
    }
  }

  /** The mean of values in [lo, hi] lies in [lo, hi]: an average of 1-to-5
      ratings is itself between 1 and 5. */
  lemma MeanWithinBounds(xs: seq<real>, lo: real, hi: real)
    requires forall k :: 0 <= k < |xs| ==> lo <= xs[k] <= hi
    ensures AverageOf(xs).Mean? ==> lo <= AverageOf(xs).value <= hi
  {
    if xs != [] {
      SumBounds(xs, lo, hi);
      var n := |xs| as real;
      assert n > 0.0;
      assert Sum(xs) / n >= lo by {
        assert Sum(xs) >= n * lo;
      }
      assert Sum(xs) / n <= hi by {
        assert Sum(xs) <= n * hi;
      }
    }
  }
}
