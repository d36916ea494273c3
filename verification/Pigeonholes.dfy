/** Counting by distinct members. */
module Pigeonholes {

  /** Distinct members of a list are no more than the list has. */
  lemma {:induction false} Pigeonhole<T>(xs: seq<T>, ys: seq<T>)
    requires forall i, j :: 0 <= i < j < |xs| ==> xs[i] != xs[j]
    requires forall i :: 0 <= i < |xs| ==> xs[i] in ys
    ensures |xs| <= |ys|
    ensures |xs| == |ys| ==> forall y :: y in ys ==> y in xs
  {
    if xs != [] {
      var k :| 0 <= k < |ys| && ys[k] == xs[0];
      var rest := ys[..k] + ys[k + 1..];
      forall i | 0 <= i < |xs[1..]| ensures xs[1..][i] in rest {
        assert xs[1..][i] == xs[i + 1] && xs[0] != xs[i + 1];
        var m :| 0 <= m < |ys| && ys[m] == xs[i + 1];
        assert m < k ==> ys[m] == rest[m];
        assert m > k ==> ys[m] == rest[m - 1];
      }
      Pigeonhole(xs[1..], rest);
      if |xs| == |ys| {
        forall y | y in ys ensures y in xs {
          assert y == ys[k] || y in rest;
          assert xs == [xs[0]] + xs[1..];
        }
      }
    }
  }
}
