/** Sums over sequences, for counting threads and measuring runs. */
module Sums {
  function Sum(xs: seq<int>): int
  {
    if xs == [] then 0 else Sum(xs[..|xs| - 1]) + xs[|xs| - 1]
  }

  lemma SumNext(xs: seq<int>, j: nat)
    requires j < |xs|
    ensures Sum(xs[..j + 1]) == Sum(xs[..j]) + xs[j]
  {
    assert xs[..j + 1][..j] == xs[..j];
  }

  lemma {:induction false} SumUpdate(xs: seq<int>, i: nat, v: int)
    requires i < |xs|
    ensures Sum(xs[i := v]) == Sum(xs) - xs[i] + v
  {
    var last := |xs| - 1;
    if i == last {
      assert xs[i := v][..last] == xs[..last];
    } else {
      assert xs[i := v][..last] == xs[..last][i := v];
      SumUpdate(xs[..last], i, v);
    }
  }

  lemma {:induction false} SumBounds(xs: seq<int>, low: int, high: int)
    requires forall i :: 0 <= i < |xs| ==> low <= xs[i] <= high
    ensures low * |xs| <= Sum(xs) <= high * |xs|
    ensures Sum(xs) == high * |xs| ==> forall i :: 0 <= i < |xs| ==> xs[i] == high
  {
    if xs != [] {
      var n := |xs| - 1;
      SumBounds(xs[..n], low, high);
      assert low * |xs| == low * n + low && high * |xs| == high * n + high;
      if Sum(xs) == high * |xs| {
        assert forall i :: 0 <= i < n ==> xs[..n][i] == xs[i];
      }
    }
  }

  lemma {:induction false} SumNotNegative(xs: seq<int>)
    requires forall i :: 0 <= i < |xs| ==> xs[i] >= 0
    ensures Sum(xs) >= 0
  {
    if xs != [] {
      SumNotNegative(xs[..|xs| - 1]);
    }
  }

  lemma HistogramGrows(h: seq<nat>, i: nat)
    requires i < |h|
    ensures Sum(h[i := h[i] + 1]) == Sum(h) + 1
  {
    SumUpdate(h, i, h[i] + 1);
  }
}
