/** Totals of finite sequences of naturals. Every amount in the credit model (active credits,
    allocations on a package, credits of a job) is such a total, so the arithmetic is here once. */
module Sums {

  function Min(a: int, b: int): int {
    if a <= b then a else b
  }

  function Max(a: int, b: int): int {
    if a >= b then a else b
  }

  function Minus(a: int): int {
    -a
  }

  function Total(xs: seq<nat>): nat {
    if xs == [] then 0 else Total(xs[..|xs| - 1]) + xs[|xs| - 1]
  }

  lemma TotalAppend(xs: seq<nat>, x: nat)
    ensures Total(xs + [x]) == Total(xs) + x
  {
    assert (xs + [x])[..|xs|] == xs;
  }

  lemma {:induction false} TotalUpdate(xs: seq<nat>, i: nat, v: nat)
    requires i < |xs|
    ensures Total(xs[i := v]) == Total(xs) - xs[i] + v
    ensures xs[i] <= Total(xs)
  {
    var last := |xs| - 1;
    if i == last {
      assert xs[i := v][..last] == xs[..last];
    } else {
      TotalUpdate(xs[..last], i, v);
      assert xs[i := v][..last] == xs[..last][i := v];
    }
  }

  lemma {:induction false} TotalAdd(xs: seq<nat>, ys: seq<nat>, zs: seq<nat>)
    requires |xs| == |ys| == |zs|
    requires forall i :: 0 <= i < |xs| ==> zs[i] == xs[i] + ys[i]
    ensures Total(zs) == Total(xs) + Total(ys)
  {
    if xs != [] {
      var last := |xs| - 1;
      TotalAdd(xs[..last], ys[..last], zs[..last]);
    }
  }

  lemma {:induction false} TotalAtMost(xs: seq<nat>, ys: seq<nat>)
    requires |xs| == |ys|
    requires forall i :: 0 <= i < |xs| ==> xs[i] <= ys[i]
    ensures Total(xs) <= Total(ys)
  {
    if xs != [] {
      var last := |xs| - 1;
      TotalAtMost(xs[..last], ys[..last]);
    }
  }

  lemma {:induction false} TotalZero(xs: seq<nat>)
    ensures Total(xs) == 0 <==> forall i :: 0 <= i < |xs| ==> xs[i] == 0
  {
    if xs != [] {
      var last := |xs| - 1;
      TotalZero(xs[..last]);
      assert forall i :: 0 <= i < last ==> xs[..last][i] == xs[i];
    }
  }

  /** The entries of `xs` at the positions listed in `order`. */
  function Pick(xs: seq<nat>, order: seq<nat>): (ys: seq<nat>)
    requires forall k :: 0 <= k < |order| ==> order[k] < |xs|
    ensures |ys| == |order|
    ensures forall k :: 0 <= k < |order| ==> ys[k] == xs[order[k]]
  {
    seq(|order|, k requires 0 <= k < |order| => xs[order[k]])
  }

  /** Distinct positions that include every non-zero entry pick the whole total. */
  lemma {:induction false} PickCovers(xs: seq<nat>, order: seq<nat>)
    requires forall k :: 0 <= k < |order| ==> order[k] < |xs|
    requires forall k, l :: 0 <= k < l < |order| ==> order[k] != order[l]
    requires forall i :: 0 <= i < |xs| && xs[i] > 0 ==> i in order
    ensures Total(Pick(xs, order)) == Total(xs)
    decreases |order|
  {
    if order == [] {
      TotalZero(xs);
    } else {
      var n := |order| - 1;
      var i := order[n];
      TotalUpdate(xs, i, 0);
      forall k | 0 <= k < |xs| && xs[i := 0][k] > 0 ensures k in order[..n] {
        assert k in order && k != i;
      }
      PickCovers(xs[i := 0], order[..n]);
      assert Pick(xs, order)[..n] == Pick(xs[i := 0], order[..n]);
    }
  }
}
