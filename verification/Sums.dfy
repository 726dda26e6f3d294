/** Sums over threads. */
module Sums {
  function Sum(xs: seq<int>): int {
    if xs == [] then 0 else xs[0] + Sum(xs[1..])
  }

  lemma {:induction false} SumUpdate(xs: seq<int>, i: nat, x: int)
    requires i < |xs|
    ensures Sum(xs[i := x]) == Sum(xs) - xs[i] + x
  {
    if i == 0 {
      assert xs[i := x][1..] == xs[1..];
    } else {
      assert xs[i := x][1..] == xs[1..][i - 1 := x];
      SumUpdate(xs[1..], i - 1, x);
    }
  }

  /** A sum of |xs| terms of at most m is at most |xs| * m, and reaches it only if every term does. */
  lemma {:induction false} SumAtMost(xs: seq<int>, m: int)
    requires forall i :: 0 <= i < |xs| ==> xs[i] <= m
    ensures Sum(xs) <= |xs| * m
    ensures Sum(xs) == |xs| * m ==> forall i :: 0 <= i < |xs| ==> xs[i] == m
  {
    if xs != [] {
      SumAtMost(xs[1..], m);
      assert |xs| * m == m + (|xs| - 1) * m;
      assert forall i :: 1 <= i < |xs| ==> xs[i] == xs[1..][i - 1];
    }
  }

  lemma {:induction false} SumConstant(xs: seq<int>, m: int)
    requires forall i :: 0 <= i < |xs| ==> xs[i] == m
    ensures Sum(xs) == |xs| * m
  {
    if xs != [] {
      SumConstant(xs[1..], m);
      assert |xs| * m == m + (|xs| - 1) * m;
    }
  }

  lemma {:induction false} SumAtLeastZero(xs: seq<int>)
    requires forall i :: 0 <= i < |xs| ==> 0 <= xs[i]
    ensures 0 <= Sum(xs)
  {
    if xs != [] {
      SumAtLeastZero(xs[1..]);
    }
  }
}
