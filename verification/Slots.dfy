/** Arithmetic of ring indices: which counters share the slot `k % n`. */
module Slots {
  /** A multiple of n that is not zero is at least n away from zero. */
  lemma MultipleGap(n: int, d: int)
    requires 0 < n
    ensures 1 <= d ==> n <= n * d
    ensures d <= -1 ==> n * d <= -n
  {
    assert n * d == n + n * (d - 1);
    assert n * d == -n + n * (d + 1);
  }

  /** Quotient and remainder are determined by k == n * q + r with 0 <= r < n. */
  lemma ModUnique(k: int, n: nat, q: int, r: nat)
    requires 0 < n && r < n && k == n * q + r
    ensures k / n == q && k % n == r
  {
    assert k == n * (k / n) + k % n;
    assert n * (k / n - q) == r - k % n;
    MultipleGap(n, k / n - q);
  }

  lemma DivPositive(k: nat, n: nat)
    requires 0 < n <= k
    ensures 0 < k / n
  {
    assert k == n * (k / n) + k % n;
  }

  /** Counters below q * m make fewer than m whole laps of q. */
  lemma QuotientBelow(w: nat, q: nat, m: nat)
    requires 0 < q && w < q * m
    ensures 0 <= w / q < m
  {
    assert q * (w / q - m) == w - w % q - q * m;
    MultipleGap(q, w / q - m);
    MultipleGap(q, w / q);
  }

  /** A counter and the counter one lap later share their slot. */
  lemma NextLap(k: nat, n: nat)
    requires 0 < n
    ensures (k + n) % n == k % n
  {
    assert k + n == n * (k / n + 1) + k % n;
    ModUnique(k + n, n, k / n + 1, k % n);
  }

  /** Counters less than a lap apart use different slots. */
  lemma WithinLap(j: nat, k: nat, n: nat)
    requires 0 < n && j < k < j + n
    ensures j % n != k % n
  {
    if j % n == k % n {
      assert k - j == n * (k / n - j / n);
      MultipleGap(n, k / n - j / n);
    }
  }

  /** Two different counters that share a slot are at least a whole lap apart. */
  lemma LapApart(j: nat, k: nat, n: nat)
    requires 0 < n && j < k && j % n == k % n
    ensures n <= k - j && (k - n) % n == k % n
  {
    if k < j + n {
      WithinLap(j, k, n);
    }
    NextLap(k - n, n);
  }
}
