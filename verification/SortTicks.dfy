/** SortTicks of stlqueue.cpp, an exchange sort in place, and the order statistics that ComputeSummary
    reads from its result. */
module SortTicks {
  /** `long unsigned int`. */
  type Ticks = x: nat | x < WORD

  const WORD := 0x1_0000_0000_0000_0000

  predicate Sorted(s: seq<Ticks>) {
    forall i, j :: 0 <= i < j < |s| ==> s[i] <= s[j]
  }

  /** How many samples are less than v. */
  function Below(s: seq<Ticks>, v: Ticks): nat {
    if s == [] then 0 else (if s[0] < v then 1 else 0) + Below(s[1..], v)
  }

  /** How many samples are greater than v. */
  function Above(s: seq<Ticks>, v: Ticks): nat {
    if s == [] then 0 else (if v < s[0] then 1 else 0) + Above(s[1..], v)
  }

  /** v has rank p among the samples: at most p of them are less, and fewer than |s| - p are greater. */
  predicate HasRank(s: seq<Ticks>, p: nat, v: Ticks) {
    Below(s, v) <= p && Above(s, v) < |s| - p
  }

  lemma {:induction false} CountsAppend(s: seq<Ticks>, t: seq<Ticks>, v: Ticks)
    ensures Below(s + t, v) == Below(s, v) + Below(t, v) && Above(s + t, v) == Above(s, v) + Above(t, v)
  {
    if s == [] {
      assert s + t == t;
    } else {
      assert (s + t)[1..] == s[1..] + t;
      CountsAppend(s[1..], t, v);
    }
  }

  function Without(t: seq<Ticks>, j: nat): seq<Ticks>
    requires j < |t|
  {
    t[..j] + t[j + 1..]
  }

  lemma Removed(t: seq<Ticks>, j: nat)
    requires j < |t|
    ensures multiset(Without(t, j)) == multiset(t) - multiset{t[j]}
  {
    assert t == t[..j] + [t[j]] + t[j + 1..];
  }

  lemma RemovedCounts(t: seq<Ticks>, j: nat, v: Ticks)
    requires j < |t|
    ensures Below(t, v) == Below(Without(t, j), v) + if t[j] < v then 1 else 0
    ensures Above(t, v) == Above(Without(t, j), v) + if v < t[j] then 1 else 0
  {
    CountsAppend(t[..j], t[j + 1..], v);
    CountsAppend(t[..j], t[j..], v);
    assert t == t[..j] + t[j..] && t[j..][1..] == t[j + 1..];
  }

  /** The counts depend on which samples there are, not on their order. */
  lemma {:induction false} CountsOfPermutation(s: seq<Ticks>, t: seq<Ticks>, v: Ticks)
    requires multiset(s) == multiset(t)
    ensures |s| == |t| && Below(s, v) == Below(t, v) && Above(s, v) == Above(t, v)
    decreases |s|
  {
    assert |multiset(s)| == |s| && |multiset(t)| == |t|;
    if s != [] {
      assert s[0] in multiset(t);
      var j :| 0 <= j < |t| && t[j] == s[0];
      Removed(s, 0);
      Removed(t, j);
      CountsOfPermutation(Without(s, 0), Without(t, j), v);
      RemovedCounts(s, 0, v);
      RemovedCounts(t, j, v);
    }
  }

  lemma {:induction false} CountsBound(s: seq<Ticks>, v: Ticks, w: Ticks)
    ensures Below(s, v) + Above(s, v) <= |s|
    ensures v < w ==> |s| - Above(s, v) <= Below(s, w)
    ensures v <= w ==> Below(s, v) <= Below(s, w) && Above(s, w) <= Above(s, v)
  {
    if s != [] {
      CountsBound(s[1..], v, w);
    }
  }

  lemma {:induction false} NoneBelow(s: seq<Ticks>, v: Ticks)
    ensures Below(s, v) == 0 <==> forall i :: 0 <= i < |s| ==> v <= s[i]
    ensures Above(s, v) == 0 <==> forall i :: 0 <= i < |s| ==> s[i] <= v
    ensures Below(s, v) + Above(s, v) < |s| <==> v in s
  {
    if s != [] {
      NoneBelow(s[1..], v);
      CountsBound(s[1..], v, v);
      assert forall i :: 0 < i < |s| ==> s[i] == s[1..][i - 1];
    }
  }

  /** At most one value has rank p. */
  lemma RankUnique(s: seq<Ticks>, p: nat, v: Ticks, w: Ticks)
    requires HasRank(s, p, v) && HasRank(s, p, w)
    ensures v == w
  {
    CountsBound(s, v, w);
    CountsBound(s, w, v);
  }

  lemma SortedBelow(t: seq<Ticks>, p: nat)
    requires Sorted(t) && p < |t|
    ensures Below(t, t[p]) <= p
  {
    assert t == t[..p] + t[p..];
    CountsAppend(t[..p], t[p..], t[p]);
    NoneBelow(t[p..], t[p]);
    CountsBound(t[..p], t[p], t[p]);
  }

  lemma SortedAbove(t: seq<Ticks>, p: nat)
    requires Sorted(t) && p < |t|
    ensures Above(t, t[p]) < |t| - p
  {
    assert t == t[..p + 1] + t[p + 1..];
    CountsAppend(t[..p + 1], t[p + 1..], t[p]);
    NoneBelow(t[..p + 1], t[p]);
    CountsBound(t[p + 1..], t[p], t[p]);
  }

  /** Sorting puts the sample of rank p at position p. */
  lemma SortedByRank(s: seq<Ticks>, t: seq<Ticks>, p: nat)
    requires Sorted(t) && multiset(s) == multiset(t) && p < |t|
    ensures |s| == |t| && HasRank(s, p, t[p])
  {
    CountsOfPermutation(s, t, t[p]);
    SortedBelow(t, p);
    SortedAbove(t, p);
  }

  /** Ranks 0 and |s| - 1 are the minimum and the maximum. */
  lemma Extremes(s: seq<Ticks>, v: Ticks)
    requires s != []
    ensures HasRank(s, 0, v) <==> v in s && forall i :: 0 <= i < |s| ==> v <= s[i]
    ensures HasRank(s, |s| - 1, v) <==> v in s && forall i :: 0 <= i < |s| ==> s[i] <= v
  {
    NoneBelow(s, v);
    CountsBound(s, v, v);
  }

  /** Any value between the two middle ranks has at most half of the samples on either side. */
  lemma MiddleHalves(s: seq<Ticks>, lo: Ticks, hi: Ticks, v: Ticks)
    requires 0 < |s| && lo <= v <= hi && HasRank(s, (|s| - 1) / 2, lo) && HasRank(s, |s| / 2, hi)
    ensures 2 * Below(s, v) <= |s| && 2 * Above(s, v) <= |s|
  {
    CountsBound(s, v, hi);
    CountsBound(s, lo, v);
  }

  /** The state after the exchanges at positions up to i: sorted before i, nothing smaller from i on. */
  ghost predicate Placed(s: seq<Ticks>, i: nat) {
    forall k, m :: 0 <= k < i && k < m < |s| ==> s[k] <= s[m]
  }

  /** Position i holds the least of the samples at i .. j - 1. */
  ghost predicate LeastUpTo(s: seq<Ticks>, i: nat, j: nat)
    requires i < j <= |s|
  {
    forall m :: i < m < j ==> s[i] <= s[m]
  }

  method Sort(a: array<Ticks>)
    modifies a
    ensures Sorted(a[..]) && multiset(a[..]) == multiset(old(a[..]))
  {
    ghost var s0 := a[..];
    for i := 0 to a.Length
      invariant Placed(a[..], i) && multiset(a[..]) == multiset(s0)
    {
      for j := i + 1 to a.Length
        invariant Placed(a[..], i) && LeastUpTo(a[..], i, j) && multiset(a[..]) == multiset(s0)
      {
        ghost var s := a[..];
        if a[i] > a[j] {
          a[i], a[j] := a[j], a[i];
          Exchanged(s, i, j, a[..]);
        }
        assert LeastUpTo(a[..], i, j + 1);
      }
      assert Placed(a[..], i + 1);
    }
    assert Sorted(a[..]);
  }

  lemma Exchanged(s: seq<Ticks>, i: nat, j: nat, t: seq<Ticks>)
    requires i < j < |s| && s[j] < s[i] && t == s[i := s[j]][j := s[i]] && Placed(s, i) && LeastUpTo(s, i, j)
    ensures multiset(t) == multiset(s) && Placed(t, i) && LeastUpTo(t, i, j + 1)
  {
    forall k, m | 0 <= k < i && k < m < |t| ensures t[k] <= t[m] {
      assert s[k] <= s[m] && s[k] <= s[i] && s[k] <= s[j];
    }
  }

  /** The mean of the two middle samples as the code computes it: the sum wraps, and the conversion back to
      ticks drops a half. */
  function Mean(lo: Ticks, hi: Ticks): Ticks {
    (((lo + hi) % WORD) as real / 2.0).Floor
  }

  /** The exact condition: the mean lies between the two samples if and only if their sum does not wrap. */
  lemma MeanIsExact(lo: Ticks, hi: Ticks)
    requires lo <= hi
    ensures lo <= Mean(lo, hi) <= hi <==> lo + hi < WORD
    ensures lo + hi < WORD ==> Mean(lo, hi) == (lo + hi) / 2
  {
    Halved((lo + hi) % WORD);
    if WORD <= lo + hi { assert (lo + hi) % WORD == lo + hi - WORD; }
  }

  lemma Halved(x: nat)
    ensures (x as real / 2.0).Floor == x / 2
  {
    var h, f := x as real / 2.0, (x as real / 2.0).Floor;
    assert f as real <= h < f as real + 1.0;
  }

  /** The part of ComputeSummary about one array of samples. */
  method Summarise(a: array<Ticks>) returns (min: Ticks, max: Ticks, median: Ticks)
    requires 0 < a.Length
    modifies a
    ensures multiset(a[..]) == multiset(old(a[..]))
    ensures min in old(a[..]) && forall i :: 0 <= i < a.Length ==> min <= old(a[i])
    ensures max in old(a[..]) && forall i :: 0 <= i < a.Length ==> old(a[i]) <= max
    ensures HasRank(old(a[..]), (a.Length - 1) / 2, a[(a.Length - 1) / 2]) && HasRank(old(a[..]), a.Length / 2, a[a.Length / 2])
    ensures median == if a.Length % 2 == 0 then Mean(a[(a.Length - 1) / 2], a[a.Length / 2]) else a[a.Length / 2]
    ensures a.Length % 2 == 1 || a[(a.Length - 1) / 2] + a[a.Length / 2] < WORD
            ==> 2 * Below(old(a[..]), median) <= a.Length && 2 * Above(old(a[..]), median) <= a.Length
  {
    ghost var s := a[..];
    var n := a.Length;
    Sort(a);
    ghost var t := a[..];
    min := a[0];
    max := a[n - 1];
    if n % 2 == 0 {
      median := Mean(a[n / 2 - 1], a[n / 2]);
    } else {
      median := a[n / 2];
    }
    SortedByRank(s, t, 0);
    SortedByRank(s, t, n - 1);
    SortedByRank(s, t, n / 2);
    SortedByRank(s, t, (n - 1) / 2);
    Extremes(s, min);
    Extremes(s, max);
    MedianHalves(s, t[(n - 1) / 2], t[n / 2], median);
  }

  lemma MedianHalves(s: seq<Ticks>, lo: Ticks, hi: Ticks, v: Ticks)
    requires 0 < |s| && lo <= hi && HasRank(s, (|s| - 1) / 2, lo) && HasRank(s, |s| / 2, hi)
    requires v == (if |s| % 2 == 0 then Mean(lo, hi) else hi) && (|s| % 2 == 1 ==> lo == hi)
    ensures |s| % 2 == 1 || lo + hi < WORD ==> 2 * Below(s, v) <= |s| && 2 * Above(s, v) <= |s|
  {
    MeanIsExact(lo, hi);
    if lo <= v <= hi { MiddleHalves(s, lo, hi, v); }
  }
}
