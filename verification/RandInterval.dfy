/** rand_interval of QueueBenchmarks/sqmain.c: a rejection sampler in unsigned 32-bit arithmetic over a
    generator of integers 0 .. randMax. */
module RandInterval {
  import opened Slots

  const WORD := 0x1_0000_0000

  type Unsigned = x: int | 0 <= x < 0x1_0000_0000
  type RandMax = x: int | 0 < x < 0x8000_0000 witness 1

  /** 1 + max - min, which wraps. */
  function Range(min: Unsigned, max: Unsigned): Unsigned {
    (1 + max - min) % WORD
  }

  lemma DivAtMost(k: nat, n: nat)
    requires 0 < n
    ensures 0 <= k / n <= k
  {
    if k < n {
      ModUnique(k, n, 0, k);
    } else {
      DivPositive(k, n);
      assert k == n * (k / n) + k % n;
      assert n * (k / n) == k / n + (n - 1) * (k / n);
    }
  }

  function Buckets(range: Unsigned, randMax: RandMax): Unsigned
    requires 0 < range
  {
    DivAtMost(randMax, range);
    randMax / range
  }

  function Limit(range: Unsigned, randMax: RandMax): int
    requires 0 < range
  {
    Buckets(range, randMax) * range
  }

  function Pick(min: Unsigned, buckets: Unsigned, r: nat): Unsigned
    requires 0 < buckets
  {
    (min + r / buckets) % WORD
  }

  /** Value v lies between min and max; the interval passes through 0 when max < min. */
  predicate Between(min: Unsigned, max: Unsigned, v: Unsigned) {
    if min <= max then min <= v <= max else min <= v || v <= max
  }

  /** The draws that end the loop. */
  predicate Accepted(range: Unsigned, randMax: RandMax, r: int)
    requires 0 < range
  {
    0 <= r <= randMax && r < Limit(range, randMax)
  }

  /** The accepted draws that give v. */
  ghost function DrawsOf(min: Unsigned, max: Unsigned, randMax: RandMax, v: Unsigned): set<int>
    requires 0 < Range(min, max) <= randMax
  {
    set r | 0 <= r <= randMax && Accepted(Range(min, max), randMax, r) && Pick(min, Buckets(Range(min, max), randMax), r) == v
  }

  /** A call either meets the division by zero, returns, or is still drawing when `draws` is used up. */
  datatype Outcome = DivisionByZero | Returned(value: Unsigned, used: nat) | Drawing

  /** Draw r falls into the o-th of a row of buckets of size b. */
  predicate FallsIn(r: int, b: int, o: int) { o * b <= r < (o + 1) * b }

  /** Draw r falls off the end of the line: beyond the whole rounds of `range` draws. */
  predicate OffTheEnd(range: int, randMax: int, r: int)
    requires 0 < range
  {
    randMax - randMax % range <= r
  }

  /** Draw r gives v: it is not off the end, and its bucket has the number of v, counted from min. */
  predicate Gives(min: Unsigned, max: Unsigned, randMax: RandMax, r: int, v: Unsigned)
    requires 0 < Range(min, max)
  {
    && Between(min, max, v) && !OffTheEnd(Range(min, max), randMax, r)
    && FallsIn(r, randMax / Range(min, max), OffsetOf(min, v))
  }

  /** The call on the given results of rand(): it returns at the first draw that is not off the end. */
  method Sample(min: Unsigned, max: Unsigned, randMax: RandMax, draws: seq<int>) returns (out: Outcome)
    requires forall k :: 0 <= k < |draws| ==> 0 <= draws[k] <= randMax
    ensures out == DivisionByZero <==> min == (max + 1) % WORD
    ensures out == Drawing <==>
      Range(min, max) != 0 && forall k :: 0 <= k < |draws| ==> OffTheEnd(Range(min, max), randMax, draws[k])
    ensures out.Returned? ==>
      && 0 < out.used <= |draws| && 0 < Range(min, max) <= randMax
      && Gives(min, max, randMax, draws[out.used - 1], out.value)
      && forall k :: 0 <= k < out.used - 1 ==> OffTheEnd(Range(min, max), randMax, draws[k])
  {
    var range := (1 + max - min) % WORD;
    DividesByZero(min, max);
    if range == 0 {
      return DivisionByZero;
    }
    DivAtMost(randMax, range);
    var buckets := randMax / range;
    var limit := buckets * range;
    WholeRounds(range, randMax);
    var k, done := Draw(limit, draws);
    if done {
      var r := draws[k - 1];
      Answer(min, max, randMax, r);
      out := Returned((min + r / buckets) % WORD, k);
    } else {
      out := Drawing;
    }
  }

  /** The loop: draw until a draw is below the limit. */
  method Draw(limit: int, draws: seq<int>) returns (k: nat, done: bool)
    ensures k <= |draws| && (if done then 0 < k && draws[k - 1] < limit else k == |draws|)
    ensures forall j :: 0 <= j < (if done then k - 1 else k) ==> limit <= draws[j]
  {
    k, done := 0, false;
    while k < |draws| && !done
      invariant k <= |draws| && (done ==> 0 < k && draws[k - 1] < limit)
      invariant forall j :: 0 <= j < (if done then k - 1 else k) ==> limit <= draws[j]
    {
      done := draws[k] < limit;
      k := k + 1;
    }
  }

  /** What an accepted draw gives. */
  lemma Answer(min: Unsigned, max: Unsigned, randMax: RandMax, r: int)
    requires 0 < Range(min, max) && 0 <= r <= randMax && !OffTheEnd(Range(min, max), randMax, r)
    ensures Range(min, max) <= randMax && 0 < randMax / Range(min, max)
    ensures var v := (min + r / (randMax / Range(min, max))) % WORD;
      0 <= v < WORD && Gives(min, max, randMax, r, v)
  {
    var range := Range(min, max);
    AcceptedIs(range, randMax, r);
    NeverAccepts(min, max, randMax);
    Bucket(min, max, randMax, r);
    var v := Pick(min, Buckets(range, randMax), r);
    assert r in DrawsOf(min, max, randMax, v);
    GivesMeans(min, max, randMax, r, v);
  }

  lemma AcceptedIs(range: Unsigned, randMax: RandMax, r: int)
    requires 0 < range && 0 <= r <= randMax
    ensures Accepted(range, randMax, r) <==> !OffTheEnd(range, randMax, r)
  {
    WholeRounds(range, randMax);
  }

  /** Where an accepted draw lands. */
  lemma Bucket(min: Unsigned, max: Unsigned, randMax: RandMax, r: int)
    requires 0 < Range(min, max) <= randMax && Accepted(Range(min, max), randMax, r)
    ensures 0 < Buckets(Range(min, max), randMax)
    ensures 0 <= r / Buckets(Range(min, max), randMax) < Range(min, max)
    ensures Between(min, max, Pick(min, Buckets(Range(min, max), randMax), r))
  {
    var range := Range(min, max);
    DivPositive(randMax, range);
    var b := Buckets(range, randMax);
    QuotientBelow(r, b, range);
    Offset(min, max, r / b);
  }

  /** The offsets 0 .. range - 1 from min name the interval's values, each once. */
  lemma Offset(min: Unsigned, max: Unsigned, k: int)
    requires 0 <= k < Range(min, max)
    ensures Between(min, max, (min + k) % WORD)
  {
  }

  function OffsetOf(min: Unsigned, v: Unsigned): int {
    (v - min) % WORD
  }

  lemma OnlyOffset(min: Unsigned, max: Unsigned, v: Unsigned, j: int)
    requires Between(min, max, v) && 0 < Range(min, max)
    ensures 0 <= OffsetOf(min, v) < Range(min, max)
    ensures 0 <= j < Range(min, max) ==> ((min + j) % WORD == v <==> j == OffsetOf(min, v))
  {
  }

  /** The integers of an interval, counted. */
  lemma {:induction false} Interval(lo: int, n: nat, s: set<int>)
    requires forall r :: r in s <==> lo <= r < lo + n
    ensures |s| == n
  {
    if n == 0 {
      assert forall r :: r !in s;
      assert s == {};
    } else {
      assert lo + n - 1 in s;
      Interval(lo, n - 1, s - {lo + n - 1});
    }
  }

  /** Every value of the interval comes from exactly RAND_MAX / range of the accepted draws: those of its
      bucket, the o-th one for the value at offset o from min. */
  lemma Equidistributed(min: Unsigned, max: Unsigned, randMax: RandMax, v: Unsigned)
    requires 0 < Range(min, max) <= randMax && Between(min, max, v)
    ensures |DrawsOf(min, max, randMax, v)| == randMax / Range(min, max)
    ensures forall r :: r in DrawsOf(min, max, randMax, v)
              <==> FallsIn(r, randMax / Range(min, max), OffsetOf(min, v))
  {
    var range := Range(min, max);
    DivPositive(randMax, range);
    var b := Buckets(range, randMax);
    var k := OffsetOf(min, v);
    OnlyOffset(min, max, v, 0);
    MostAccepted(range, randMax);
    forall r ensures r in DrawsOf(min, max, randMax, v) <==> b * k <= r < b * k + b {
      InBucket(b, range, r, k);
      if Accepted(range, randMax, r) {
        QuotientBelow(r, b, range);
        OnlyOffset(min, max, v, r / b);
      }
    }
    Interval(b * k, b, DrawsOf(min, max, randMax, v));
    forall r ensures FallsIn(r, b, k) <==> b * k <= r < b * k + b { FallsInMeans(r, b, k); }
  }

  lemma FallsInMeans(r: int, b: int, o: int)
    ensures FallsIn(r, b, o) <==> b * o <= r < b * o + b
  {
    assert (o + 1) * b == o * b + b;
  }

  /** The accepted draws for v are those that give it. */
  lemma GivesMeans(min: Unsigned, max: Unsigned, randMax: RandMax, r: int, v: Unsigned)
    requires 0 < Range(min, max) <= randMax && Between(min, max, v) && 0 <= r <= randMax
    ensures r in DrawsOf(min, max, randMax, v) <==> Gives(min, max, randMax, r, v)
  {
    Equidistributed(min, max, randMax, v);
    AcceptedIs(Range(min, max), randMax, r);
  }

  lemma InBucket(b: nat, range: nat, r: int, k: nat)
    requires 0 < b && k < range
    ensures 0 <= r < b * range && r / b == k <==> b * k <= r < b * k + b
  {
    assert b * range == b * k + b * (range - k);
    MultipleGap(b, range - k);
    MultipleGap(b, k);
    if b * k <= r < b * k + b {
      ModUnique(r, b, k, r - b * k);
    }
    if 0 <= r {
      assert r == b * (r / b) + r % b;
    }
  }

  /** All whole rounds of `range` draws that fit below RAND_MAX are accepted, and what is rejected is less
      than one round. */
  lemma WholeRounds(range: Unsigned, randMax: RandMax)
    requires 0 < range
    ensures Limit(range, randMax) <= randMax < Limit(range, randMax) + range
    ensures Limit(range, randMax) == randMax - randMax % range
    ensures Limit(range, randMax) % range == 0
  {
    DivAtMost(randMax, range);
    assert randMax == range * (randMax / range) + randMax % range;
    assert Limit(range, randMax) == range * (randMax / range);
    ModUnique(Limit(range, randMax), range, randMax / range, 0);
  }

  /** The limit is more than half of RAND_MAX, so at least half of the RAND_MAX + 1 draws end the loop. */
  lemma MostAccepted(range: Unsigned, randMax: RandMax)
    requires 0 < range <= randMax
    ensures randMax < 2 * Limit(range, randMax) && Limit(range, randMax) <= randMax
  {
    DivPositive(randMax, range);
    assert randMax == range * (randMax / range) + randMax % range;
    assert Limit(range, randMax) == range * (randMax / range);
    assert range * (randMax / range) >= range;
  }

  /** The loop has a draw that ends it if and only if the interval has at most RAND_MAX values. */
  lemma NeverAccepts(min: Unsigned, max: Unsigned, randMax: RandMax)
    requires 0 < Range(min, max)
    ensures (exists r :: Accepted(Range(min, max), randMax, r)) <==> Range(min, max) <= randMax
  {
    var range := Range(min, max);
    if range <= randMax {
      MostAccepted(range, randMax);
      assert Accepted(range, randMax, 0);
    } else {
      ModUnique(randMax, range, 0, randMax);
      assert Limit(range, randMax) == 0;
    }
  }

  /** The division by zero: exactly when min is the successor of max, modulo the word. */
  lemma DividesByZero(min: Unsigned, max: Unsigned)
    ensures Range(min, max) == 0 <==> min == (max + 1) % WORD
    ensures min <= max && Range(min, max) == 0 ==> min == 0 && max == WORD - 1
  {
  }
}
