/** The round robin comes to its end: a bound on the accesses that are not turns of a spin. */
module RoundRobinProgress {
  import opened AtomicFifo
  import opened RoundRobin
  import TicketRing
  import RingBenchmark
  import opened Sums

  /** What is left to do in one ring: the rest of the operations under way in it, and nine accesses for
      each dequeue to come. */
  ghost function WorkIn(c: Config, r: TicketRing.Ring, n: nat): int
    requires c.Ok() && PRODUCER in r.pcs && CONSUMER in r.pcs
  {
    RingBenchmark.Rank(r.pcs[PRODUCER]) + RingBenchmark.Rank(r.pcs[CONSUMER]) + 9 * (c.M() - n)
  }

  ghost function Work(c: Config, s: Deal): (xs: seq<int>)
    requires c.Ok() && Shape(c, s)
    ensures |xs| == c.q && forall j :: 0 <= j < c.q ==> xs[j] == WorkIn(c, s.rings[j], s.taken[j])
  {
    seq(c.q, j requires 0 <= j < c.q => WorkIn(c, s.rings[j], s.taken[j]))
  }

  /** And nine accesses for each enqueue to come. */
  ghost function Measure(c: Config, s: Deal): int
    requires c.Ok() && Shape(c, s)
  {
    9 * (c.samples - s.i) + Sum(Work(c, s))
  }

  /** One access, seen from its ring. */
  lemma RingStep(c: Config, s: Deal, mv: Move)
    requires c.Ok() && Shape(c, s) && CanMove(c, s, mv) && Shape(c, Advance(c, s, mv)) && Advance(c, s, mv) != s
    ensures var j, s' := RingOf(c, s, mv), Advance(c, s, mv);
      WorkIn(c, s'.rings[j], s'.taken[j]) - 9 * (s'.i - s.i) < WorkIn(c, s.rings[j], s.taken[j])
  {
    var j, a := RingOf(c, s, mv), ActionOf(c, s, mv);
    RingBenchmark.OthersStay(c.Gated(), s.rings[j], a);
    if a.Run? {
      assert s.rings[j := s.rings[j]] == s.rings;
      RingBenchmark.RankDrops(c.Gated(), s.rings[j], a.t);
    }
  }

  /** Every access but a turn of the spin brings the run closer to its end. */
  lemma MeasureDecreases(c: Config, s: Deal, mv: Move)
    requires c.Ok() && Shape(c, s) && CanMove(c, s, mv) && Shape(c, Advance(c, s, mv)) && Advance(c, s, mv) != s
    ensures Measure(c, Advance(c, s, mv)) < Measure(c, s)
  {
    var j, s' := RingOf(c, s, mv), Advance(c, s, mv);
    RingStep(c, s, mv);
    var x := WorkIn(c, s'.rings[j], s'.taken[j]);
    assert Work(c, s') == Work(c, s)[j := x];
    SumUpdate(Work(c, s), j, x);
  }

  lemma MeasureAtStart(c: Config, s: Deal)
    requires c.Ok() && c.samples % c.q == 0 && Init(c, s) && Shape(c, s)
    ensures Measure(c, s) == 18 * c.samples
  {
    forall j | 0 <= j < c.q ensures Work(c, s)[j] == 9 * c.M() {
      assert s.rings[j].pcs == map[PRODUCER := TicketRing.Idle, CONSUMER := TicketRing.Idle];
    }
    SumConstant(Work(c, s), 9 * c.M());
    AllWork(c);
  }

  lemma AllWork(c: Config)
    requires c.Ok() && c.samples % c.q == 0
    ensures c.q * (9 * c.M()) == 9 * c.samples
  {
    assert c.samples == c.q * c.M();
  }

  lemma MeasureStays(c: Config, s: Deal, mv: Move, s': Deal)
    requires c.Ok() && Shape(c, s) && CanMove(c, s, mv) && s' == Advance(c, s, mv) && Shape(c, s')
    ensures Measure(c, s') <= Measure(c, s) - if s' != s then 1 else 0
  {
    if s' != s { MeasureDecreases(c, s, mv); }
  }

  lemma MeasureNonNegative(c: Config, s: Deal)
    requires c.Ok() && Inv(c, s)
    ensures 0 <= Measure(c, s)
  {
    forall j | 0 <= j < c.q ensures 0 <= Work(c, s)[j] { assert RingInv(c, j, s.rings[j], s.i, s.taken[j]); }
    SumAtLeastZero(Work(c, s));
  }

  /** Moves among the first n that are not turns of a spin. */
  ghost function Effective(states: seq<Deal>, n: nat): nat
    requires n < |states|
  {
    if n == 0 then 0 else Effective(states, n - 1) + if states[n] != states[n - 1] then 1 else 0
  }

  lemma {:induction false} EffectiveAndLeft(c: Config, states: seq<Deal>, moves: seq<Move>, n: nat)
    requires c.Ok() && c.samples % c.q == 0 && IsDealRun(c, states, moves) && n < |states|
    ensures Inv(c, states[n]) && Effective(states, n) + Measure(c, states[n]) <= 18 * c.samples
  {
    InvAlways(c, states, moves, n);
    if n == 0 {
      MeasureAtStart(c, states[0]);
    } else {
      EffectiveAndLeft(c, states, moves, n - 1);
      MeasureStays(c, states[n - 1], moves[n - 1], states[n]);
    }
  }

  /** In every run at most 18 * NUM_SAMPLES moves are not turns of a spin. */
  lemma EffectiveBounded(c: Config, states: seq<Deal>, moves: seq<Move>, n: nat)
    requires c.Ok() && c.samples % c.q == 0 && IsDealRun(c, states, moves) && n < |states|
    ensures Effective(states, n) <= 18 * c.samples
  {
    EffectiveAndLeft(c, states, moves, n);
    MeasureNonNegative(c, states[n]);
  }
}
