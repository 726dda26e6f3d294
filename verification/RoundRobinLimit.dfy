/** When Q does not divide NUM_SAMPLES the round robin goes wrong under some interleaving. */
module RoundRobinLimit {
  import opened AtomicFifo
  import opened TicketRing
  import opened RoundRobin
  import RingLimits
  import Slots

  lemma ShapeNext(c: Config, s: Deal, mv: Move)
    requires c.Ok() && Shape(c, s) && CanMove(c, s, mv)
    ensures Shape(c, Advance(c, s, mv))
  {
    OwnedNext(c.Gated(), s.rings[RingOf(c, s, mv)], ActionOf(c, s, mv));
  }

  /** Some run leads from s0 to s. */
  ghost predicate RunTo(c: Config, s0: Deal, s: Deal)
    requires c.Ok()
  {
    exists states: seq<Deal>, moves: seq<Move> :: Connects(c, s0, s, states, moves)
  }

  ghost predicate Connects(c: Config, s0: Deal, s: Deal, states: seq<Deal>, moves: seq<Move>)
    requires c.Ok()
  {
    IsDealRun(c, states, moves) && states[0] == s0 && states[|moves|] == s
  }

  lemma ExtendRun(c: Config, states: seq<Deal>, moves: seq<Move>, s: Deal, mv: Move)
    requires c.Ok() && IsDealRun(c, states, moves) && states[|moves|] == s && Shape(c, s) && CanMove(c, s, mv)
    ensures IsDealRun(c, states + [Advance(c, s, mv)], moves + [mv])
  {
    var states', moves' := states + [Advance(c, s, mv)], moves + [mv];
    forall i | 0 <= i < |moves'|
      ensures Shape(c, states'[i]) && CanMove(c, states'[i], moves'[i]) && states'[i + 1] == Advance(c, states'[i], moves'[i])
    {
      if i < |moves| {
        assert states'[i] == states[i] && states'[i + 1] == states[i + 1] && moves'[i] == moves[i];
      }
    }
  }

  lemma Extend(c: Config, s0: Deal, s: Deal, mv: Move)
    requires c.Ok() && RunTo(c, s0, s) && Shape(c, s) && CanMove(c, s, mv)
    ensures RunTo(c, s0, Advance(c, s, mv))
  {
    var states: seq<Deal>, moves: seq<Move> :| Connects(c, s0, s, states, moves);
    ExtendRun(c, states, moves, s, mv);
    assert Connects(c, s0, Advance(c, s, mv), states + [Advance(c, s, mv)], moves + [mv]);
  }

  /** Nobody but the producer has run, and it is between its i-th and its next operation. Slot 0 of
      ring 0 holds its first element until one more element than there are slots is dealt to it. */
  ghost predicate OnlyDealt(c: Config, s: Deal, i: nat)
    requires c.Ok()
  {
    var e := Dealt(i, c.q, 0);
    && Shape(c, s) && s.i == i && s.taken[0] == 0
    && (forall j :: 0 <= j < c.q ==> s.rings[j].pcs[PRODUCER] == Idle)
    && s.rings[0].pcs[CONSUMER] == Idle && s.rings[0].deq == [] && |s.rings[0].enq| == e <= c.M() + 1
    && s.rings[0].slots[0] == if e == 0 then 0 else if e <= c.M() then 1 else c.M() * c.q + 1
  }

  lemma DealtAtMost(c: Config, i: nat)
    requires c.Ok() && i <= c.samples
    ensures Dealt(i, c.q, 0) <= c.M() + 1
    ensures c.samples % c.q != 0 ==> Dealt(c.samples, c.q, 0) == c.M() + 1
  {
    var q, m := c.q, c.M();
    assert c.samples == q * m + c.samples % q && i == q * (i / q) + i % q;
    assert q * (i / q - m) < q;
    Slots.MultipleGap(q, i / q - m);
  }

  /** One access of the producer in ring j; the other rings are untouched. */
  lemma ProduceStep(c: Config, s: Deal, j: nat, pc: Pc)
    requires c.Ok() && Shape(c, s) && j < c.q && Current(c, s) == j && pc == s.rings[j].pcs[PRODUCER]
    requires pc == Idle ==> s.i < c.samples
    ensures CanMove(c, s, Produce) && Shape(c, Advance(c, s, Produce))
    ensures Advance(c, s, Produce) == Deal(
              s.rings[j := TicketRing.Next(c.Gated(), s.rings[j], if pc == Idle then CallEnqueue(PRODUCER, s.i + 1) else Run(PRODUCER))],
              if pc == Idle then s.i + 1 else s.i, s.taken)
  {
    ShapeNext(c, s, Produce);
  }

  /** A ring after a whole enqueue that nobody disturbs. */
  ghost function Filled(c: Config, r: Ring, v: int): Ring
    requires Owned(r) && PRODUCER in r.pcs && r.pcs[PRODUCER] == Idle
  {
    RingLimits.EnqueueAlone(c.Gated(), r, PRODUCER, v)
  }

  /** One whole operation of the producer, uninterrupted. */
  lemma WholeOperation(c: Config, s: Deal)
    requires c.Ok() && Shape(c, s) && s.i < c.samples && forall j :: 0 <= j < c.q ==> s.rings[j].pcs[PRODUCER] == Idle
    ensures CanMove(c, s, Produce)
    ensures var s1 := Advance(c, s, Produce); Shape(c, s1) && CanMove(c, s1, Produce)
    ensures var s2 := Advance(c, Advance(c, s, Produce), Produce); Shape(c, s2) && CanMove(c, s2, Produce)
    ensures var s3, j := Advance(c, Advance(c, Advance(c, s, Produce), Produce), Produce), s.i % c.q;
      Shape(c, s3) && s3 == Deal(s.rings[j := Filled(c, s.rings[j], s.i + 1)], s.i + 1, s.taken)
  {
    var j, v := s.i % c.q, s.i + 1;
    var r := s.rings[j];
    ProduceStep(c, s, j, Idle);
    var s1 := Advance(c, s, Produce);
    assert Current(c, s1) == j;
    ProduceStep(c, s1, j, EnqTake(v));
    var s2 := Advance(c, s1, Produce);
    ProduceStep(c, s2, j, EnqStore(|r.enq|, v));
    var s3 := Advance(c, s2, Produce);
    assert RingLimits.Alone(c.Gated(), s2.rings[j], PRODUCER, 1) == s3.rings[j];
    assert s3.rings == s.rings[j := Filled(c, r, v)];
  }

  lemma DealOne(c: Config, s: Deal)
    requires c.Ok() && OnlyDealt(c, s, s.i) && s.i < c.samples
    requires Shape(c, Deal(s.rings[s.i % c.q := Filled(c, s.rings[s.i % c.q], s.i + 1)], s.i + 1, s.taken))
    ensures OnlyDealt(c, Deal(s.rings[s.i % c.q := Filled(c, s.rings[s.i % c.q], s.i + 1)], s.i + 1, s.taken), s.i + 1)
  {
    var j := s.i % c.q;
    var k := |s.rings[j].enq|;
    RingLimits.EnqueueAloneIs(c.Gated(), s.rings[j], PRODUCER, s.i + 1);
    DealtStep(s.i, c.q, 0);
    DealtAtMost(c, s.i + 1);
    NextCard(s.i, c.q);
    if j == 0 {
      FirstSlot(k, c.M());
    }
  }

  lemma FirstSlot(k: nat, m: nat)
    requires 0 < m && k <= m
    ensures k % m == 0 <==> k == 0 || k == m
  {
    if k < m {
      Slots.ModUnique(k, m, 0, k);
    } else {
      Slots.ModUnique(k, m, 1, 0);
    }
  }

  lemma NothingYet(c: Config, s0: Deal)
    requires c.Ok() && RoundRobin.Init(c, s0)
    ensures RunTo(c, s0, s0) && OnlyDealt(c, s0, 0)
  {
    Slots.ModUnique(0, c.q, 0, 0);
    assert Connects(c, s0, s0, [s0], []);
  }

  lemma ThreeMoves(c: Config, s0: Deal, s: Deal) returns (s3: Deal)
    requires c.Ok() && RunTo(c, s0, s) && OnlyDealt(c, s, s.i) && s.i < c.samples
    ensures RunTo(c, s0, s3) && OnlyDealt(c, s3, s.i + 1)
  {
    WholeOperation(c, s);
    DealOne(c, s);
    Extend(c, s0, s, Produce);
    Extend(c, s0, Advance(c, s, Produce), Produce);
    Extend(c, s0, Advance(c, Advance(c, s, Produce), Produce), Produce);
    s3 := Advance(c, Advance(c, Advance(c, s, Produce), Produce), Produce);
  }

  /** The producer can perform its first i operations before anybody else moves. */
  lemma {:induction false} ProducerFirst(c: Config, s0: Deal, i: nat) returns (s: Deal)
    requires c.Ok() && RoundRobin.Init(c, s0) && i <= c.samples
    ensures RunTo(c, s0, s) && OnlyDealt(c, s, i)
  {
    if i == 0 {
      NothingYet(c, s0);
      s := s0;
    } else {
      s := ProducerFirst(c, s0, i - 1);
      s := ThreeMoves(c, s0, s);
    }
  }

  function StagePc(n: nat, e: int): Pc {
    match n
    case 0 => Idle
    case 1 => GateLapped
    case 2 => DeqTake
    case 3 => DeqSpin(0)
    case 4 => DeqRead(0)
    case _ => DeqZero(0, e)
  }

  /** Consumer 0 is n accesses into its first dequeue, and slot 0 of its ring holds e. */
  ghost predicate Stage(c: Config, s: Deal, n: nat, e: int)
    requires c.Ok()
  {
    && Shape(c, s) && s.rings[0].pcs[CONSUMER] == StagePc(n, e)
    && s.rings[0].slots[0] == e && |s.rings[0].enq| <= c.M() + 1
    && (n == 0 ==> s.taken[0] == 0) && (n <= 2 ==> s.rings[0].deq == [])
  }

  lemma StageStep(c: Config, s: Deal, n: nat, e: int)
    requires c.Ok() && Stage(c, s, n, e) && n < 5 && e != 0
    ensures CanMove(c, s, Consume(0)) && Stage(c, Advance(c, s, Consume(0)), n + 1, e)
  {
    Slots.ModUnique(0, c.M(), 0, 0);
    ShapeNext(c, s, Consume(0));
    assert HoldsTicket(s.rings[0], CONSUMER, s.rings[0].pcs[CONSUMER]);
  }

  lemma {:induction false} FirstDequeue(c: Config, s0: Deal, s: Deal, n: nat, e: int) returns (s': Deal)
    requires c.Ok() && RunTo(c, s0, s) && Stage(c, s, n, e) && n <= 5 && e != 0
    ensures RunTo(c, s0, s') && Stage(c, s', 5, e)
    decreases 5 - n
  {
    if n == 5 {
      s' := s;
    } else {
      StageStep(c, s, n, e);
      Extend(c, s0, s, Consume(0));
      s' := FirstDequeue(c, s0, Advance(c, s, Consume(0)), n + 1, e);
    }
  }

  /** Consumer j is about to deliver, for some dequeue, an element that is not the card of that dequeue. */
  ghost predicate WrongCard(c: Config, s: Deal, j: nat) {
    && j < |s.rings| && CONSUMER in s.rings[j].pcs && s.rings[j].pcs[CONSUMER].DeqZero?
    && s.rings[j].pcs[CONSUMER].e != Card(c.q, j, s.rings[j].pcs[CONSUMER].k)
  }

  lemma NoWrongCard(c: Config, s0: Deal, s: Deal, j: nat)
    requires c.Ok() && c.samples % c.q == 0 && RunTo(c, s0, s)
    ensures !WrongCard(c, s, j)
  {
    var states: seq<Deal>, moves: seq<Move> :| Connects(c, s0, s, states, moves);
    InvAlways(c, states, moves, |moves|);
    if j < |s.rings| {
      var r := s.rings[j];
      assert RingInv(c, j, r, s.i, s.taken[j]) && HasFound(r, r.pcs[CONSUMER]);
    }
  }

  lemma SomeWrongCard(c: Config, s0: Deal) returns (s: Deal)
    requires c.Ok() && RoundRobin.Init(c, s0) && c.samples % c.q != 0
    ensures RunTo(c, s0, s) && WrongCard(c, s, 0)
  {
    DealtAtMost(c, c.samples);
    s := ProducerFirst(c, s0, c.samples);
    var e := c.M() * c.q + 1;
    assert 0 < c.M() * c.q;
    assert Stage(c, s, 0, e);
    s := FirstDequeue(c, s0, s, 0, e);
    assert Card(c.q, 0, 0) == 1;
  }

  /** The exact condition: some interleaving hands a consumer a wrong card if and only if the number
      of queues does not divide the number of samples. */
  lemma DividesIsExact(c: Config, s0: Deal)
    requires c.Ok() && RoundRobin.Init(c, s0)
    ensures (exists s: Deal, j: nat :: RunTo(c, s0, s) && WrongCard(c, s, j)) <==> c.samples % c.q != 0
  {
    if c.samples % c.q == 0 {
      forall s: Deal, j: nat | RunTo(c, s0, s) ensures !WrongCard(c, s, j) {
        NoWrongCard(c, s0, s, j);
      }
    } else {
      var s := SomeWrongCard(c, s0);
      assert RunTo(c, s0, s) && WrongCard(c, s, 0);
    }
  }
}
