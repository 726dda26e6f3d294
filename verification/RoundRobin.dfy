/** The LATENCY run with one producer and Q consumers: the producer deals its elements round
    robin to Q ticket rings of MAX_SIZE / Q slots, and consumer j empties ring j. */
module RoundRobin {
  import opened AtomicFifo
  import opened RingLimits
  import opened TicketRing
  import Slots

  const PRODUCER: Tid := 0
  const CONSUMER: Tid := 1

  /** NUM_SAMPLES == MAX_SIZE, the number of queues Q, the order of the gate's loads, and the operations
      of one consumer, which is also the number of slots of one ring. */
  datatype Config = Config(samples: nat, q: nat, tailFirst: bool) {
    predicate Ok() { 0 < q <= samples }
    function Gated(): Gate { WhenLappedAndEqual(tailFirst) }
    function M(): (m: nat)
      requires Ok()
      ensures 0 < m
    {
      Slots.DivPositive(samples, q);
      samples / q
    }
  }

  /** The rings, the number of operations the producer has begun, and those each consumer has begun. */
  datatype Deal = Deal(rings: seq<Ring>, i: nat, taken: seq<nat>)

  datatype Move = Produce | Consume(j: nat)

  ghost predicate Init(c: Config, s: Deal)
    requires c.Ok()
  {
    && |s.rings| == c.q && s.i == 0 && s.taken == seq(c.q, _ => 0)
    && forall j :: 0 <= j < c.q ==>
         TicketRing.Init(s.rings[j]) && s.rings[j].N() == c.M() && s.rings[j].pcs == map[PRODUCER := Idle, CONSUMER := Idle]
  }

  /** The ring of the operation the producer is in, or will begin next. */
  function Current(c: Config, s: Deal): (j: nat)
    requires c.Ok() && |s.rings| == c.q
    ensures j < c.q
  {
    if 0 < s.i && PRODUCER in s.rings[(s.i - 1) % c.q].pcs && s.rings[(s.i - 1) % c.q].pcs[PRODUCER] != Idle
    then (s.i - 1) % c.q
    else s.i % c.q
  }

  ghost predicate Shape(c: Config, s: Deal)
    requires c.Ok()
  {
    && |s.rings| == c.q && |s.taken| == c.q
    && forall j :: 0 <= j < c.q ==>
         Owned(s.rings[j]) && s.rings[j].N() == c.M() && PRODUCER in s.rings[j].pcs && CONSUMER in s.rings[j].pcs
  }

  function RingOf(c: Config, s: Deal, mv: Move): (j: nat)
    requires c.Ok() && |s.rings| == c.q && (mv.Consume? ==> mv.j < c.q)
    ensures j < c.q
  {
    match mv
    case Produce => Current(c, s)
    case Consume(j) => j
  }

  ghost predicate CanMove(c: Config, s: Deal, mv: Move)
    requires c.Ok() && Shape(c, s)
  {
    match mv
    case Produce => s.rings[Current(c, s)].pcs[PRODUCER] == Idle ==> s.i < c.samples
    case Consume(j) => j < c.q && (s.rings[j].pcs[CONSUMER] == Idle ==> s.taken[j] < c.M())
  }

  /** What the mover does in its ring. */
  ghost function ActionOf(c: Config, s: Deal, mv: Move): (a: Action)
    requires c.Ok() && Shape(c, s) && CanMove(c, s, mv)
    ensures TicketRing.Enabled(s.rings[RingOf(c, s, mv)], a)
  {
    var r := s.rings[RingOf(c, s, mv)];
    match mv
    case Produce => if r.pcs[PRODUCER] == Idle then CallEnqueue(PRODUCER, s.i + 1) else Run(PRODUCER)
    case Consume(_) => if r.pcs[CONSUMER] == Idle then CallDequeue(CONSUMER) else Run(CONSUMER)
  }

  ghost function Advance(c: Config, s: Deal, mv: Move): Deal
    requires c.Ok() && Shape(c, s) && CanMove(c, s, mv)
  {
    var j, a := RingOf(c, s, mv), ActionOf(c, s, mv);
    Deal(s.rings[j := TicketRing.Next(c.Gated(), s.rings[j], a)],
         if a.CallEnqueue? then s.i + 1 else s.i,
         if a.CallDequeue? then s.taken[j := s.taken[j] + 1] else s.taken)
  }

  /** How many of the first i elements go to ring j. */
  function Dealt(i: nat, q: nat, j: nat): nat
    requires 0 < q
  {
    i / q + if j < i % q then 1 else 0
  }

  lemma DealtStep(i: nat, q: nat, j: nat)
    requires 0 < q && j < q
    ensures Dealt(i + 1, q, j) == Dealt(i, q, j) + if j == i % q then 1 else 0
  {
    if i % q + 1 < q {
      Slots.ModUnique(i + 1, q, i / q, i % q + 1);
    } else {
      assert i + 1 == q * (i / q + 1) + 0;
      Slots.ModUnique(i + 1, q, i / q + 1, 0);
    }
  }

  /** With Q dividing NUM_SAMPLES no ring is dealt more elements than it has slots. */
  lemma DealtFits(c: Config, i: nat, j: nat)
    requires c.Ok() && c.samples % c.q == 0 && i <= c.samples && j < c.q
    ensures Dealt(i, c.q, j) <= c.M()
  {
    var q, m := c.q, c.M();
    assert c.samples == q * m && i == q * (i / q) + i % q;
    assert q * (i / q - m) <= 0;
    Slots.MultipleGap(q, i / q - m);
  }

  /** The k-th element dealt to ring j. */
  function Card(q: nat, j: nat, k: nat): int { j + 1 + k * q }

  /** Ring j while i operations of the producer and n of consumer j have begun. */
  ghost predicate RingInv(c: Config, j: nat, r: Ring, i: nat, n: nat)
    requires c.Ok()
  {
    && r.N() == c.M() && r.pcs.Keys == {PRODUCER, CONSUMER} && Owned(r)
    && ProducerOk(c, j, r.pcs[PRODUCER], |r.enq|, i)
    && ConsumerOk(c, r.pcs[CONSUMER], |r.deq|, n)
    && (forall k :: 0 <= k < |r.enq| ==> r.enq[k].v == Card(c.q, j, k) && r.enq[k].owner == PRODUCER)
    && (forall k :: 0 <= k < |r.deq| ==> r.deq[k].owner == CONSUMER)
  }

  ghost predicate ProducerOk(c: Config, j: nat, pc: Pc, e: nat, i: nat)
    requires c.Ok()
  {
    && (pc == Idle || pc.EnqTake? || pc.EnqStore?)
    && (pc != Idle ==> 0 < i && (i - 1) % c.q == j)
    && e + (if pc.EnqTake? then 1 else 0) == Dealt(i, c.q, j)
    && (pc.EnqTake? ==> pc.v == Card(c.q, j, e))
  }

  ghost predicate ConsumerOk(c: Config, pc: Pc, d: nat, n: nat)
    requires c.Ok()
  {
    && !pc.EnqTake? && !pc.EnqStore? && !pc.GateHead? && !pc.GateTail? && !pc.GateTailFirst? && !pc.GateHeadLast?
    && d + (if pc.GateLapped? || pc.DeqTake? then 1 else 0) == n <= c.M()
  }

  ghost predicate Inv(c: Config, s: Deal)
    requires c.Ok()
  {
    && Shape(c, s) && s.i <= c.samples
    && forall j :: 0 <= j < c.q ==> Matched(s.rings[j]) && RingInv(c, j, s.rings[j], s.i, s.taken[j])
  }

  lemma InitInv(c: Config, s: Deal)
    requires c.Ok() && Init(c, s)
    ensures Inv(c, s)
  {
    forall j | 0 <= j < c.q ensures Matched(s.rings[j]) && RingInv(c, j, s.rings[j], 0, 0) {
      InitMatched(s.rings[j]);
      Slots.ModUnique(0, c.q, 0, 0);
    }
  }

  /** The element the producer deals next is the next card of the ring it deals to. */
  lemma NextCard(i: nat, q: nat)
    requires 0 < q
    ensures i + 1 == Card(q, i % q, Dealt(i, q, i % q))
  {
    assert i == q * (i / q) + i % q;
  }

  /** One access of the producer, seen from the ring it deals to. */
  lemma ProducerRing(c: Config, j: nat, r: Ring, i: nat, n: nat, a: Action)
    requires c.Ok() && RingInv(c, j, r, i, n) && Matched(r) && Dealt(i, c.q, j) <= c.M()
    requires a == if r.pcs[PRODUCER] == Idle then CallEnqueue(PRODUCER, i + 1) else Run(PRODUCER)
    requires a.CallEnqueue? ==> j == i % c.q
    ensures var r' := TicketRing.Next(c.Gated(), r, a);
      Matched(r') && RingInv(c, j, r', if a.CallEnqueue? then i + 1 else i, n)
  {
    MatchedNext(c.Gated(), r, a);
    if a.CallEnqueue? {
      NextCard(i, c.q);
      DealtStep(i, c.q, j);
    }
  }

  /** The next element goes to another ring. */
  lemma OtherRing(c: Config, u: nat, r: Ring, i: nat, n: nat)
    requires c.Ok() && RingInv(c, u, r, i, n) && r.pcs[PRODUCER] == Idle && u < c.q && u != i % c.q
    ensures RingInv(c, u, r, i + 1, n)
  {
    DealtStep(i, c.q, u);
  }

  lemma ProducerMoves(c: Config, s: Deal)
    requires c.Ok() && c.samples % c.q == 0 && Inv(c, s) && CanMove(c, s, Produce)
    ensures Inv(c, Advance(c, s, Produce))
  {
    var j, a, s' := Current(c, s), ActionOf(c, s, Produce), Advance(c, s, Produce);
    DealtFits(c, s.i, j);
    ProducerRing(c, j, s.rings[j], s.i, s.taken[j], a);
    forall u | 0 <= u < c.q && u != j ensures Matched(s'.rings[u]) && RingInv(c, u, s'.rings[u], s'.i, s.taken[u]) {
      assert s'.rings[u] == s.rings[u] && RingInv(c, u, s.rings[u], s.i, s.taken[u]);
      if a.CallEnqueue? { OtherRing(c, u, s.rings[u], s.i, s.taken[u]); }
    }
    assert forall u :: 0 <= u < c.q ==> Matched(s'.rings[u]) && RingInv(c, u, s'.rings[u], s'.i, s'.taken[u]);
  }

  /** One access of the consumer, seen from its ring. */
  lemma ConsumerRing(c: Config, j: nat, r: Ring, i: nat, n: nat, a: Action)
    requires c.Ok() && RingInv(c, j, r, i, n) && Matched(r) && Dealt(i, c.q, j) <= c.M()
    requires a == if r.pcs[CONSUMER] == Idle then CallDequeue(CONSUMER) else Run(CONSUMER)
    requires a.CallDequeue? ==> n < c.M()
    ensures var r' := TicketRing.Next(c.Gated(), r, a);
      Matched(r') && RingInv(c, j, r', i, if a.CallDequeue? then n + 1 else n)
  {
    MatchedNext(c.Gated(), r, a);
  }

  lemma ConsumerMoves(c: Config, s: Deal, j: nat)
    requires c.Ok() && c.samples % c.q == 0 && Inv(c, s) && CanMove(c, s, Consume(j))
    ensures Inv(c, Advance(c, s, Consume(j)))
  {
    DealtFits(c, s.i, j);
    ConsumerRing(c, j, s.rings[j], s.i, s.taken[j], ActionOf(c, s, Consume(j)));
  }

  /** A run. Init has the Shape and every move keeps it, so asking for it excludes nothing. */
  ghost predicate IsDealRun(c: Config, states: seq<Deal>, moves: seq<Move>)
    requires c.Ok()
  {
    && |states| == |moves| + 1 && Init(c, states[0])
    && forall i :: 0 <= i < |moves| ==>
         Shape(c, states[i]) && CanMove(c, states[i], moves[i]) && states[i + 1] == Advance(c, states[i], moves[i])
  }

  lemma {:induction false} InvAlways(c: Config, states: seq<Deal>, moves: seq<Move>, n: nat)
    requires c.Ok() && c.samples % c.q == 0 && IsDealRun(c, states, moves) && n < |states|
    ensures Inv(c, states[n])
  {
    if n == 0 {
      InitInv(c, states[0]);
    } else {
      InvAlways(c, states, moves, n - 1);
      match moves[n - 1]
      case Produce => ProducerMoves(c, states[n - 1]);
      case Consume(j) => ConsumerMoves(c, states[n - 1], j);
    }
  }

  /** Every interleaving: the k-th dequeue of consumer j returns j + 1 + k * Q, and its ticket k is
      less than the number of slots, so no slot is used twice. */
  lemma RoundRobinResults(c: Config, states: seq<Deal>, moves: seq<Move>, n: nat, j: nat, k: nat)
    requires c.Ok() && c.samples % c.q == 0 && IsDealRun(c, states, moves) && n < |states|
    requires j < |states[n].rings| && k < |states[n].rings[j].deq|
    ensures k < c.M() && states[n].rings[j].deq[k].owner == CONSUMER
    ensures states[n].rings[j].deq[k].result in {None, Some(Card(c.q, j, k))}
  {
    InvAlways(c, states, moves, n);
    var r := states[n].rings[j];
    assert RingInv(c, j, r, states[n].i, states[n].taken[j]);
    assert Done(r, k) || r.deq[k].result == None;
  }

  /** Each of 1 .. NUM_SAMPLES is the card of exactly one ring at exactly one position. */
  lemma CardsPartition(c: Config, v: int, j: nat, k: nat)
    requires c.Ok() && c.samples % c.q == 0 && 1 <= v <= c.samples && j < c.q
    ensures Card(c.q, j, k) == v <==> j == (v - 1) % c.q && k == (v - 1) / c.q
    ensures (v - 1) / c.q < c.M()
  {
    var q, m := c.q, c.M();
    if Card(q, j, k) == v {
      Slots.ModUnique(v - 1, q, k, j);
    }
    assert v - 1 == q * ((v - 1) / q) + (v - 1) % q;
    assert c.samples == q * m + c.samples % q;
    Slots.QuotientBelow(v - 1, q, m);
  }

  /** When the producer is finished, every ring has got its M elements. */
  lemma AllDealt(c: Config, s: Deal, j: nat)
    requires c.Ok() && c.samples % c.q == 0 && Inv(c, s) && !CanMove(c, s, Produce) && j < c.q
    ensures |s.rings[j].enq| == c.M() && s.rings[j].pcs[PRODUCER] == Idle
    ensures forall k :: 0 <= k < c.M() ==> s.rings[j].enq[k].stored
  {
    var r := s.rings[j];
    assert RingInv(c, j, r, s.i, s.taken[j]) && s.i == c.samples;
    assert RingInv(c, Current(c, s), s.rings[Current(c, s)], s.i, s.taken[Current(c, s)]);
    DealtAll(c, j);
    forall k | 0 <= k < |r.enq| ensures r.enq[k].stored {}
  }

  lemma DealtAll(c: Config, j: nat)
    requires c.Ok() && c.samples % c.q == 0 && j < c.q
    ensures Dealt(c.samples, c.q, j) == c.M()
  {
    assert c.samples == c.q * c.M() + 0;
    Slots.ModUnique(c.samples, c.q, c.M(), 0);
  }

  /** A consumer that spins after everything was dealt gets through. */
  lemma ConsumerGetsThrough(c: Config, r: Ring, j: nat, i: nat, n: nat)
    requires c.Ok() && RingInv(c, j, r, i, n) && Matched(r) && r.pcs[CONSUMER].DeqSpin?
    requires |r.enq| == c.M() && forall k :: 0 <= k < c.M() ==> r.enq[k].stored
    ensures TicketRing.Next(c.Gated(), r, Run(CONSUMER)) != r
  {
    assert HoldsTicket(r, CONSUMER, r.pcs[CONSUMER]);
    SpinEnds(c.Gated(), r, CONSUMER);
  }

  /** Every access but a turn of the spin changes the ring. */
  lemma OthersProgress(g: Gate, r: Ring, a: Action)
    requires Owned(r) && Enabled(r, a) && (a.Run? ==> !r.pcs[a.t].DeqSpin?)
    ensures TicketRing.Next(g, r, a) != r
  {
    assert TicketRing.Next(g, r, a).pcs[a.t] != r.pcs[a.t];
  }

  /** Whoever has work left, somebody can take a step that is not a turn of a spin. */
  lemma NeverStuck(c: Config, s: Deal, mv: Move) returns (mu: Move)
    requires c.Ok() && c.samples % c.q == 0 && Inv(c, s) && CanMove(c, s, mv)
    ensures CanMove(c, s, mu) && Advance(c, s, mu) != s
  {
    mu := if CanMove(c, s, Produce) then Produce else mv;
    var j, a := RingOf(c, s, mu), ActionOf(c, s, mu);
    assert RingInv(c, j, s.rings[j], s.i, s.taken[j]);
    if mu.Consume? && s.rings[j].pcs[CONSUMER].DeqSpin? {
      AllDealt(c, s, j);
      ConsumerGetsThrough(c, s.rings[j], j, s.i, s.taken[j]);
    } else {
      OthersProgress(c.Gated(), s.rings[j], a);
    }
    assert Advance(c, s, mu).rings[j] != s.rings[j];
  }

  /** When nobody has work left, consumer j has received exactly its cards, in order. */
  lemma FinalState(c: Config, s: Deal, j: nat)
    requires c.Ok() && c.samples % c.q == 0 && Inv(c, s) && j < c.q
    requires forall mv :: !CanMove(c, s, mv)
    ensures |s.rings[j].deq| == c.M()
    ensures forall k :: 0 <= k < c.M() ==> s.rings[j].deq[k].result == Some(Card(c.q, j, k))
  {
    var r := s.rings[j];
    assert !CanMove(c, s, Consume(j)) && !CanMove(c, s, Produce);
    assert RingInv(c, j, r, s.i, s.taken[j]);
    forall k | 0 <= k < |r.deq| ensures Done(r, k) {
      assert !DeqHolds(Idle, k);
    }
  }
}
