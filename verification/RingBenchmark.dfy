/** The LATENCY run of the ring benchmark: P producers and P consumers, each with its own loop
    of NUM_SAMPLES / P operations, on a ring of MAX_SIZE == NUM_SAMPLES slots. */
module RingBenchmark {
  import opened AtomicFifo
  import opened TicketRing
  import opened RingLimits
  import opened RingRefinement
  import opened Sums

  /** The ring, and for each thread how many operations its loop has begun. Threads 0..P-1 are
      the producers, threads P..2P-1 the consumers. */
  datatype Bench = Bench(ring: Ring, i: seq<nat>)

  /** MAX_SIZE, CUR_NUM_THREADS, the operations of one thread, and the order of the gate's loads. */
  datatype Config = Config(n: nat, p: nat, m: nat, tailFirst: bool) {
    predicate Ok() { 0 < p && 0 < n && p * m <= n }
    function Gated(): Gate { WhenLappedAndEqual(tailFirst) }
  }

  /** What main sets up: MAX_SIZE is NUM_SAMPLES and each thread does NUM_SAMPLES / P operations. */
  function Latency(samples: nat, p: nat, tailFirst: bool): (c: Config)
    requires 0 < samples && 0 < p
    ensures c.Ok() && c.n == samples && c.p == p && c.tailFirst == tailFirst
    ensures p * c.m <= samples < p * (c.m + 1)
  {
    assert samples == p * (samples / p) + samples % p;
    Config(samples, p, samples / p, tailFirst)
  }

  ghost predicate Threads(c: Config, pcs: map<Tid, Pc>) {
    forall t: Tid :: t in pcs <==> t < 2 * c.p
  }

  ghost predicate Init(c: Config, b: Bench)
    requires c.Ok()
  {
    && TicketRing.Init(b.ring) && b.ring.N() == c.n
    && Threads(c, b.ring.pcs)
    && b.i == seq(2 * c.p, _ => 0)
  }

  /** Thread t still has work. */
  predicate Unfinished(c: Config, b: Bench, t: Tid)
    requires c.Ok()
  {
    t < |b.i| && t in b.ring.pcs && (b.ring.pcs[t] == Idle ==> b.i[t] < c.m)
  }

  /** The next action of thread t: begin the next operation of its loop, or go on with the current one. */
  function ActionOf(c: Config, b: Bench, t: Tid): Action
    requires c.Ok() && Unfinished(c, b, t)
  {
    if b.ring.pcs[t] != Idle then Run(t)
    else if t < c.p then CallEnqueue(t, b.i[t] + 1)
    else CallDequeue(t)
  }

  ghost function Next(c: Config, b: Bench, t: Tid): Bench
    requires c.Ok() && Unfinished(c, b, t) && Owned(b.ring)
  {
    var a := ActionOf(c, b, t);
    Bench(TicketRing.Next(c.Gated(), b.ring, a), if a.Run? then b.i else b.i[t := b.i[t] + 1])
  }

  /** Tickets thread t has taken in its i operations so far. */
  function TicketsOf(pc: Pc, i: nat): int {
    if pc.EnqTake? || pc.GateLapped? || pc.DeqTake? then i - 1 else i
  }

  /** The tickets of the threads lo .. lo + p - 1. */
  ghost function Tickets(c: Config, lo: nat, pcs: map<Tid, Pc>, i: seq<nat>): (xs: seq<int>)
    requires |i| == 2 * c.p && Threads(c, pcs) && lo <= c.p
    ensures |xs| == c.p && forall k :: 0 <= k < c.p ==> xs[k] == TicketsOf(pcs[lo + k], i[lo + k])
  {
    seq(c.p, k requires 0 <= k < c.p => TicketsOf(pcs[lo + k], i[lo + k]))
  }

  /** Producers are inside an enqueue of a positive element, consumers inside a dequeue; nobody is
      past the first test of the gate, so the gate never turns a dequeue away. */
  predicate Role(c: Config, t: Tid, pc: Pc) {
    match pc
    case Idle => true
    case EnqTake(v) => t < c.p && 0 < v
    case EnqStore(_, _) => t < c.p
    case GateHead => false
    case GateTail(_) => false
    case GateTailFirst => false
    case GateHeadLast(_) => false
    case _ => c.p <= t
  }

  /** Who is where, and that e and d count the tickets of all producers and of all consumers. */
  ghost predicate Counted(c: Config, pcs: map<Tid, Pc>, i: seq<nat>, e: nat, d: nat) {
    && |i| == 2 * c.p && Threads(c, pcs)
    && (forall t: Tid :: t in pcs ==> Role(c, t, pcs[t]) && i[t] <= c.m && (pcs[t] != Idle ==> 0 < i[t]))
    && e == Sum(Tickets(c, 0, pcs, i))
    && d == Sum(Tickets(c, c.p, pcs, i))
  }

  /** No ticket, issued or about to be, reaches the total. */
  lemma TicketsBounded(c: Config, pcs: map<Tid, Pc>, i: seq<nat>, e: nat, d: nat)
    requires Counted(c, pcs, i, e, d)
    ensures e <= c.p * c.m && d <= c.p * c.m
    ensures forall t: Tid :: t in pcs && pcs[t].EnqTake? ==> e < c.p * c.m
    ensures forall t: Tid :: t in pcs && pcs[t].DeqTake? ==> d < c.p * c.m
  {
    var es, ds := Tickets(c, 0, pcs, i), Tickets(c, c.p, pcs, i);
    SumAtMost(es, c.m);
    SumAtMost(ds, c.m);
    forall t: Tid | t in pcs && pcs[t].EnqTake? ensures e != c.p * c.m {
      assert Role(c, t, pcs[t]) && es[t] == TicketsOf(pcs[0 + t], i[0 + t]);
    }
    forall t: Tid | t in pcs && pcs[t].DeqTake? ensures d != c.p * c.m {
      assert Role(c, t, pcs[t]) && ds[t - c.p] == TicketsOf(pcs[c.p + (t - c.p)], i[c.p + (t - c.p)]);
    }
  }

  lemma OneCount(c: Config, lo: nat, pcs: map<Tid, Pc>, i: seq<nat>, t: Tid, pc: Pc, n: nat)
    requires |i| == 2 * c.p && Threads(c, pcs) && lo <= c.p && t < 2 * c.p
    ensures var xs := Tickets(c, lo, pcs, i);
      Tickets(c, lo, pcs[t := pc], i[t := n]) == if lo <= t < lo + c.p then xs[t - lo := TicketsOf(pc, n)] else xs
  {
    var xs, xs' := Tickets(c, lo, pcs, i), Tickets(c, lo, pcs[t := pc], i[t := n]);
    forall k | 0 <= k < c.p && lo + k != t ensures xs'[k] == xs[k] {}
  }

  /** A thread that moves changes the count of its own side by the tickets it takes. */
  lemma CountedStep(c: Config, pcs: map<Tid, Pc>, i: seq<nat>, e: nat, d: nat, t: Tid, pc: Pc, n: nat)
    requires Counted(c, pcs, i, e, d) && t in pcs
    requires Role(c, t, pc) && n <= c.m && (pc != Idle ==> 0 < n)
    ensures var x := TicketsOf(pc, n) - TicketsOf(pcs[t], i[t]);
      var e', d' := if t < c.p then e + x else e, if t < c.p then d else d + x;
      0 <= e' && 0 <= d' ==> Counted(c, pcs[t := pc], i[t := n], e', d')
  {
    var es, ds := Tickets(c, 0, pcs, i), Tickets(c, c.p, pcs, i);
    if t < c.p {
      SumUpdate(es, t, TicketsOf(pc, n));
      OneCount(c, 0, pcs, i, t, pc, n);
      OneCount(c, c.p, pcs, i, t, pc, n);
    } else {
      SumUpdate(ds, t - c.p, TicketsOf(pc, n));
      OneCount(c, 0, pcs, i, t, pc, n);
      OneCount(c, c.p, pcs, i, t, pc, n);
    }
  }

  ghost predicate Inv(c: Config, b: Bench) {
    && Matched(b.ring) && b.ring.N() == c.n
    && (forall k :: 0 <= k < |b.ring.enq| ==> 0 < b.ring.enq[k].v)
    && Counted(c, b.ring.pcs, b.i, |b.ring.enq|, |b.ring.deq|)
  }

  lemma InitInv(c: Config, b: Bench)
    requires c.Ok() && Init(c, b)
    ensures Inv(c, b)
  {
    InitMatched(b.ring);
    SumConstant(Tickets(c, 0, b.ring.pcs, b.i), 0);
    SumConstant(Tickets(c, c.p, b.ring.pcs, b.i), 0);
  }

  /** The harness discharges the no-lapping hypothesis, so everything proved of the ring applies. */
  lemma NeverLapsHere(c: Config, b: Bench, t: Tid)
    requires c.Ok() && Inv(c, b) && Unfinished(c, b, t)
    ensures NoLap(b.ring, ActionOf(c, b, t))
  {
    TicketsBounded(c, b.ring.pcs, b.i, |b.ring.enq|, |b.ring.deq|);
  }

  lemma InvNext(c: Config, b: Bench, t: Tid)
    requires c.Ok() && Inv(c, b) && Unfinished(c, b, t)
    ensures Inv(c, Next(c, b, t))
  {
    var b' := Next(c, b, t);
    NeverLapsHere(c, b, t);
    MatchedNext(c.Gated(), b.ring, ActionOf(c, b, t));
    TicketsBounded(c, b.ring.pcs, b.i, |b.ring.enq|, |b.ring.deq|);
    CountedNext(c, b, t);
  }

  lemma CountedNext(c: Config, b: Bench, t: Tid)
    requires c.Ok() && Owned(b.ring) && b.ring.N() == c.n && Unfinished(c, b, t)
    requires Counted(c, b.ring.pcs, b.i, |b.ring.enq|, |b.ring.deq|) && |b.ring.enq| <= c.n
    ensures var b' := Next(c, b, t); Counted(c, b'.ring.pcs, b'.i, |b'.ring.enq|, |b'.ring.deq|)
  {
    var b' := Next(c, b, t);
    assert Role(c, t, b.ring.pcs[t]);
    CountedStep(c, b.ring.pcs, b.i, |b.ring.enq|, |b.ring.deq|, t, b'.ring.pcs[t], b'.i[t]);
    assert b'.i == b.i[t := b'.i[t]];
    assert b'.ring.pcs == b.ring.pcs[t := b'.ring.pcs[t]];
  }

  /** If anybody has work left, somebody can take a step that is not a turn of a spin. */
  lemma NeverStuck(c: Config, b: Bench, t: Tid) returns (u: Tid)
    requires c.Ok() && Inv(c, b) && Unfinished(c, b, t)
    ensures Unfinished(c, b, u) && Next(c, b, u) != b
  {
    var r := b.ring;
    if u0: Tid :| u0 < c.p && Unfinished(c, b, u0) {
      u := u0;
      assert Role(c, u, r.pcs[u]) && HoldsTicket(r, u, r.pcs[u]);
      assert r.pcs[u] != Idle ==> Next(c, b, u).ring.pcs[u] != r.pcs[u];
    } else {
      u := t;
      assert Role(c, t, r.pcs[t]) && HoldsTicket(r, t, r.pcs[t]);
      if r.pcs[t].DeqSpin? {
        AllEnqueued(c, b);
        TicketsBounded(c, r.pcs, b.i, |r.enq|, |r.deq|);
        SpinEnds(c.Gated(), r, t);
      } else {
        assert r.pcs[t] != Idle ==> Next(c, b, t).ring.pcs[t] != r.pcs[t];
      }
    }
  }

  /** Once the producers are finished, all p * m elements are in their slots or gone. */
  lemma AllEnqueued(c: Config, b: Bench)
    requires c.Ok() && Inv(c, b) && forall t: Tid :: t < c.p ==> !Unfinished(c, b, t)
    ensures |b.ring.enq| == c.p * c.m
    ensures forall k :: 0 <= k < |b.ring.enq| ==> b.ring.enq[k].stored
  {
    var r := b.ring;
    var es := Tickets(c, 0, r.pcs, b.i);
    forall k | 0 <= k < c.p ensures es[k] == c.m {
      assert es[k] == TicketsOf(r.pcs[0 + k], b.i[0 + k]) && !Unfinished(c, b, k);
    }
    SumConstant(es, c.m);
    forall t: Tid | t in r.pcs ensures !r.pcs[t].EnqStore? {
      assert Role(c, t, r.pcs[t]) && (t < c.p ==> !Unfinished(c, b, t));
    }
  }

  /** Shared-memory accesses left in the current operation, and nine for each operation to come. */
  function Rank(pc: Pc): nat {
    match pc
    case EnqTake(_) => 2
    case EnqStore(_, _) => 1
    case GateLapped => 7
    case GateHead => 6
    case GateTail(_) => 5
    case GateTailFirst => 6
    case GateHeadLast(_) => 5
    case DeqTake => 4
    case DeqSpin(_) => 3
    case DeqRead(_) => 2
    case DeqZero(_, _) => 1
    case Idle => 0
  }

  ghost function Work(c: Config, pcs: map<Tid, Pc>, i: seq<nat>): (xs: seq<int>)
    requires |i| == 2 * c.p && Threads(c, pcs)
    ensures |xs| == 2 * c.p
    ensures forall t :: 0 <= t < 2 * c.p ==> xs[t] == 9 * (c.m - i[t]) + Rank(pcs[t])
  {
    seq(2 * c.p, t requires 0 <= t < 2 * c.p => 9 * (c.m - i[t]) + Rank(pcs[t]))
  }

  ghost function Measure(c: Config, b: Bench): (n: int)
    requires |b.i| == 2 * c.p && Threads(c, b.ring.pcs)
  {
    Sum(Work(c, b.ring.pcs, b.i))
  }

  lemma MeasureNonNegative(c: Config, b: Bench)
    requires Inv(c, b)
    ensures 0 <= Measure(c, b)
  {
    SumAtLeastZero(Work(c, b.ring.pcs, b.i));
  }

  lemma RankDrops(g: Gate, r: Ring, t: Tid)
    requires Owned(r) && t in r.pcs && r.pcs[t] != Idle && TicketRing.Next(g, r, Run(t)) != r
    ensures var pc := TicketRing.Next(g, r, Run(t)).pcs[t]; Rank(pc) < Rank(r.pcs[t])
  {
  }

  /** A thread's step changes only its own program point. */
  lemma OthersStay(g: Gate, r: Ring, a: Action)
    requires Owned(r) && Enabled(r, a)
    ensures var r' := TicketRing.Next(g, r, a); r'.pcs == r.pcs[a.t := r'.pcs[a.t]]
    ensures !a.Run? ==> Rank(TicketRing.Next(g, r, a).pcs[a.t]) <= 7
  {
    assert r.pcs == r.pcs[a.t := r.pcs[a.t]];
  }

  /** Every step but a turn of a spin brings the run closer to its end. */
  lemma MeasureDecreases(c: Config, b: Bench, t: Tid)
    requires Owned(b.ring) && c.Ok() && Unfinished(c, b, t) && Next(c, b, t) != b
    requires |b.i| == 2 * c.p && Threads(c, b.ring.pcs)
    ensures var b' := Next(c, b, t); |b'.i| == 2 * c.p && Threads(c, b'.ring.pcs) && Measure(c, b') < Measure(c, b)
  {
    var b' := Next(c, b, t);
    var a := ActionOf(c, b, t);
    OthersStay(c.Gated(), b.ring, a);
    if a.Run? {
      RankDrops(c.Gated(), b.ring, t);
    }
    assert b'.i == b.i[t := b'.i[t]];
    MeasureStep(c, b.ring.pcs, b.i, t, b'.ring.pcs[t], b'.i[t]);
  }

  lemma MeasureStep(c: Config, pcs: map<Tid, Pc>, i: seq<nat>, t: Tid, pc: Pc, n: nat)
    requires |i| == 2 * c.p && Threads(c, pcs) && t < 2 * c.p
    requires 9 * (c.m - n) + Rank(pc) < 9 * (c.m - i[t]) + Rank(pcs[t])
    ensures Threads(c, pcs[t := pc]) && Sum(Work(c, pcs[t := pc], i[t := n])) < Sum(Work(c, pcs, i))
  {
    var w, x := Work(c, pcs, i), 9 * (c.m - n) + Rank(pc);
    var w' := Work(c, pcs[t := pc], i[t := n]);
    forall u | 0 <= u < 2 * c.p ensures w'[u] == w[t := x][u] {}
    assert w' == w[t := x];
    SumUpdate(w, t, x);
  }

  /** When every thread has finished its loop: as many tickets on both sides, every slot zero, and
      what was returned is what was enqueued, in ticket order and so as a multiset. */
  lemma FinalState(c: Config, b: Bench)
    requires c.Ok() && Inv(c, b) && forall t: Tid :: t < 2 * c.p ==> !Unfinished(c, b, t)
    ensures b.ring.head == b.ring.tail == c.p * c.m - 1
    ensures forall i :: 0 <= i < c.n ==> b.ring.slots[i] == 0
    ensures Results(b.ring) == Values(b.ring.enq)
    ensures multiset(Results(b.ring)) == multiset(Values(b.ring.enq))
  {
    var r := b.ring;
    AllEnqueued(c, b);
    var ds := Tickets(c, c.p, r.pcs, b.i);
    forall k | 0 <= k < c.p ensures ds[k] == c.m {
      assert ds[k] == TicketsOf(r.pcs[c.p + k], b.i[c.p + k]) && !Unfinished(c, b, c.p + k);
    }
    SumConstant(ds, c.m);
    forall t: Tid | t in r.pcs ensures r.pcs[t] == Idle {
      assert !Unfinished(c, b, t);
    }
    forall k | 0 <= k < |r.deq| ensures Done(r, k) {
      assert !DeqHolds(Idle, k);
    }
    forall i | 0 <= i < c.n ensures r.slots[i] == 0 {
      assert SlotOk(r, i);
    }
  }

  /** The results by dequeue ticket; zero for a ticket that has none yet. */
  function Results(s: Ring): (vs: seq<int>)
    ensures |vs| == |s.deq|
  {
    seq(|s.deq|, k requires 0 <= k < |s.deq| => if s.deq[k].result.Some? then s.deq[k].result.value else 0)
  }

  /** A run of the harness under the schedule `ts`. */
  ghost predicate IsBenchRun(c: Config, states: seq<Bench>, ts: seq<Tid>)
    requires c.Ok()
  {
    && |states| == |ts| + 1 && Init(c, states[0])
    && forall i :: 0 <= i < |ts| ==>
         Unfinished(c, states[i], ts[i]) && (Owned(states[i].ring) ==> states[i + 1] == Next(c, states[i], ts[i]))
  }

  /** Steps among the first n that are not turns of a spin. */
  ghost function Effective(states: seq<Bench>, n: nat): nat
    requires n < |states|
  {
    if n == 0 then 0 else Effective(states, n - 1) + if states[n] != states[n - 1] then 1 else 0
  }

  lemma {:induction false} InvAlways(c: Config, states: seq<Bench>, ts: seq<Tid>, n: nat)
    requires c.Ok() && IsBenchRun(c, states, ts) && n < |states|
    ensures Inv(c, states[n])
  {
    if n == 0 {
      InitInv(c, states[0]);
    } else {
      InvAlways(c, states, ts, n - 1);
      InvNext(c, states[n - 1], ts[n - 1]);
    }
  }

  lemma MeasureAtStart(c: Config, b: Bench)
    requires c.Ok() && Init(c, b)
    ensures Measure(c, b) == 2 * c.p * (9 * c.m)
  {
    SumConstant(Work(c, b.ring.pcs, b.i), 9 * c.m);
  }

  lemma MeasureStays(c: Config, b: Bench, t: Tid, b': Bench)
    requires c.Ok() && Inv(c, b) && Unfinished(c, b, t) && b' == Next(c, b, t)
    ensures |b'.i| == 2 * c.p && Threads(c, b'.ring.pcs)
    ensures Measure(c, b') <= Measure(c, b) - if b' != b then 1 else 0
  {
    if b' != b { MeasureDecreases(c, b, t); }
  }

  lemma {:induction false} EffectiveBounded(c: Config, states: seq<Bench>, ts: seq<Tid>, n: nat)
    requires c.Ok() && IsBenchRun(c, states, ts) && n < |states|
    ensures |states[n].i| == 2 * c.p && Threads(c, states[n].ring.pcs)
    ensures Effective(states, n) + Measure(c, states[n]) <= 2 * c.p * (9 * c.m)
  {
    if n == 0 {
      InvAlways(c, states, ts, 0);
      MeasureAtStart(c, states[0]);
    } else {
      EffectiveBounded(c, states, ts, n - 1);
      InvAlways(c, states, ts, n - 1);
      MeasureStays(c, states[n - 1], ts[n - 1], states[n]);
    }
  }

  /** Inside the gate's comparison of `head` and `tail`. */
  predicate PastFirstTest(pc: Pc) {
    pc.GateHead? || pc.GateTail? || pc.GateTailFirst? || pc.GateHeadLast?
  }

  /** Every schedule: no ticket reaches MAX_SIZE, no dequeue is turned away by the gate, and apart
      from spinning the whole run takes at most 18 * p * m steps. */
  lemma EveryRun(c: Config, states: seq<Bench>, ts: seq<Tid>, n: nat)
    requires c.Ok() && IsBenchRun(c, states, ts) && n < |states|
    ensures states[n].ring.tail < c.n && states[n].ring.head < c.n
    ensures forall t :: t in states[n].ring.pcs ==> !PastFirstTest(states[n].ring.pcs[t])
    ensures Effective(states, n) <= 2 * c.p * (9 * c.m)
  {
    var b := states[n];
    InvAlways(c, states, ts, n);
    EffectiveBounded(c, states, ts, n);
    MeasureNonNegative(c, b);
    TicketsBounded(c, b.ring.pcs, b.i, |b.ring.enq|, |b.ring.deq|);
    forall t | t in b.ring.pcs ensures !PastFirstTest(b.ring.pcs[t]) {
      assert Role(c, t, b.ring.pcs[t]);
    }
  }
}
