/** What the producers of the ring benchmark put into the ring: each its own 1, 2, .. , in order. */
module RingProducers {
  import opened AtomicFifo
  import opened TicketRing
  import opened RingBenchmark
  import RingRefinement

  /** The elements of producer t, by ticket. */
  function ByOwner(enq: seq<EnqTicket>, t: Tid): seq<int> {
    if enq == [] then []
    else
      var rest, last := ByOwner(enq[..|enq| - 1], t), enq[|enq| - 1];
      if last.owner == t then rest + [last.v] else rest
  }

  function UpTo(n: nat): seq<int> { seq(n, k => k + 1) }

  lemma ByOwnerTake(enq: seq<EnqTicket>, x: EnqTicket, t: Tid)
    ensures ByOwner(enq + [x], t) == if x.owner == t then ByOwner(enq, t) + [x.v] else ByOwner(enq, t)
  {
    assert (enq + [x])[..|enq|] == enq;
  }

  lemma {:induction false} ByOwnerStore(enq: seq<EnqTicket>, k: nat, t: Tid)
    requires k < |enq|
    ensures ByOwner(enq[k := enq[k].(stored := true)], t) == ByOwner(enq, t)
  {
    var n, enq' := |enq| - 1, enq[k := enq[k].(stored := true)];
    if k < n {
      assert enq'[..n] == enq[..n][k := enq[..n][k].(stored := true)];
      ByOwnerStore(enq[..n], k, t);
    } else {
      assert enq'[..n] == enq[..n];
    }
  }

  /** Producer t, at pc in its i-th operation, has issued the tickets of 1, 2, .. so far. */
  ghost predicate ProducerInOrder(enq: seq<EnqTicket>, t: Tid, pc: Pc, i: nat) {
    && 0 <= TicketsOf(pc, i) && ByOwner(enq, t) == UpTo(TicketsOf(pc, i))
    && (pc.EnqTake? ==> pc.v == i)
  }

  ghost predicate InOrder(c: Config, b: Bench)
    requires c.Ok()
  {
    && |b.i| == 2 * c.p && Threads(c, b.ring.pcs)
    && (forall t: Tid :: t < c.p ==> ProducerInOrder(b.ring.enq, t, b.ring.pcs[t], b.i[t]))
    && forall k :: 0 <= k < |b.ring.enq| ==> b.ring.enq[k].owner < c.p
  }

  /** The access of a producer, seen from producer u. */
  lemma EnqueuerStep(g: Gate, r: Ring, a: Action, u: Tid, i: nat)
    requires Owned(r) && Enabled(r, a) && u in r.pcs && ProducerInOrder(r.enq, u, r.pcs[u], i)
    requires a.CallEnqueue? || (a.Run? && (r.pcs[a.t].EnqTake? || r.pcs[a.t].EnqStore?))
    requires a.t == u && a.CallEnqueue? ==> a.v == i + 1
    ensures var r' := TicketRing.Next(g, r, a);
      u in r'.pcs && ProducerInOrder(r'.enq, u, r'.pcs[u], if a.t == u && a.CallEnqueue? then i + 1 else i)
  {
    if a.Run? && r.pcs[a.t].EnqTake? {
      ByOwnerTake(r.enq, EnqTicket(r.pcs[a.t].v, a.t, false), u);
    } else if a.Run? {
      assert HoldsTicket(r, a.t, r.pcs[a.t]);
      ByOwnerStore(r.enq, r.pcs[a.t].k, u);
    }
  }

  lemma InOrderNext(c: Config, b: Bench, t: Tid)
    requires c.Ok() && RingBenchmark.Inv(c, b) && InOrder(c, b) && Unfinished(c, b, t)
    ensures InOrder(c, RingBenchmark.Next(c, b, t))
  {
    var b', a := RingBenchmark.Next(c, b, t), ActionOf(c, b, t);
    assert Role(c, t, b.ring.pcs[t]);
    OthersStay(c.Gated(), b.ring, a);
    if t < c.p {
      forall u: Tid | u < c.p ensures ProducerInOrder(b'.ring.enq, u, b'.ring.pcs[u], b'.i[u]) {
        EnqueuerStep(c.Gated(), b.ring, a, u, b.i[u]);
      }
    } else {
      ConsumersEnqueueNothing(c.Gated(), b.ring, a);
    }
  }

  lemma ConsumersEnqueueNothing(g: Gate, r: Ring, a: Action)
    requires Owned(r) && Enabled(r, a) && !a.CallEnqueue?
    requires a.Run? ==> !r.pcs[a.t].EnqTake? && !r.pcs[a.t].EnqStore?
    ensures TicketRing.Next(g, r, a).enq == r.enq
  {
  }

  lemma {:induction false} InOrderAlways(c: Config, states: seq<Bench>, ts: seq<Tid>, n: nat)
    requires c.Ok() && IsBenchRun(c, states, ts) && n < |states|
    ensures InOrder(c, states[n])
  {
    if n > 0 {
      InOrderAlways(c, states, ts, n - 1);
      InvAlways(c, states, ts, n - 1);
      InOrderNext(c, states[n - 1], ts[n - 1]);
    }
  }

  /** The end of any run: what the dequeues have returned, in ticket order, is an interleaving of the
      producers' sequences 1 .. m, one from each producer, each in order. */
  lemma FinalElements(c: Config, states: seq<Bench>, ts: seq<Tid>, n: nat, t: Tid)
    requires c.Ok() && IsBenchRun(c, states, ts) && n < |states| && t < c.p
    requires forall u: Tid :: u < 2 * c.p ==> !Unfinished(c, states[n], u)
    ensures Results(states[n].ring) == RingRefinement.Values(states[n].ring.enq)
    ensures ByOwner(states[n].ring.enq, t) == UpTo(c.m)
    ensures forall k :: 0 <= k < |states[n].ring.enq| ==> states[n].ring.enq[k].owner < c.p
  {
    var b := states[n];
    InvAlways(c, states, ts, n);
    InOrderAlways(c, states, ts, n);
    FinalState(c, b);
    assert ProducerInOrder(b.ring.enq, t, b.ring.pcs[t], b.i[t]) && !Unfinished(c, b, t);
  }
}
