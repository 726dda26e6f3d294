/** How far the ring's promise reaches: when a spin ends, and what a missing full check costs. */
module RingLimits {
  import opened AtomicFifo
  import opened TicketRing
  import opened RingRefinement
  import Slots

  /** From the end of the spin to the clearing of the slot, the slot holds the dequeuer's own element. */
  lemma SlotStable(s: Ring, t: Tid)
    requires Matched(s) && t in s.pcs && (s.pcs[t].DeqRead? || s.pcs[t].DeqZero?)
    ensures var k := s.pcs[t].k;
      && k < |s.enq| && s.enq[k].stored
      && s.slots[k % s.N()] == s.enq[k].v
      && (s.pcs[t].DeqZero? ==> s.pcs[t].e == s.enq[k].v)
  {
    assert HasFound(s, s.pcs[t]) && SlotOk(s, s.pcs[t].k % s.N());
  }

  /** A spinning dequeuer gets through exactly when its element is stored and is not zero. */
  lemma SpinEnds(g: Gate, s: Ring, t: Tid)
    requires Matched(s) && t in s.pcs && s.pcs[t].DeqSpin?
    ensures var k := s.pcs[t].k;
      Next(g, s, Run(t)) != s <==> k < |s.enq| && s.enq[k].stored && s.enq[k].v != 0
  {
    var k := s.pcs[t].k;
    assert HoldsTicket(s, t, s.pcs[t]);
    OnlyOwnElement(s, k);
    assert SlotOk(s, k % s.N());
    assert Live(s, k) <==> k < |s.enq| && s.enq[k].stored;
    assert Next(g, s, Run(t)) == s || Next(g, s, Run(t)).pcs[t] == DeqRead(k);
  }

  /** A zero element is never delivered: the dequeuer of its ticket never finishes. */
  lemma ZeroNeverDelivered(g: Gate, states: seq<Ring>, actions: seq<Action>, i: nat, k: nat)
    requires IsRingRun(g, states, actions) && NeverLaps(states, actions) && i < |states|
    requires k < |states[i].enq| && states[i].enq[k].v == 0
    ensures !Done(states[i], k)
  {
    MatchedAlways(g, states, actions, i);
  }

  /** isQueueFull. */
  predicate IsQueueFull(s: Ring) { s.tail - s.N() >= s.head }

  /** No thread is inside an operation. */
  predicate Quiescent(s: Ring) {
    forall t :: t in s.pcs ==> s.pcs[t] == Idle
  }

  /** Thread t runs n steps with nobody else running. */
  ghost function Alone(g: Gate, s: Ring, t: Tid, n: nat): (r: Ring)
    requires Owned(s) && t in s.pcs && s.pcs[t] != Idle
    decreases n
  {
    if n == 0 then s
    else
      var s1 := Next(g, s, Run(t));
      assert Owned(s1) by { OwnedNext(g, s, Run(t)); }
      if s1.pcs[t] == Idle then s1 else Alone(g, s1, t, n - 1)
  }

  /** The two steps of an enqueue that meets nobody. */
  ghost function EnqueueAlone(g: Gate, s: Ring, t: Tid, v: int): Ring
    requires Owned(s) && t in s.pcs && s.pcs[t] == Idle
  {
    Alone(g, Next(g, s, CallEnqueue(t, v)), t, 2)
  }

  /** The four steps of an ungated dequeue that meets nobody, up to the clearing of its slot. */
  ghost function DequeueAlone(s: Ring, t: Tid): Ring
    requires Owned(s) && t in s.pcs && s.pcs[t] == Idle
  {
    Alone(Ungated, Next(Ungated, s, CallDequeue(t)), t, 3)
  }

  lemma EnqueueAloneIs(g: Gate, s: Ring, t: Tid, v: int)
    requires Owned(s) && t in s.pcs && s.pcs[t] == Idle
    ensures var k := |s.enq|;
      EnqueueAlone(g, s, t, v) == s.(tail := k, slots := s.slots[k % s.N() := v],
        origin := s.origin[k % s.N() := Some(k)], enq := s.enq + [EnqTicket(v, t, true)])
  {
    var s1 := Next(g, s, CallEnqueue(t, v));
    var s2 := Next(g, s1, Run(t));
    var s3 := Next(g, s2, Run(t));
    assert EnqueueAlone(g, s, t, v) == Alone(g, s2, t, 1) == s3;
    assert s3.pcs == s.pcs;
  }

  lemma AloneUnfold(g: Gate, s: Ring, t: Tid, n: nat)
    requires Owned(s) && t in s.pcs && s.pcs[t] != Idle && 0 < n && Next(g, s, Run(t)).pcs[t] != Idle
    ensures Owned(Next(g, s, Run(t))) && Alone(g, s, t, n) == Alone(g, Next(g, s, Run(t)), t, n - 1)
  {
    OwnedNext(g, s, Run(t));
  }

  lemma DequeueAloneIs(s: Ring, u: Tid)
    requires Owned(s) && u in s.pcs && s.pcs[u] == Idle && s.slots[|s.deq| % s.N()] != 0
    ensures DequeueAlone(s, u).pcs[u] == DeqZero(|s.deq|, s.slots[|s.deq| % s.N()])
  {
    var d1 := Next(Ungated, s, CallDequeue(u));
    OwnedNext(Ungated, s, CallDequeue(u));
    AloneUnfold(Ungated, d1, u, 3);
    var d2 := Next(Ungated, d1, Run(u));
    assert d2.pcs[u] == DeqSpin(|s.deq|) && d2.slots == s.slots;
    AloneUnfold(Ungated, d2, u, 2);
    var d3 := Next(Ungated, d2, Run(u));
    assert d3.pcs[u] == DeqRead(|s.deq|) && d3.slots == s.slots;
    AloneUnfold(Ungated, d3, u, 1);
  }

  /** The dequeue ticket one lap before the next enqueue ticket has cleared its slot. */
  predicate SlotCleared(s: Ring) {
    s.N() <= |s.enq| ==> Done(s, |s.enq| - s.N())
  }

  lemma FullBreaks(g: Gate, s: Ring, t: Tid, v: int)
    requires Matched(s) && t in s.pcs && s.pcs[t] == Idle && !SlotCleared(s)
    ensures !Matched(EnqueueAlone(g, s, t, v))
  {
    var k, s3 := |s.enq|, EnqueueAlone(g, s, t, v);
    EnqueueAloneIs(g, s, t, v);
    Slots.NextLap(k - s.N(), s.N());
    assert SameSlot(s3.N(), k - s.N(), k) && !Done(s3, k - s.N());
  }

  lemma RoomKeeps(g: Gate, s: Ring, t: Tid, v: int)
    requires Matched(s) && t in s.pcs && s.pcs[t] == Idle && SlotCleared(s)
    ensures Matched(EnqueueAlone(g, s, t, v))
  {
    var s1 := Next(g, s, CallEnqueue(t, v));
    MatchedNext(g, s, CallEnqueue(t, v));
    assert SlotCleared(s1) by { assert Done(s1, |s.enq| - s.N()) <==> Done(s, |s.enq| - s.N()); }
    MatchedNext(g, s1, Run(t));
    var s2 := Next(g, s1, Run(t));
    MatchedNext(g, s2, Run(t));
    var s3 := Next(g, s2, Run(t));
    assert s1.pcs[t] == EnqTake(v) && s2.pcs[t] == EnqStore(|s.enq|, v) && s3.pcs[t] == Idle;
    assert Alone(g, s2, t, 1) == s3;
    assert Alone(g, s1, t, 2) == s3;
  }

  /** The exact condition for a whole enqueue, whatever the other threads are in the middle of. */
  lemma WholeEnqueueIsExact(g: Gate, s: Ring, t: Tid, v: int)
    requires Matched(s) && t in s.pcs && s.pcs[t] == Idle
    ensures Matched(EnqueueAlone(g, s, t, v)) <==> SlotCleared(s)
  {
    if SlotCleared(s) { RoomKeeps(g, s, t, v); } else { FullBreaks(g, s, t, v); }
  }

  /** When isQueueFull, which the code never tests, decides it: exactly unless the dequeue ticket one lap
      earlier has been taken and its dequeuer has not cleared the slot yet. */
  lemma FullIsExact(g: Gate, s: Ring, t: Tid, v: int)
    requires Matched(s) && t in s.pcs && s.pcs[t] == Idle
    ensures (Matched(EnqueueAlone(g, s, t, v)) <==> !IsQueueFull(s))
            <==> (0 <= |s.enq| - s.N() < |s.deq| ==> Done(s, |s.enq| - s.N()))
  {
    WholeEnqueueIsExact(g, s, t, v);
  }

  lemma FullIsOneLap(s: Ring)
    requires Matched(s) && IsQueueFull(s)
    ensures |s.enq| == |s.deq| + s.N()
  {
    if |s.enq| > |s.deq| + s.N() {
      Slots.NextLap(|s.deq|, s.N());
      assert SameSlot(s.N(), |s.deq|, |s.deq| + s.N());
    }
  }

  /** What goes wrong on a full ring, whatever the other threads are in the middle of: the next dequeue
      delivers the newest element, not the oldest. */
  lemma FullLosesOldest(g: Gate, s: Ring, t: Tid, u: Tid, v: int)
    requires Matched(s) && t in s.pcs && s.pcs[t] == Idle && u in s.pcs && s.pcs[u] == Idle && IsQueueFull(s) && v != 0
    ensures Owned(EnqueueAlone(g, s, t, v))
    ensures DequeueAlone(EnqueueAlone(g, s, t, v), u).pcs[u] == DeqZero(|s.deq|, v)
  {
    EnqueueAloneIs(g, s, t, v);
    var s3, h := EnqueueAlone(g, s, t, v), |s.deq|;
    FullIsOneLap(s);
    Slots.NextLap(h, s.N());
    assert s3.slots[h % s.N()] == v;
    DequeueAloneIs(s3, u);
  }
}
