/** No lapping is exactly what the ring needs, in every state and for any number of threads inside
    operations; what a lap breaks; and why isQueueFull is not a guard against it. */
module RingExact {
  import opened AtomicFifo
  import opened TicketRing
  import opened RingRefinement
  import opened RingLimits
  import Slots

  /** The exact condition, step by step: the matching of tickets survives if and only if the step does
      not lap. */
  lemma NoLapIsExact(g: Gate, s: Ring, a: Action)
    requires Matched(s) && Enabled(s, a)
    ensures Matched(Next(g, s, a)) <==> NoLap(s, a)
  {
    if NoLap(s, a) {
      MatchedNext(g, s, a);
    } else {
      var s', k := Next(g, s, a), if s.pcs[a.t].EnqTake? then |s.enq| else |s.deq|;
      Slots.NextLap(k - s.N(), s.N());
      assert SameSlot(s'.N(), k - s.N(), k) && !Done(s', k - s.N());
    }
  }

  /** And run by run. */
  lemma NeverLapsIsExact(g: Gate, states: seq<Ring>, actions: seq<Action>)
    requires IsRingRun(g, states, actions)
    ensures (forall i :: 0 <= i < |states| ==> Matched(states[i])) <==> NeverLaps(states, actions)
  {
    if NeverLaps(states, actions) {
      forall i | 0 <= i < |states| ensures Matched(states[i]) { MatchedAlways(g, states, actions, i); }
    }
    if forall i :: 0 <= i < |states| ==> Matched(states[i]) {
      forall i | 0 <= i < |actions| ensures actions[i].t in states[i].pcs && NoLap(states[i], actions[i]) {
        assert Matched(states[i]) && Matched(states[i + 1]);
        NoLapIsExact(g, states[i], actions[i]);
      }
    }
  }

  // What a lap breaks.

  /** The dequeuer of ticket k has read its slot and not yet cleared it. */
  predicate Fetched(s: Ring, k: int) {
    && 0 <= k < |s.deq| && s.deq[k].owner in s.pcs
    && s.pcs[s.deq[k].owner].DeqZero? && s.pcs[s.deq[k].owner].k == k
  }

  /** The element of ticket k was stored, nobody has read it, and it is in its slot no more. */
  predicate Lost(s: Ring, k: int)
    requires 0 < s.N() == |s.origin|
  {
    Live(s, k) && !Fetched(s, k) && s.origin[k % s.N()] != Some(k)
  }

  predicate WrongResult(s: Ring, k: int) {
    Done(s, k) && !(k < |s.enq| && s.deq[k].result == Some(s.enq[k].v))
  }

  /** Thread t is about to return something else than the element of its ticket. */
  predicate WrongRead(s: Ring, t: Tid) {
    t in s.pcs && s.pcs[t].DeqZero? && !(s.pcs[t].k < |s.enq| && s.pcs[t].e == s.enq[s.pcs[t].k].v)
  }

  /** An element is lost, or a dequeue has returned, or is about to return, another element than that of
      its ticket. */
  ghost predicate Broken(s: Ring)
    requires 0 < s.N() == |s.origin|
  {
    (exists k :: Lost(s, k)) || (exists k :: WrongResult(s, k)) || exists t :: WrongRead(s, t)
  }

  lemma MatchedSound(s: Ring)
    requires Matched(s)
    ensures !Broken(s)
  {
    forall t ensures !WrongRead(s, t) {
      if t in s.pcs { assert HasFound(s, s.pcs[t]); }
    }
  }

  lemma FetchedIsLive(s: Ring, k: int)
    requires Matched(s)
    ensures Fetched(s, k) ==> Live(s, k)
  {
    assert Fetched(s, k) ==> HasFound(s, s.pcs[s.deq[k].owner]);
  }

  /** The one step in which the ticket j of the same slot, a lap earlier, can do harm: its enqueuer
      stores at last, or its dequeuer clears the slot. */
  ghost function Followed(g: Gate, s: Ring, j: int): (r: Ring)
    requires Owned(s)
    ensures Owned(r)
  {
    if 0 <= j < |s.enq| && !s.enq[j].stored then
      OwnedNext(g, s, Run(s.enq[j].owner));
      Next(g, s, Run(s.enq[j].owner))
    else if Fetched(s, j) then
      OwnedNext(g, s, Run(s.deq[j].owner));
      Next(g, s, Run(s.deq[j].owner))
    else s
  }

  /** The two accesses of an enqueue from its add-and-fetch on. */
  ghost function Stored(g: Gate, s: Ring, t: Tid): (r: Ring)
    requires Owned(s) && t in s.pcs && s.pcs[t].EnqTake?
    ensures Owned(r)
  {
    OwnedNext(g, s, Run(t));
    var s1 := Next(g, s, Run(t));
    OwnedNext(g, s1, Run(t));
    Next(g, s1, Run(t))
  }

  lemma StoredIs(g: Gate, s: Ring, t: Tid)
    requires Owned(s) && t in s.pcs && s.pcs[t].EnqTake?
    ensures var k, v := |s.enq|, s.pcs[t].v;
      Stored(g, s, t) == s.(tail := k, slots := s.slots[k % s.N() := v], pcs := s.pcs[t := Idle],
        enq := s.enq + [EnqTicket(v, t, true)], origin := s.origin[k % s.N() := Some(k)])
  {
    var s1 := Next(g, s, Run(t));
    assert s1.pcs[t] == EnqStore(|s.enq|, s.pcs[t].v);
  }

  lemma LappedEnqueueBreaks(g: Gate, s: Ring, t: Tid)
    requires Matched(s) && t in s.pcs && s.pcs[t].EnqTake? && s.N() <= |s.enq| && !Done(s, |s.enq| - s.N())
    ensures Broken(Followed(g, Stored(g, s, t), |s.enq| - s.N()))
  {
    var k, j := |s.enq|, |s.enq| - s.N();
    StoredIs(g, s, t);
    Slots.NextLap(j, s.N());
    var s2 := Stored(g, s, t);
    var s3 := Followed(g, s2, j);
    FetchedIsLive(s, k);
    assert !Done(s, k);
    if s.enq[j].stored && !Fetched(s, j) {
      assert s3 == s2 && Lost(s3, j);
    } else {
      assert Live(s2, k) && !Fetched(s2, k);
      assert Lost(s3, k);
    }
  }

  /** Exactly when an enqueue does harm. With t at its add-and-fetch and k the ticket it will get:
      after its two accesses and at most one step of ticket k - N something is broken if and only if
      dequeue ticket k - N has not finished before. */
  lemma EnqueueHarmIsExact(g: Gate, s: Ring, t: Tid)
    requires Matched(s) && t in s.pcs && s.pcs[t].EnqTake?
    ensures Broken(Followed(g, Stored(g, s, t), |s.enq| - s.N())) <==> !NoLap(s, Run(t))
  {
    if NoLap(s, Run(t)) { EnqueueSafely(g, s, t); } else { LappedEnqueueBreaks(g, s, t); }
  }

  lemma EnqueueSafely(g: Gate, s: Ring, t: Tid)
    requires Matched(s) && t in s.pcs && s.pcs[t].EnqTake? && NoLap(s, Run(t))
    ensures !Broken(Followed(g, Stored(g, s, t), |s.enq| - s.N()))
  {
    var j := |s.enq| - s.N();
    MatchedNext(g, s, Run(t));
    var s1 := Next(g, s, Run(t));
    MatchedNext(g, s1, Run(t));
    var s2 := Next(g, s1, Run(t));
    FetchedIsLive(s2, j);
    assert Followed(g, s2, j) == s2;
    MatchedSound(s2);
  }

  /** If enqueue ticket j has been issued and its element not stored, it is stored now. */
  ghost function Delivered(g: Gate, s: Ring, j: int): (r: Ring)
    requires Owned(s)
    ensures Owned(r)
  {
    if 0 <= j < |s.enq| && !s.enq[j].stored then
      OwnedNext(g, s, Run(s.enq[j].owner));
      Next(g, s, Run(s.enq[j].owner))
    else s
  }

  /** Two more accesses of a dequeue that has just taken its ticket. */
  ghost function SpinAndRead(g: Gate, s: Ring, t: Tid): (r: Ring)
    requires Owned(s) && t in s.pcs && s.pcs[t].DeqSpin?
    ensures Owned(r)
  {
    OwnedNext(g, s, Run(t));
    var s1 := Next(g, s, Run(t));
    OwnedNext(g, s1, Run(t));
    Next(g, s1, Run(t))
  }

  lemma SpinAndReadIs(g: Gate, s: Ring, t: Tid)
    requires Owned(s) && t in s.pcs && s.pcs[t].DeqSpin?
    ensures var x := s.slots[s.pcs[t].k % s.N()];
      SpinAndRead(g, s, t) == if x == 0 then s else s.(pcs := s.pcs[t := DeqZero(s.pcs[t].k, x)])
  {
    var x := s.slots[s.pcs[t].k % s.N()];
    if x != 0 {
      var s1 := Next(g, s, Run(t));
      assert s1.pcs[t] == DeqRead(s.pcs[t].k) && s1.slots == s.slots;
      assert s1.pcs[t := DeqZero(s.pcs[t].k, x)] == s.pcs[t := DeqZero(s.pcs[t].k, x)];
    }
  }

  /** Three accesses of a dequeue from its add-and-fetch on. */
  ghost function Fetching(g: Gate, s: Ring, t: Tid): (r: Ring)
    requires Owned(s) && t in s.pcs && s.pcs[t].DeqTake?
    ensures Owned(r)
  {
    OwnedNext(g, s, Run(t));
    SpinAndRead(g, Next(g, s, Run(t)), t)
  }

  /** A ticket alone, of a dequeue, breaks nothing yet, lapping or not. */
  lemma TicketAloneSound(g: Gate, s: Ring, t: Tid)
    requires Matched(s) && t in s.pcs && s.pcs[t].DeqTake?
    ensures !Broken(Next(g, s, Run(t)))
  {
    var s' := Next(g, s, Run(t));
    MatchedSound(s);
    forall k ensures !Lost(s', k) { assert !Lost(s, k); FetchedIsLive(s, k); }
    forall k ensures !WrongResult(s', k) { assert !WrongResult(s, k); }
    forall u ensures !WrongRead(s', u) { assert !WrongRead(s, u); }
  }

  /** A lapping dequeue ticket is harmed by the element of the ticket a lap earlier, if it comes. */
  predicate Harms(s: Ring, a: Action)
    requires a.t in s.pcs && 0 < s.N()
  {
    var j := |s.deq| - s.N();
    !NoLap(s, a) && 0 <= j < |s.enq| && s.enq[j].v != 0
  }

  /** A delivery keeps the matching and changes neither the dequeue tickets nor the elements. */
  lemma DeliveredMatched(g: Gate, s: Ring, t: Tid, j: int)
    requires Matched(s) && t in s.pcs && s.pcs[t].DeqTake?
    ensures var d := Delivered(g, s, j);
      && Matched(d) && t in d.pcs && d.pcs[t].DeqTake? && d.deq == s.deq && |d.enq| == |s.enq| && d.N() == s.N()
      && (0 <= j < |s.enq| ==> d.enq[j].stored && d.enq[j].v == s.enq[j].v)
      && (j == |s.deq| - s.N() ==> (Harms(d, Run(t)) <==> Harms(s, Run(t))))
  {
    if 0 <= j < |s.enq| && !s.enq[j].stored {
      MatchedStore(g, s, Run(s.enq[j].owner));
    }
    var k := |s.deq| - s.N();
    assert Done(Delivered(g, s, j), k) <==> Done(s, k);
  }

  /** What the slot of ticket j, still unserved and delivered if ever, holds. */
  lemma SlotOfUnserved(s: Ring, j: int)
    requires Matched(s) && 0 <= j < |s.deq| && !Done(s, j) && (j < |s.enq| ==> s.enq[j].stored)
    ensures s.slots[j % s.N()] == if j < |s.enq| then s.enq[j].v else 0
  {
    OnlyOwnElement(s, j);
    assert SlotOk(s, j % s.N());
  }

  /** Where the three accesses end. */
  lemma FetchingIs(g: Gate, d: Ring, t: Tid)
    requires Owned(d) && t in d.pcs && d.pcs[t].DeqTake?
    ensures var x, s2 := d.slots[|d.deq| % d.N()], Next(g, d, Run(t));
      Fetching(g, d, t) == if x == 0 then s2 else s2.(pcs := s2.pcs[t := DeqZero(|d.deq|, x)])
  {
    OwnedNext(g, d, Run(t));
    var s2 := Next(g, d, Run(t));
    assert s2.pcs[t] == DeqSpin(|d.deq|) && s2.slots == d.slots;
    SpinAndReadIs(g, s2, t);
  }

  /** The slot that a lapping dequeue ticket will look at. */
  lemma SlotOfLapping(d: Ring, t: Tid)
    requires Matched(d) && t in d.pcs && d.pcs[t].DeqTake? && !NoLap(d, Run(t))
    requires var j := |d.deq| - d.N(); 0 <= j < |d.enq| ==> d.enq[j].stored
    ensures var j := |d.deq| - d.N();
      0 <= j && d.slots[|d.deq| % d.N()] == (if j < |d.enq| then d.enq[j].v else 0) && |d.enq| <= |d.deq|
  {
    var k, j := |d.deq|, |d.deq| - d.N();
    SlotOfUnserved(d, j);
    Slots.NextLap(j, d.N());
    if k < |d.enq| { assert SameSlot(d.N(), j, k); }
  }

  lemma FetchWrong(g: Gate, d: Ring, t: Tid)
    requires Matched(d) && t in d.pcs && d.pcs[t].DeqTake? && Harms(d, Run(t)) && d.enq[|d.deq| - d.N()].stored
    ensures Broken(Fetching(g, d, t))
  {
    SlotOfLapping(d, t);
    FetchingIs(g, d, t);
    assert WrongRead(Fetching(g, d, t), t);
  }

  lemma FetchSafely(g: Gate, d: Ring, t: Tid)
    requires Matched(d) && t in d.pcs && d.pcs[t].DeqTake? && NoLap(d, Run(t))
    ensures !Broken(Fetching(g, d, t))
  {
    MatchedNext(g, d, Run(t));
    SpinAndReadMatched(g, Next(g, d, Run(t)), t);
  }

  lemma SpinAndReadMatched(g: Gate, s: Ring, t: Tid)
    requires Matched(s) && t in s.pcs && s.pcs[t].DeqSpin?
    ensures !Broken(SpinAndRead(g, s, t))
  {
    MatchedNext(g, s, Run(t));
    var s1 := Next(g, s, Run(t));
    MatchedNext(g, s1, Run(t));
    MatchedSound(Next(g, s1, Run(t)));
  }

  lemma FetchNothing(g: Gate, d: Ring, t: Tid)
    requires Matched(d) && t in d.pcs && d.pcs[t].DeqTake? && !NoLap(d, Run(t)) && !Harms(d, Run(t))
    requires var j := |d.deq| - d.N(); 0 <= j < |d.enq| ==> d.enq[j].stored
    ensures !Broken(Fetching(g, d, t))
  {
    SlotOfLapping(d, t);
    assert d.slots[|d.deq| % d.N()] == 0;
    FetchingIs(g, d, t);
    TicketAloneSound(g, d, t);
  }

  lemma FetchExactly(g: Gate, d: Ring, t: Tid)
    requires Matched(d) && t in d.pcs && d.pcs[t].DeqTake?
    requires var j := |d.deq| - d.N(); 0 <= j < |d.enq| ==> d.enq[j].stored
    ensures Broken(Fetching(g, d, t)) <==> Harms(d, Run(t))
  {
    if Harms(d, Run(t)) {
      FetchWrong(g, d, t);
    } else if NoLap(d, Run(t)) {
      FetchSafely(g, d, t);
    } else {
      FetchNothing(g, d, t);
    }
  }

  /** Exactly when a dequeue does harm. With t at its add-and-fetch and k the ticket it will get: its
      three accesses, once the element of ticket k - N is delivered if issued, bring it to return a wrong
      element if and only if dequeue ticket k - N has not finished before and its element, not zero, has
      been issued. */
  lemma DequeueHarmIsExact(g: Gate, s: Ring, t: Tid)
    requires Matched(s) && t in s.pcs && s.pcs[t].DeqTake?
    ensures var d := Delivered(g, s, |s.deq| - s.N());
      t in d.pcs && d.pcs[t].DeqTake? && (Broken(Fetching(g, d, t)) <==> Harms(s, Run(t)))
  {
    DeliveredMatched(g, s, t, |s.deq| - s.N());
    FetchExactly(g, Delivered(g, s, |s.deq| - s.N()), t);
  }

  // What an observer sees of it: one element is delivered twice.

  /** The dequeuer u, past its add-and-fetch, goes on until it has read its slot. */
  ghost function ReadToo(g: Gate, s: Ring, u: Tid): (r: Ring)
    requires Owned(s) && u in s.pcs
    ensures Owned(r)
  {
    if s.pcs[u].DeqSpin? then SpinAndRead(g, s, u)
    else if s.pcs[u].DeqRead? then
      OwnedNext(g, s, Run(u));
      Next(g, s, Run(u))
    else s
  }

  lemma ReadTooIs(g: Gate, s: Ring, u: Tid, j: nat, x: int)
    requires Owned(s) && u in s.pcs && DeqHolds(s.pcs[u], j) && s.slots[j % s.N()] == x != 0
    requires s.pcs[u].DeqZero? ==> s.pcs[u].e == x
    ensures ReadToo(g, s, u) == s.(pcs := s.pcs[u := DeqZero(j, x)])
  {
    if s.pcs[u].DeqSpin? {
      SpinAndReadIs(g, s, u);
    } else if s.pcs[u].DeqZero? {
      assert s.pcs[u := DeqZero(j, x)] == s.pcs;
    }
  }

  /** The next access of u returns x, and then the next access of t returns x too. */
  ghost predicate BothReturn(g: Gate, s: Ring, u: Tid, t: Tid, x: int)
    requires Owned(s)
  {
    && Enabled(s, Run(u)) && LabelOf(s, Run(u)) == RetDeq(u, Some(x))
    && var s1 := Next(g, s, Run(u)); Owned(s1) && Enabled(s1, Run(t)) && LabelOf(s1, Run(t)) == RetDeq(t, Some(x))
  }

  lemma BothPastRead(g: Gate, s: Ring, u: Tid, t: Tid, x: int)
    requires Owned(s) && t in s.pcs && u in s.pcs && t != u
    requires s.pcs[t].DeqZero? && s.pcs[u].DeqZero? && s.pcs[t].e == s.pcs[u].e == x
    ensures BothReturn(g, s, u, t, x)
  {
    OwnedNext(g, s, Run(u));
  }

  /** With t at its add-and-fetch: after its three accesses and the reads of u both return x, and no
      enqueue has taken the ticket of t. */
  ghost predicate Twice(g: Gate, d: Ring, t: Tid, u: Tid, x: int)
    requires Owned(d) && t in d.pcs && d.pcs[t].DeqTake?
  {
    var f := Fetching(g, d, t);
    u in f.pcs && var r := ReadToo(g, f, u); |r.enq| <= |d.deq| && BothReturn(g, r, u, t, x)
  }

  lemma Unserved(d: Ring, j: nat)
    requires Matched(d) && j < |d.deq| && j < |d.enq| && !Done(d, j)
    ensures var u := d.deq[j].owner;
      u in d.pcs && DeqHolds(d.pcs[u], j) && (d.pcs[u].DeqZero? ==> d.pcs[u].e == d.enq[j].v)
  {
    assert HasFound(d, d.pcs[d.deq[j].owner]);
  }

  /** A harmful dequeue, seen from outside. The dequeue a lap earlier, which has the ticket of the element
      that the lapping one has read, reads it too after at most two accesses: the element is delivered
      twice, and no other one can stand for the second delivery. */
  lemma DeliversTwice(g: Gate, d: Ring, t: Tid, u: Tid)
    requires Matched(d) && t in d.pcs && d.pcs[t].DeqTake? && Harms(d, Run(t)) && d.enq[|d.deq| - d.N()].stored
    requires u == d.deq[|d.deq| - d.N()].owner
    ensures Twice(g, d, t, u, d.enq[|d.deq| - d.N()].v)
  {
    var j, x, f := |d.deq| - d.N(), d.enq[|d.deq| - d.N()].v, Fetching(g, d, t);
    SlotOfLapping(d, t);
    FetchingIs(g, d, t);
    Slots.NextLap(j, d.N());
    Unserved(d, j);
    assert f.pcs == d.pcs[t := DeqZero(|d.deq|, x)] && f.pcs[u] == d.pcs[u];
    ReadTooIs(g, f, u, j, x);
    BothPastRead(g, ReadToo(g, f, u), u, t, x);
  }
}
