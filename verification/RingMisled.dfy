/** A gate that loads `tail` first is not linearizable when dequeues overlap: from the start, for two
    slots or more, a run without a lap that no run of the atomic queue explains. */
module RingMisled {
  import opened AtomicBalance
  import opened AtomicFifo
  import opened RingGate
  import opened RingLaps
  import opened RingLimits
  import opened RingRefinement
  import opened TicketRing

  /** Silent steps. */
  predicate Silent(ls: seq<Label<int>>) {
    forall k :: 0 <= k < |ls| ==> ls[k] == Tau
  }

  /** The call of a dequeue, then silent steps. */
  predicate Enters(ls: seq<Label<int>>, w: Tid) {
    |ls| > 0 && ls[0] == CallDeq(w) && Silent(ls[1..])
  }

  /** An idle thread's dequeue up to the second load of such a gate. */
  lemma EnterGate(g: Gate, s: Ring, w: Tid) returns (actions: seq<Action>)
    requires Owned(s) && w in s.pcs && s.pcs[w] == Idle && |s.deq| < |s.enq|
    requires g.TailFirst() && (g.WhenLappedAndEqual? ==> s.tail - s.N() > 0)
    ensures Path(g, s, actions, s.(pcs := s.pcs[w := GateHeadLast(s.tail)]), true) && Enters(Along(g, s, actions), w)
  {
    var s1 := Next(g, s, CallDequeue(w));
    PathStep(g, s, CallDequeue(w), true);
    OwnedNext(g, s, CallDequeue(w));
    var before, s2 := [CallDequeue(w)], s1;
    if g.WhenLappedAndEqual? {
      s2 := Next(g, s1, Run(w));
      PathStep(g, s1, Run(w), true);
      OwnedNext(g, s1, Run(w));
      PathJoin(g, s, before, s1, [Run(w)], s2, true);
      before := before + [Run(w)];
    }
    assert s2 == s.(pcs := s.pcs[w := GateTailFirst]);
    var s3 := Next(g, s2, Run(w));
    PathStep(g, s2, Run(w), true);
    PathJoin(g, s, before, s2, [Run(w)], s3, true);
    assert s3.pcs == s.pcs[w := GateHeadLast(s.tail)];
    actions := before + [Run(w)];
  }

  /** The path without the claim that the queue is never empty. */
  lemma {:induction false} PathIdle(g: Gate, s: Ring, actions: seq<Action>, r: Ring)
    requires Path(g, s, actions, r, true)
    ensures Path(g, s, actions, r, false)
    decreases |actions|
  {
    if actions != [] { PathIdle(g, Next(g, s, actions[0]), actions[1..], r); }
  }

  lemma {:induction false} PathOwned(g: Gate, s: Ring, actions: seq<Action>, r: Ring, busy: bool)
    requires Owned(s) && Path(g, s, actions, r, busy)
    ensures Owned(r)
    decreases |actions|
  {
    if actions != [] {
      OwnedNext(g, s, actions[0]);
      PathOwned(g, Next(g, s, actions[0]), actions[1..], r, busy);
    }
  }

  function WithTicket(s: Ring, w: Tid): Ring {
    s.(head := s.head + 1, deq := s.deq + [DeqTicket(w, None)], pcs := s.pcs[w := DeqSpin(|s.deq|)])
  }

  /** The next dequeue ticket does not lap. */
  predicate TicketFree(s: Ring) { s.N() <= |s.deq| ==> Done(s, |s.deq| - s.N()) }

  lemma TakeTicket(g: Gate, s: Ring, w: Tid, busy: bool)
    requires Owned(s) && w in s.pcs && s.pcs[w] == DeqTake && TicketFree(s) && (busy ==> |s.deq| + 1 < |s.enq|)
    ensures Path(g, s, [Run(w)], WithTicket(s, w), busy) && Along(g, s, [Run(w)]) == [Tau]
  {
    assert Next(g, s, Run(w)) == WithTicket(s, w);
    PathStep(g, s, Run(w), busy);
  }

  /** A dequeue that the gate lets pass takes its ticket. */
  lemma PassGate(g: Gate, s: Ring, w: Tid, busy: bool) returns (actions: seq<Action>)
    requires Owned(s) && w in s.pcs && s.pcs[w].GateHeadLast? && s.pcs[w].x != s.head && TicketFree(s)
    requires busy ==> |s.deq| + 1 < |s.enq|
    ensures Path(g, s, actions, WithTicket(s, w), busy) && Silent(Along(g, s, actions))
  {
    var s1 := Next(g, s, Run(w));
    PathStep(g, s, Run(w), busy);
    OwnedNext(g, s, Run(w));
    assert s1 == s.(pcs := s.pcs[w := DeqTake]) && (Done(s1, |s.deq| - s.N()) <==> Done(s, |s.deq| - s.N()));
    TakeTicket(g, s1, w, busy);
    PathJoin(g, s, [Run(w)], s1, [Run(w)], WithTicket(s1, w), busy);
    assert WithTicket(s1, w) == WithTicket(s, w) by { assert s1.pcs[w := DeqSpin(|s.deq|)] == s.pcs[w := DeqSpin(|s.deq|)]; }
    actions := [Run(w)] + [Run(w)];
  }

  /** A whole way through the gate's comparison to the ticket. */
  lemma GateToTicket(g: Gate, s: Ring, u: Tid, busy: bool) returns (actions: seq<Action>)
    requires Owned(s) && u in s.pcs && s.pcs[u] == Idle && |s.deq| < |s.enq| && (busy ==> |s.deq| + 1 < |s.enq|)
    requires g.TailFirst() && (g.WhenLappedAndEqual? ==> s.tail - s.N() > 0) && TicketFree(s)
    ensures Path(g, s, actions, WithTicket(s, u), busy) && Enters(Along(g, s, actions), u)
  {
    var as3 := EnterGate(g, s, u);
    var s3 := s.(pcs := s.pcs[u := GateHeadLast(s.tail)]);
    PathOwned(g, s, as3, s3, true);
    if !busy { PathIdle(g, s, as3, s3); }
    assert Done(s3, |s.deq| - s.N()) <==> Done(s, |s.deq| - s.N());
    var as4 := PassGate(g, s3, u, busy);
    PathJoin(g, s, as3, s3, as4, WithTicket(s3, u), busy);
    assert s3.pcs[u := DeqSpin(|s.deq|)] == s.pcs[u := DeqSpin(|s.deq|)];
    actions := as3 + as4;
  }

  /** The way past the gate while its first test fails. */
  lemma SkipGate(g: Gate, s: Ring, u: Tid) returns (actions: seq<Action>)
    requires Owned(s) && u in s.pcs && s.pcs[u] == Idle && g.WhenLappedAndEqual? && s.tail - s.N() <= 0 && TicketFree(s)
    ensures Path(g, s, actions, WithTicket(s, u), false) && Enters(Along(g, s, actions), u)
  {
    var s1 := Next(g, s, CallDequeue(u));
    PathStep(g, s, CallDequeue(u), false);
    OwnedNext(g, s, CallDequeue(u));
    var s2 := Next(g, s1, Run(u));
    PathStep(g, s1, Run(u), false);
    OwnedNext(g, s1, Run(u));
    assert s2.pcs == s.pcs[u := DeqTake];
    assert Done(s2, |s.deq| - s.N()) <==> Done(s, |s.deq| - s.N());
    TakeTicket(g, s2, u, false);
    PathJoin(g, s1, [Run(u)], s2, [Run(u)], WithTicket(s2, u), false);
    PathJoin(g, s, [CallDequeue(u)], s1, [Run(u)] + [Run(u)], WithTicket(s2, u), false);
    assert s2.pcs[u := DeqSpin(|s.deq|)] == s.pcs[u := DeqSpin(|s.deq|)];
    actions := [CallDequeue(u)] + ([Run(u)] + [Run(u)]);
  }

  lemma ToTicket(g: Gate, s: Ring, u: Tid) returns (actions: seq<Action>)
    requires Owned(s) && u in s.pcs && s.pcs[u] == Idle && |s.deq| < |s.enq| && g.TailFirst() && TicketFree(s)
    ensures Path(g, s, actions, WithTicket(s, u), false) && Enters(Along(g, s, actions), u)
  {
    if g.WhenLappedAndEqual? && s.tail - s.N() <= 0 {
      actions := SkipGate(g, s, u);
    } else {
      actions := GateToTicket(g, s, u, false);
    }
  }

  function Cleared(s: Ring, w: Tid, k: nat, e: int): Ring
    requires 0 < s.N() == |s.origin| && k < |s.deq|
  {
    s.(slots := s.slots[k % s.N() := 0], pcs := s.pcs[w := Idle],
       deq := s.deq[k := DeqTicket(w, Some(e))], origin := s.origin[k % s.N() := None])
  }

  /** From the spin to the return, with the element there. */
  lemma Finish(g: Gate, s: Ring, w: Tid) returns (actions: seq<Action>)
    requires Owned(s) && w in s.pcs && s.pcs[w].DeqSpin? && s.slots[s.pcs[w].k % s.N()] != 0
    ensures var k := s.pcs[w].k; var e := s.slots[k % s.N()];
      && k < |s.deq| && Path(g, s, actions, Cleared(s, w, k, e), false)
      && Along(g, s, actions) == [Tau, Tau, RetDeq(w, Some(e))]
  {
    var k := s.pcs[w].k;
    var e := s.slots[k % s.N()];
    assert HoldsTicket(s, w, s.pcs[w]);
    var s1 := Next(g, s, Run(w));
    PathStep(g, s, Run(w), false);
    OwnedNext(g, s, Run(w));
    assert s1 == s.(pcs := s.pcs[w := DeqRead(k)]);
    var s2 := Next(g, s1, Run(w));
    PathStep(g, s1, Run(w), false);
    OwnedNext(g, s1, Run(w));
    assert s2 == s.(pcs := s.pcs[w := DeqZero(k, e)]) by { assert s1.pcs[w := DeqZero(k, e)] == s.pcs[w := DeqZero(k, e)]; }
    var s3 := Next(g, s2, Run(w));
    PathStep(g, s2, Run(w), false);
    assert s2.pcs[w := Idle] == s.pcs[w := Idle];
    PathJoin(g, s1, [Run(w)], s2, [Run(w)], s3, false);
    PathJoin(g, s, [Run(w)], s1, [Run(w)] + [Run(w)], s3, false);
    actions := [Run(w)] + ([Run(w)] + [Run(w)]);
  }

  lemma QuiescentDone(s: Ring)
    requires Owned(s) && Quiescent(s)
    ensures forall k :: 0 <= k < |s.deq| ==> Done(s, k)
  {
  }

  /** Between operations, with one element more enqueued than dequeued or with as many. */
  ghost predicate Between(s: Ring, n: nat, more: nat) {
    Matched(s) && Quiescent(s) && s.N() == n && |s.enq| == |s.deq| + more
  }

  /** A whole enqueue between operations on a ring that holds nothing. */
  lemma OneIn(g: Gate, s: Ring, p: Tid) returns (actions: seq<Action>, r: Ring)
    requires Between(s, s.N(), 0) && p in s.pcs
    ensures Path(g, s, actions, r, false) && Between(r, s.N(), 1) && r.pcs == s.pcs && r.deq == s.deq
    ensures r.slots[|s.enq| % r.N()] == 1 && Balance(Along(g, s, actions)) == 1
  {
    QuiescentDone(s);
    actions := EnqueuePath(g, s, p, 1, false);
    EnqueueAloneIs(g, s, p, 1);
    r := EnqueueAlone(g, s, p, 1);
    PathMatched(g, s, actions, r, false);
    CountEnqueue(p, 1);
  }

  lemma CountEnqueue(p: Tid, v: int)
    ensures var ls: seq<Label<int>> := [CallEnq(p, v), Tau, RetEnq(p)]; Balance(ls) == 1 && Ahead(ls, 0)
  {
    var call, ret: seq<Label<int>> := [CallEnq(p, v), Tau], [RetEnq(p)];
    QuietAhead(call, 0);
    assert ret[1..] == [] && Delta(ret[0]) == 1 && Ahead(ret[1..], 1);
    AheadJoin(call, ret, 0);
    BalanceJoin(call, ret);
    assert call + ret == [CallEnq(p, v), Tau, RetEnq(p)];
  }

  /** And a whole dequeue, with one element there. */
  lemma OneOut(g: Gate, s: Ring, u: Tid) returns (actions: seq<Action>, r: Ring)
    requires Between(s, s.N(), 1) && u in s.pcs && g.TailFirst() && s.slots[|s.deq| % s.N()] != 0
    ensures Path(g, s, actions, r, false) && Between(r, s.N(), 0) && r.pcs == s.pcs && |r.deq| == |s.deq| + 1
    ensures Balance(Along(g, s, actions)) == -1
  {
    QuiescentDone(s);
    var before := ToTicket(g, s, u);
    var s1 := WithTicket(s, u);
    PathMatched(g, s, before, s1, false);
    var more := Finish(g, s1, u);
    r := Cleared(s1, u, |s.deq|, s.slots[|s.deq| % s.N()]);
    PathMatched(g, s1, more, r, false);
    PathJoin(g, s, before, s1, more, r, false);
    assert r.pcs == s.pcs;
    CountDequeue(Along(g, s, before), Along(g, s1, more), u);
    actions := before + more;
  }

  lemma CountDequeue(before: seq<Label<int>>, more: seq<Label<int>>, u: Tid)
    requires Enters(before, u) && |more| == 3 && more[0] == Tau && more[1] == Tau && more[2].RetDeq?
    ensures Balance(before + more) == -1
  {
    BalanceJoin(before, more);
    QuietAhead(before[1..], 0);
    QuietAhead(more, 0);
  }

  /** k elements in and out, one after the other. */
  lemma {:induction false} Pairs(g: Gate, s0: Ring, p: Tid, u: Tid, k: nat) returns (actions: seq<Action>, s: Ring)
    requires TicketRing.Init(s0) && p in s0.pcs && u in s0.pcs && g.TailFirst()
    ensures Path(g, s0, actions, s, false) && Between(s, s0.N(), 0) && s.pcs == s0.pcs && |s.deq| == k
    ensures Balance(Along(g, s0, actions)) == 0
  {
    if k == 0 {
      InitMatched(s0);
      actions, s := [], s0;
    } else {
      var as0, s1 := Pairs(g, s0, p, u, k - 1);
      var as1, s2 := OneIn(g, s1, p);
      PathJoin(g, s0, as0, s1, as1, s2, false);
      BalanceJoin(Along(g, s0, as0), Along(g, s1, as1));
      var as2;
      as2, s := OneOut(g, s2, u);
      PathJoin(g, s0, as0 + as1, s2, as2, s, false);
      BalanceJoin(Along(g, s0, as0 + as1), Along(g, s2, as2));
      actions := (as0 + as1) + as2;
    }
  }

  /** The start of the trouble, reached for any number of slots and either gate: one element in the
      ring, and enough elements before it for the gate's first test. */
  lemma StartOfTrouble(g: Gate, s0: Ring, p: Tid, u: Tid) returns (actions: seq<Action>, s: Ring)
    requires TicketRing.Init(s0) && p in s0.pcs && u in s0.pcs && g.TailFirst()
    ensures Path(g, s0, actions, s, false) && Between(s, s0.N(), 1) && s.pcs == s0.pcs && s.tail - s.N() > 0
    ensures Balance(Along(g, s0, actions)) == 1
  {
    var before, s1 := Pairs(g, s0, p, u, s0.N() + 1);
    var more;
    more, s := OneIn(g, s1, p);
    PathJoin(g, s0, before, s1, more, s, false);
    BalanceJoin(Along(g, s0, before), Along(g, s1, more));
    actions := before + more;
  }

  // The trouble itself.

  /** t's call and then, up to its last load, labels that keep the balance at zero or more. */
  predicate Misleading(ls: seq<Label<int>>, t: Tid, during: seq<Label<int>>) {
    ls == [CallDeq(t)] + during && Ahead(during, 0) && forall k :: 0 <= k < |during| ==> !Returns(during[k], t)
  }

  /** While t is between the gate's two loads, p enqueues one more element. */
  lemma EnqueueBehindGate(g: Gate, s: Ring, t: Tid, p: Tid, v: int) returns (actions: seq<Action>, r: Ring, during: seq<Label<int>>)
    requires Between(s, s.N(), 1) && 2 <= s.N() && g.TailFirst() && (g.WhenLappedAndEqual? ==> s.tail - s.N() > 0)
    requires t in s.pcs && p in s.pcs && t != p
    ensures Path(g, s, actions, r, true) && Misleading(Along(g, s, actions), t, during) && Balance(during) == 1
    ensures r.pcs == s.pcs[t := GateHeadLast(s.tail)] && r.deq == s.deq && |r.enq| == |s.enq| + 1
    ensures r.head == s.head && r.tail == s.tail + 1 && r.N() == s.N() && Matched(r) && TicketFree(r)
  {
    QuiescentDone(s);
    var as1 := EnterGate(g, s, t);
    var s1 := s.(pcs := s.pcs[t := GateHeadLast(s.tail)]);
    PathMatched(g, s, as1, s1, true);
    assert Done(s1, |s.enq| - s.N()) <==> Done(s, |s.enq| - s.N());
    var as2 := EnqueuePath(g, s1, p, v, true);
    r := EnqueueAlone(g, s1, p, v);
    EnqueueAloneIs(g, s1, p, v);
    PathMatched(g, s1, as2, r, true);
    PathJoin(g, s, as1, s1, as2, r, true);
    actions := as1 + as2;
    during := CountBehind(Along(g, s, as1), Along(g, s1, as2), t, p, v);
    assert Done(r, |s.deq| - s.N()) <==> Done(s, |s.deq| - s.N());
  }

  lemma CountBehind(enters: seq<Label<int>>, enqueue: seq<Label<int>>, t: Tid, p: Tid, v: int) returns (during: seq<Label<int>>)
    requires Enters(enters, t) && enqueue == [CallEnq(p, v), Tau, RetEnq(p)]
    ensures Misleading(enters + enqueue, t, during) && Balance(during) == 1
  {
    during := enters[1..] + enqueue;
    QuietAhead(enters[1..], 0);
    CountEnqueue(p, v);
    AheadJoin(enters[1..], enqueue, 0);
    BalanceJoin(enters[1..], enqueue);
    assert enters + enqueue == [CallDeq(t)] + during;
  }

  /** Then u's dequeue takes the ticket of the element that t saw. */
  lemma CountTicket(ls: seq<Label<int>>, t: Tid, during: seq<Label<int>>, enters: seq<Label<int>>, u: Tid) returns (more: seq<Label<int>>)
    requires Misleading(ls, t, during) && Balance(during) == 1 && Enters(enters, u) && t != u
    ensures Misleading(ls + enters, t, more)
  {
    more := during + enters;
    QuietAhead(enters[1..], 0);
    AheadJoin(during, enters, 0);
    assert ls + enters == [CallDeq(t)] + more;
  }

  /** From any state between operations with one element in the queue, t's dequeue is turned away as
      "empty" although, without any lap, the queue is never empty during the call. */
  lemma TailFirstMisleads(g: Gate, s: Ring, t: Tid, p: Tid, u: Tid, v: int)
    returns (actions: seq<Action>, r: Ring, during: seq<Label<int>>)
    requires Between(s, s.N(), 1) && 2 <= s.N() && g.TailFirst() && (g.WhenLappedAndEqual? ==> s.tail - s.N() > 0)
    requires t in s.pcs && p in s.pcs && u in s.pcs && t != p && t != u && p != u
    ensures Path(g, s, actions, r, true) && Matched(r) && Abs(r).q != []
    ensures Enabled(r, Run(t)) && Misled(r, Run(t)) && LabelOf(r, Run(t)) == RetDeq(t, None)
    ensures Misleading(Along(g, s, actions), t, during)
  {
    var before, s2, most := EnqueueBehindGate(g, s, t, p, v);
    var more := GateToTicket(g, s2, u, true);
    r := WithTicket(s2, u);
    PathMatched(g, s2, more, r, true);
    PathJoin(g, s, before, s2, more, r, true);
    during := CountTicket(Along(g, s, before), t, most, Along(g, s2, more), u);
    actions := before + more;
    BusyMeans(r);
    AtLastLoad(r, t, s.tail);
  }

  lemma AtLastLoad(r: Ring, t: Tid, x: int)
    requires t in r.pcs && r.pcs[t] == GateHeadLast(x) && r.head == x < r.tail
    ensures Enabled(r, Run(t)) && Misled(r, Run(t)) && LabelOf(r, Run(t)) == RetDeq(t, None)
  {
  }

  /** A path that nothing explains. */
  lemma UnexplainedPath(g: Gate, s0: Ring, t: Tid, p: Tid, u: Tid) returns (actions: seq<Action>, r: Ring)
    requires TicketRing.Init(s0) && 2 <= s0.N() && g.TailFirst()
    requires t in s0.pcs && p in s0.pcs && u in s0.pcs && t != p && t != u && p != u
    ensures Path(g, s0, actions, r, false) && !Explained(Along(g, s0, actions))
  {
    var as0, s := StartOfTrouble(g, s0, p, u);
    var as1, s1, during := TailFirstMisleads(g, s, t, p, u, 1);
    PathIdle(g, s, as1, s1);
    PathStep(g, s1, Run(t), false);
    r := Next(g, s1, Run(t));
    PathJoin(g, s0, as0, s, as1, s1, false);
    PathJoin(g, s0, as0 + as1, s1, [Run(t)], r, false);
    EmptyUnexplained(Along(g, s0, as0), t, during);
    actions := (as0 + as1) + [Run(t)];
  }

  // Paths are runs.

  ghost function StatesAlong(g: Gate, s: Ring, actions: seq<Action>): (states: seq<Ring>)
    ensures |states| > 0 && states[0] == s
    decreases |actions|
  {
    if actions == [] || !Owned(s) || !Enabled(s, actions[0]) then [s]
    else [s] + StatesAlong(g, Next(g, s, actions[0]), actions[1..])
  }

  ghost predicate GoesTo(g: Gate, s: Ring, a: Action, s': Ring) {
    Owned(s) && Enabled(s, a) && NoLap(s, a) && s' == Next(g, s, a)
  }

  lemma {:induction false} PathStates(g: Gate, s: Ring, actions: seq<Action>, r: Ring)
    requires Path(g, s, actions, r, false)
    ensures var states := StatesAlong(g, s, actions);
      && |states| == |actions| + 1 && |Along(g, s, actions)| == |actions|
      && forall i :: 0 <= i < |actions| ==>
           && GoesTo(g, states[i], actions[i], states[i + 1]) && Enabled(states[i], actions[i])
           && Along(g, s, actions)[i] == LabelOf(states[i], actions[i])
    decreases |actions|
  {
    if actions != [] {
      var s1 := Next(g, s, actions[0]);
      PathStates(g, s1, actions[1..], r);
      var states, rest := StatesAlong(g, s, actions), StatesAlong(g, s1, actions[1..]);
      forall i | 0 <= i < |actions|
        ensures GoesTo(g, states[i], actions[i], states[i + 1]) && Enabled(states[i], actions[i])
        ensures Along(g, s, actions)[i] == LabelOf(states[i], actions[i])
      {
        if i == 0 {
          assert GoesTo(g, s, actions[0], s1);
        } else {
          assert actions[i] == actions[1..][i - 1] && states[i] == rest[i - 1] && states[i + 1] == rest[i];
        }
      }
    }
  }

  lemma PathIsRun(g: Gate, s0: Ring, actions: seq<Action>, r: Ring)
    requires TicketRing.Init(s0) && Path(g, s0, actions, r, false)
    ensures var states := StatesAlong(g, s0, actions);
      IsRingRun(g, states, actions) && NeverLaps(states, actions) && Labels(states, actions) == Along(g, s0, actions)
  {
    PathStates(g, s0, actions, r);
    var states := StatesAlong(g, s0, actions);
    forall i | 0 <= i < |actions|
      ensures Enabled(states[i], actions[i]) && NoLap(states[i], actions[i])
      ensures Owned(states[i]) ==> states[i + 1] == Next(g, states[i], actions[i])
    {
      assert GoesTo(g, states[i], actions[i], states[i + 1]);
    }
  }

  /** A run from s0 that does not lap, and with `apart` one in which no dequeue is called while another
      one is running. */
  ghost predicate ProperRun(g: Gate, s0: Ring, apart: bool, states: seq<Ring>, actions: seq<Action>) {
    IsRingRun(g, states, actions) && states[0] == s0 && NeverLaps(states, actions) && (apart ==> DequeuesApart(states, actions))
  }

  /** The exact condition: all runs that do not lap are linearizable if and only if the ring has no gate
      that loads `tail` first, or dequeues do not overlap, or there is a single slot. */
  lemma GateIsExact(g: Gate, s0: Ring, apart: bool)
    requires TicketRing.Init(s0) && 0 in s0.pcs && 1 in s0.pcs && 2 in s0.pcs
    ensures (forall states: seq<Ring>, actions: seq<Action> :: ProperRun(g, s0, apart, states, actions) ==> Explained(Labels(states, actions)))
            <==> !g.TailFirst() || apart || s0.N() == 1
  {
    if !g.TailFirst() || apart || s0.N() == 1 {
      forall states: seq<Ring>, actions: seq<Action> | ProperRun(g, s0, apart, states, actions) ensures Explained(Labels(states, actions)) {
        Linearizable(g, states, actions);
      }
    } else {
      var actions, r := UnexplainedPath(g, s0, 0, 1, 2);
      PathIsRun(g, s0, actions, r);
      assert ProperRun(g, s0, apart, StatesAlong(g, s0, actions), actions);
    }
  }
}
