/** Runs that lead to trouble: a lapping dequeue ticket whose element is still to come, and an enqueue
    that isQueueFull lets through while a dequeuer is inside. */
module RingLaps {
  import opened AtomicFifo
  import opened TicketRing
  import opened RingRefinement
  import opened RingLimits
  import opened RingExact
  import Slots

  /** The actions, none of which laps, lead from s to r; with `busy`, the queue is empty at no instant. */
  ghost predicate Path(g: Gate, s: Ring, actions: seq<Action>, r: Ring, busy: bool)
    decreases |actions|
  {
    && (busy ==> |s.deq| < |s.enq|)
    && if actions == [] then s == r
       else
         && Owned(s) && Enabled(s, actions[0]) && NoLap(s, actions[0])
         && Path(g, Next(g, s, actions[0]), actions[1..], r, busy)
  }

  /** The calls and returns on the way. */
  ghost function Along(g: Gate, s: Ring, actions: seq<Action>): seq<Label<int>>
    decreases |actions|
  {
    if actions == [] || !Owned(s) || !Enabled(s, actions[0]) then []
    else [LabelOf(s, actions[0])] + Along(g, Next(g, s, actions[0]), actions[1..])
  }

  lemma BusyMeans(s: Ring)
    ensures |s.deq| < |s.enq| <==> Abs(s).q != []
  {
    assert |Abs(s).q| == |s.enq| - Served(s);
  }

  lemma {:induction false} PathMatched(g: Gate, s: Ring, actions: seq<Action>, r: Ring, busy: bool)
    requires Matched(s) && Path(g, s, actions, r, busy)
    ensures Matched(r) && r.N() == s.N()
    decreases |actions|
  {
    if actions != [] {
      MatchedNext(g, s, actions[0]);
      PathMatched(g, Next(g, s, actions[0]), actions[1..], r, busy);
    }
  }

  lemma PathJoin(g: Gate, s: Ring, as0: seq<Action>, r: Ring, as1: seq<Action>, q: Ring, busy: bool)
    requires Path(g, s, as0, r, busy) && Path(g, r, as1, q, busy)
    ensures Path(g, s, as0 + as1, q, busy)
    ensures Along(g, s, as0 + as1) == Along(g, s, as0) + Along(g, r, as1)
  {
    PathsJoin(g, s, as0, r, as1, q, busy);
    LabelsJoin(g, s, as0, r, as1, busy);
  }

  lemma {:induction false} PathsJoin(g: Gate, s: Ring, as0: seq<Action>, r: Ring, as1: seq<Action>, q: Ring, busy: bool)
    requires Path(g, s, as0, r, busy) && Path(g, r, as1, q, busy)
    ensures Path(g, s, as0 + as1, q, busy)
    decreases |as0|
  {
    if as0 == [] {
      assert as0 + as1 == as1;
    } else {
      PathHead(g, s, as0, r, busy);
      var a, s1 := as0[0], Next(g, s, as0[0]);
      PathsJoin(g, s1, as0[1..], r, as1, q, busy);
      PathCons(g, s, a, as0[1..] + as1, q, busy);
      assert [a] + (as0[1..] + as1) == as0 + as1;
    }
  }

  lemma {:induction false} LabelsJoin(g: Gate, s: Ring, as0: seq<Action>, r: Ring, as1: seq<Action>, busy: bool)
    requires Path(g, s, as0, r, busy)
    ensures Along(g, s, as0 + as1) == Along(g, s, as0) + Along(g, r, as1)
    decreases |as0|
  {
    if as0 == [] {
      assert as0 + as1 == as1;
    } else {
      PathHead(g, s, as0, r, busy);
      var a, s1 := as0[0], Next(g, s, as0[0]);
      LabelsJoin(g, s1, as0[1..], r, as1, busy);
      LabelsCons(g, s, a, as0[1..] + as1);
      assert [a] + (as0[1..] + as1) == as0 + as1;
      JoinedLabels(LabelOf(s, a), Along(g, s1, as0[1..]), Along(g, r, as1));
    }
  }

  lemma LabelsCons(g: Gate, s: Ring, a: Action, rest: seq<Action>)
    requires Owned(s) && Enabled(s, a)
    ensures Along(g, s, [a] + rest) == [LabelOf(s, a)] + Along(g, Next(g, s, a), rest)
  {
    assert ([a] + rest)[1..] == rest;
  }

  lemma JoinedLabels(l: Label<int>, k: seq<Label<int>>, m: seq<Label<int>>)
    ensures [l] + (k + m) == ([l] + k) + m
  {
  }

  lemma PathHead(g: Gate, s: Ring, actions: seq<Action>, r: Ring, busy: bool)
    requires Path(g, s, actions, r, busy) && actions != []
    ensures var a := actions[0];
      && Owned(s) && Enabled(s, a) && NoLap(s, a) && (busy ==> |s.deq| < |s.enq|)
      && Path(g, Next(g, s, a), actions[1..], r, busy)
      && Along(g, s, actions) == [LabelOf(s, a)] + Along(g, Next(g, s, a), actions[1..])
  {
  }

  lemma PathCons(g: Gate, s: Ring, a: Action, rest: seq<Action>, q: Ring, busy: bool)
    requires Owned(s) && Enabled(s, a) && NoLap(s, a) && (busy ==> |s.deq| < |s.enq|) && Path(g, Next(g, s, a), rest, q, busy)
    ensures Path(g, s, [a] + rest, q, busy)
  {
    assert ([a] + rest)[1..] == rest;
  }

  lemma PathStep(g: Gate, s: Ring, a: Action, busy: bool)
    requires Owned(s) && Enabled(s, a) && NoLap(s, a)
    requires busy ==> |s.deq| < |s.enq| && |Next(g, s, a).deq| < |Next(g, s, a).enq|
    ensures Path(g, s, [a], Next(g, s, a), busy) && Along(g, s, [a]) == [LabelOf(s, a)]
  {
    assert Path(g, Next(g, s, a), [], Next(g, s, a), busy) && [a][1..] == [];
  }

  /** A whole enqueue by an idle thread, next to anything. */
  lemma EnqueuePath(g: Gate, s: Ring, w: Tid, v: int, busy: bool) returns (actions: seq<Action>)
    requires Matched(s) && w in s.pcs && s.pcs[w] == Idle && (s.N() <= |s.enq| ==> Done(s, |s.enq| - s.N()))
    requires busy ==> |s.deq| < |s.enq|
    ensures Path(g, s, actions, EnqueueAlone(g, s, w, v), busy) && forall a :: a in actions ==> a.t == w
    ensures Along(g, s, actions) == [CallEnq(w, v), Tau, RetEnq(w)]
  {
    EnqueueAloneIs(g, s, w, v);
    var s1 := Next(g, s, CallEnqueue(w, v));
    PathStep(g, s, CallEnqueue(w, v), busy);
    OwnedNext(g, s, CallEnqueue(w, v));
    assert s1.pcs[w] == EnqTake(v) && s1.enq == s.enq && (Done(s1, |s.enq| - s.N()) <==> Done(s, |s.enq| - s.N()));
    PathStep(g, s1, Run(w), busy);
    var s2 := Next(g, s1, Run(w));
    OwnedNext(g, s1, Run(w));
    assert s2.pcs[w] == EnqStore(|s.enq|, v);
    PathStep(g, s2, Run(w), busy);
    assert Alone(g, s1, w, 2) == Next(g, s2, Run(w));
    PathJoin(g, s1, [Run(w)], s2, [Run(w)], Next(g, s2, Run(w)), busy);
    PathJoin(g, s, [CallEnqueue(w, v)], s1, [Run(w)] + [Run(w)], Next(g, s2, Run(w)), busy);
    actions := [CallEnqueue(w, v)] + ([Run(w)] + [Run(w)]);
  }

  /** An idle thread can issue and store the elements up to ticket j < |deq| without lapping. */
  lemma {:induction false} CatchUp(g: Gate, s: Ring, w: Tid, j: nat) returns (actions: seq<Action>, r: Ring)
    requires Matched(s) && w in s.pcs && s.pcs[w] == Idle && |s.enq| <= j < |s.deq|
    ensures Path(g, s, actions, r, false) && Matched(r) && (forall a :: a in actions ==> a.t == w)
    ensures |r.enq| == j + 1 && r.enq[j].v == 1 && r.deq == s.deq && r.pcs == s.pcs && r.N() == s.N()
    decreases j - |s.enq|
  {
    var m := |s.enq|;
    if s.N() <= m {
      Slots.NextLap(m - s.N(), s.N());
      assert SameSlot(s.N(), m - s.N(), m);
    }
    actions := EnqueuePath(g, s, w, 1, false);
    r := EnqueueAlone(g, s, w, 1);
    EnqueueAloneIs(g, s, w, 1);
    PathMatched(g, s, actions, r, false);
    if m < j {
      var more, q := CatchUp(g, r, w, j);
      PathJoin(g, s, actions, r, more, q, false);
      actions, r := actions + more, q;
    }
  }

  /** A lapping dequeue ticket whose earlier element has not been issued: with an idle thread about,
      some continuation that does not lap before brings the dequeue to return a wrong element. */
  lemma LappedDequeueBreaks(g: Gate, s: Ring, t: Tid, w: Tid) returns (actions: seq<Action>, r: Ring)
    requires Matched(s) && t in s.pcs && s.pcs[t].DeqTake? && !NoLap(s, Run(t)) && |s.enq| <= |s.deq| - s.N()
    requires w in s.pcs && s.pcs[w] == Idle
    ensures Path(g, s, actions, r, false) && (forall a :: a in actions ==> a.t == w)
    ensures Matched(r) && t in r.pcs && r.pcs[t].DeqTake? && r.deq == s.deq && r.N() == s.N()
    ensures var d := Delivered(g, r, |r.deq| - r.N()); t in d.pcs && d.pcs[t].DeqTake? && Broken(Fetching(g, d, t))
  {
    var j := |s.deq| - s.N();
    actions, r := CatchUp(g, s, w, j);
    StillHarmed(s, r, t);
    HarmedBreaks(g, r, t);
  }

  lemma HarmedBreaks(g: Gate, r: Ring, t: Tid)
    requires Matched(r) && t in r.pcs && r.pcs[t].DeqTake? && Harms(r, Run(t))
    ensures var d := Delivered(g, r, |r.deq| - r.N()); t in d.pcs && d.pcs[t].DeqTake? && Broken(Fetching(g, d, t))
  {
    DequeueHarmIsExact(g, r, t);
  }

  lemma StillHarmed(s: Ring, r: Ring, t: Tid)
    requires 0 < s.N() == r.N() && t in s.pcs && t in r.pcs && s.pcs[t].DeqTake? && r.pcs[t].DeqTake? && r.deq == s.deq
    requires !NoLap(s, Run(t))
    requires var j := |s.deq| - s.N(); |r.enq| == j + 1 && r.enq[j].v != 0
    ensures Harms(r, Run(t))
  {
    assert Done(r, |s.deq| - s.N()) <==> Done(s, |s.deq| - s.N());
  }

  // isQueueFull is no guard while a dequeuer is inside.

  /** A dequeuer past its spin holds on to ticket j, and j + N elements are enqueued. */
  predicate OneInside(s: Ring, u: Tid) {
    u in s.pcs && s.pcs[u].DeqRead? && |s.enq| == s.pcs[u].k + s.N()
  }

  /** isQueueFull is false, and yet one more enqueue makes the dequeuer return its element. */
  lemma NotFullYetWrong(g: Gate, s: Ring, t: Tid, u: Tid, v: int)
    requires Matched(s) && t in s.pcs && s.pcs[t] == Idle && OneInside(s, u) && v != s.enq[s.pcs[u].k].v
    ensures !IsQueueFull(s)
    ensures Owned(EnqueueAlone(g, s, t, v)) && Enabled(EnqueueAlone(g, s, t, v), Run(u))
    ensures Next(g, EnqueueAlone(g, s, t, v), Run(u)).pcs[u] == DeqZero(s.pcs[u].k, v)
    ensures WrongRead(Next(g, EnqueueAlone(g, s, t, v), Run(u)), u)
  {
    var j := s.pcs[u].k;
    EnqueueAloneIs(g, s, t, v);
    assert HoldsTicket(s, u, s.pcs[u]);
    Slots.NextLap(j, s.N());
    var s1 := EnqueueAlone(g, s, t, v);
    assert s1.slots[j % s1.N()] == v && s1.pcs[u] == DeqRead(j);
  }

  /** m elements 1, 2, .. enqueued by thread 0 with nobody else running. */
  lemma {:induction false} FillPath(g: Gate, s0: Ring, m: nat) returns (actions: seq<Action>, s: Ring)
    requires TicketRing.Init(s0) && 0 in s0.pcs && m <= s0.N()
    ensures Path(g, s0, actions, s, false) && Matched(s)
    ensures s.N() == s0.N() && s.pcs == s0.pcs && |s.enq| == m && s.deq == []
    ensures forall k :: 0 <= k < m ==> s.enq[k].stored && s.enq[k].v == k + 1
  {
    if m == 0 {
      InitMatched(s0);
      actions, s := [], s0;
    } else {
      var before, r := FillPath(g, s0, m - 1);
      var more;
      more, s := FillOne(g, r, m);
      PathJoin(g, s0, before, r, more, s, false);
      actions := before + more;
    }
  }

  lemma FillOne(g: Gate, r: Ring, m: nat) returns (actions: seq<Action>, s: Ring)
    requires Matched(r) && 0 in r.pcs && r.pcs[0] == Idle && 0 < m <= r.N() && |r.enq| == m - 1
    ensures Path(g, r, actions, s, false) && Matched(s)
    ensures s.N() == r.N() && s.pcs == r.pcs && s.enq == r.enq + [EnqTicket(m, 0, true)] && s.deq == r.deq
  {
    actions := EnqueuePath(g, r, 0, m, false);
    EnqueueAloneIs(g, r, 0, m);
    s := EnqueueAlone(g, r, 0, m);
    PathMatched(g, r, actions, s, false);
  }

  /** A dequeue by an idle thread up to the end of its spin, where its element is stored already. */
  lemma SpinPath(s: Ring, u: Tid) returns (actions: seq<Action>)
    requires Matched(s) && u in s.pcs && s.pcs[u] == Idle && s.deq == [] && Live(s, 0) && s.enq[0].v != 0
    ensures var r := s.(head := 0, deq := [DeqTicket(u, None)], pcs := s.pcs[u := DeqRead(0)]); Path(Ungated, s, actions, r, false)
  {
    var s1 := Next(Ungated, s, CallDequeue(u));
    PathStep(Ungated, s, CallDequeue(u), false);
    OwnedNext(Ungated, s, CallDequeue(u));
    PathStep(Ungated, s1, Run(u), false);
    OwnedNext(Ungated, s1, Run(u));
    var s2 := Next(Ungated, s1, Run(u));
    Slots.ModUnique(0, s.N(), 0, 0);
    assert SlotOk(s, 0) && s.slots[0] == s.enq[0].v;
    assert s2.pcs[u] == DeqSpin(0) && s2.slots == s.slots;
    PathStep(Ungated, s2, Run(u), false);
    var s3 := Next(Ungated, s2, Run(u));
    PathJoin(Ungated, s1, [Run(u)], s2, [Run(u)], s3, false);
    PathJoin(Ungated, s, [CallDequeue(u)], s1, [Run(u)] + [Run(u)], s3, false);
    assert s3.pcs == s.pcs[u := DeqRead(0)] && s3.deq == [DeqTicket(u, None)] && s3.head == 0;
    assert s3 == s.(head := 0, deq := [DeqTicket(u, None)], pcs := s.pcs[u := DeqRead(0)]);
    actions := [CallDequeue(u)] + ([Run(u)] + [Run(u)]);
  }

  /** For every number of slots such a state is reached from the start without lapping. */
  lemma NotFullIsNotEnough(s0: Ring) returns (actions: seq<Action>, s: Ring)
    requires TicketRing.Init(s0) && 0 in s0.pcs && 1 in s0.pcs
    ensures Path(Ungated, s0, actions, s, false) && Matched(s)
    ensures 0 in s.pcs && s.pcs[0] == Idle && OneInside(s, 1) && s.enq[s.pcs[1].k].v == 1
  {
    var before, r := FillPath(Ungated, s0, s0.N());
    var more := SpinPath(r, 1);
    s := r.(head := 0, deq := [DeqTicket(1, None)], pcs := r.pcs[1 := DeqRead(0)]);
    PathJoin(Ungated, s0, before, r, more, s, false);
    actions := before + more;
    InitMatched(s0);
    PathMatched(Ungated, s0, actions, s, false);
  }
}
