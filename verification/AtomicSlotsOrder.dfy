/** When the atomic slot queue is first in, first out: exactly what its callers have to observe. */
module AtomicSlotsOrder {
  import opened AtomicFifo
  import opened AtomicSlots
  import opened AtomicSlotsLimits
  import Slots

  /** What was taken is a prefix of what was placed. */
  predicate FirstOut(s: Queue) { s.taken <= s.placed }

  predicate InPlace(s: Queue, j: nat)
    requires 0 < |s.tasks| && j < |s.placed|
  {
    s.tasks[j % |s.tasks|] == s.placed[j]
  }

  predicate Vacant(s: Queue, j: nat)
    requires 0 < |s.tasks|
  {
    s.tasks[j % |s.tasks|] == EMPTY
  }

  /** The stored tasks lie in consecutive slots, in order, and the slots behind them are empty. */
  ghost predicate Window(s: Queue)
    requires 0 < |s.tasks|
  {
    && s.taken <= s.placed && |s.placed| <= |s.taken| + |s.tasks|
    && (forall x :: x in s.placed ==> x.id != 0)
    && (forall j: nat :: |s.taken| <= j < |s.placed| ==> InPlace(s, j))
    && (forall j: nat :: |s.placed| <= j < |s.taken| + |s.tasks| ==> Vacant(s, j))
  }

  /** An enqueue has room and its first ticket is its task's place; a dequeue's is the oldest task's. */
  predicate InTurn(s: Queue, pc: Pc) {
    match pc
    case Idle => true
    case EnqProbe(x, e, _) => x.id != 0 && e == EMPTY && |s.placed| < |s.taken| + |s.tasks| && s.rear == |s.placed| - 1
    case EnqCas(x, e, _, k) => x.id != 0 && e == EMPTY && |s.placed| < |s.taken| + |s.tasks| && s.rear == |s.placed| == k
    case DeqProbe => |s.taken| < |s.placed| && s.front == |s.taken| - 1
    case DeqSwap(k) => |s.taken| < |s.placed| && s.front == |s.taken| == k
  }

  ghost predicate OrderInv(s: Queue) {
    && Counters(s) && Window(s)
    && (forall t :: t in s.pcs ==> InTurn(s, s.pcs[t]))
    && OneEach(s) && Counted(s)
  }

  ghost predicate OneEach(s: Queue) {
    && (forall t, u :: t in s.pcs && u in s.pcs && InEnqueue(s.pcs[t]) && InEnqueue(s.pcs[u]) ==> t == u)
    && (forall t, u :: t in s.pcs && u in s.pcs && InDequeue(s.pcs[t]) && InDequeue(s.pcs[u]) ==> t == u)
  }

  /** The counters count the tasks, but for a ticket somebody holds. */
  ghost predicate Counted(s: Queue) {
    RearCounts(s) && FrontCounts(s)
  }

  ghost predicate RearCounts(s: Queue) {
    s.rear == |s.placed| - 1 || exists t :: t in s.pcs && s.pcs[t].EnqCas?
  }

  ghost predicate FrontCounts(s: Queue) {
    s.front == |s.taken| - 1 || exists t :: t in s.pcs && s.pcs[t].DeqSwap?
  }

  const ALL := Guards(true, true, true, true)

  lemma InitOrder(n: nat, s: Queue)
    requires Init(n, s)
    ensures OrderInv(s)
  {
  }

  /** The compare-and-swap of the one producer succeeds at once and appends. */
  lemma WindowPlaces(s: Queue, t: Tid)
    requires OrderInv(s) && t in s.pcs && s.pcs[t].EnqCas?
    ensures Vacant(s, |s.placed|) && Window(Next(s, Run(t)))
    ensures Next(s, Run(t)).placed == s.placed + [s.pcs[t].task]
  {
    var s', n, m := Next(s, Run(t)), |s.tasks|, |s.placed|;
    assert InTurn(s, s.pcs[t]) && Vacant(s, m);
    assert s.taken <= s'.placed;
    forall j: nat | |s'.taken| <= j < |s'.placed| ensures InPlace(s', j) {
      if j < m {
        assert InPlace(s, j);
        Slots.WithinLap(j, m, n);
      }
    }
    forall j: nat | |s'.placed| <= j < |s'.taken| + n ensures Vacant(s', j) {
      assert Vacant(s, j);
      Slots.WithinLap(m, j, n);
    }
  }

  /** The exchange of the one consumer finds the oldest task at once. */
  lemma WindowTakes(s: Queue, t: Tid)
    requires OrderInv(s) && t in s.pcs && s.pcs[t].DeqSwap?
    ensures InPlace(s, |s.taken|) && Window(Next(s, Run(t)))
    ensures Next(s, Run(t)).taken == s.placed[..|s.taken| + 1]
  {
    var s', n, m := Next(s, Run(t)), |s.tasks|, |s.taken|;
    assert InTurn(s, s.pcs[t]) && InPlace(s, m) && s.placed[m] in s.placed;
    assert s.taken + [s.placed[m]] == s.placed[..m + 1];
    forall j: nat | |s'.taken| <= j < |s'.placed| ensures InPlace(s', j) {
      assert InPlace(s, j);
      Slots.WithinLap(m, j, n);
    }
    forall j: nat | |s'.placed| <= j < |s'.taken| + n ensures Vacant(s', j) {
      if j < m + n {
        assert Vacant(s, j);
      } else {
        Slots.NextLap(m, n);
      }
    }
  }

  /** Every step of callers that observe all guards keeps the order. */
  lemma OrderNext(s: Queue, a: Action)
    requires OrderInv(s) && Enabled(s, a) && Permits(ALL, s, a)
    ensures OrderInv(Next(s, a))
  {
    assert InTurn(s, s.pcs[a.t]);
    if a.Run? && s.pcs[a.t].EnqCas? {
      WindowPlaces(s, a.t);
    } else if a.Run? && s.pcs[a.t].DeqSwap? {
      WindowTakes(s, a.t);
    } else {
      WindowStays(s, Next(s, a));
    }
    TurnsNext(s, a);
  }

  lemma WindowStays(s: Queue, s': Queue)
    requires 0 < |s.tasks| && Window(s) && s'.tasks == s.tasks && s'.placed == s.placed && s'.taken == s.taken
    ensures Window(s')
  {
    forall j: nat | |s.taken| <= j < |s.placed| ensures InPlace(s', j) { assert InPlace(s, j); }
    forall j: nat | |s.placed| <= j < |s.taken| + |s.tasks| ensures Vacant(s', j) { assert Vacant(s, j); }
  }

  lemma TurnsNext(s: Queue, a: Action)
    requires OrderInv(s) && Enabled(s, a) && Permits(ALL, s, a) && Window(Next(s, a))
    requires a.Run? && s.pcs[a.t].EnqCas? ==> Vacant(s, |s.placed|)
    requires a.Run? && s.pcs[a.t].DeqSwap? ==> |s.taken| < |s.placed| && InPlace(s, |s.taken|)
    ensures OrderInv(Next(s, a))
  {
    var s' := Next(s, a);
    assert InTurn(s, s.pcs[a.t]);
    if |s.taken| < |s.placed| { assert s.placed[|s.taken|] in s.placed; }
    CountedNext(s, a);
    forall u | u in s'.pcs ensures InTurn(s', s'.pcs[u]) {
      assert u in s.pcs && InTurn(s, s.pcs[u]);
    }
  }

  lemma CountedNext(s: Queue, a: Action)
    requires OneEach(s) && Counted(s) && Counters(s) && Enabled(s, a) && Permits(ALL, s, a) && InTurn(s, s.pcs[a.t])
    requires a.Run? && s.pcs[a.t].EnqCas? ==> Vacant(s, |s.placed|)
    requires a.Run? && s.pcs[a.t].DeqSwap? ==> |s.taken| < |s.placed| && InPlace(s, |s.taken|) && s.placed[|s.taken|].id != 0
    ensures Counted(Next(s, a)) && OneEach(Next(s, a))
  {
    RearNext(s, a);
    FrontNext(s, a);
    OneEachNext(s, a);
  }

  lemma RearNext(s: Queue, a: Action)
    requires RearCounts(s) && Counters(s) && Enabled(s, a) && InTurn(s, s.pcs[a.t])
    requires a.Run? && s.pcs[a.t].EnqCas? ==> Vacant(s, |s.placed|)
    ensures RearCounts(Next(s, a))
  {
    var s' := Next(s, a);
    if u :| u in s.pcs && s.pcs[u].EnqCas? && u != a.t {
      assert u in s'.pcs && s'.pcs[u].EnqCas?;
    } else {
      assert a.t in s'.pcs;
    }
  }

  lemma FrontNext(s: Queue, a: Action)
    requires FrontCounts(s) && Counters(s) && Enabled(s, a) && InTurn(s, s.pcs[a.t])
    requires a.Run? && s.pcs[a.t].DeqSwap? ==> |s.taken| < |s.placed| && InPlace(s, |s.taken|) && s.placed[|s.taken|].id != 0
    ensures FrontCounts(Next(s, a))
  {
    var s' := Next(s, a);
    if u :| u in s.pcs && s.pcs[u].DeqSwap? && u != a.t {
      assert u in s'.pcs && s'.pcs[u].DeqSwap?;
    } else {
      assert a.t in s'.pcs;
    }
  }

  lemma OneEachNext(s: Queue, a: Action)
    requires OneEach(s) && Counters(s) && Enabled(s, a) && Permits(ALL, s, a)
    ensures OneEach(Next(s, a))
  {
    var s' := Next(s, a);
    assert a.CallEnqueue? || (InEnqueue(s'.pcs[a.t]) ==> InEnqueue(s.pcs[a.t]));
    assert a.CallDequeue? || (InDequeue(s'.pcs[a.t]) ==> InDequeue(s.pcs[a.t]));
  }

  // A single slot needs less: one producer and room for each task.

  predicate SingleTurn(s: Queue, pc: Pc) {
    InEnqueue(pc) ==> pc.task.id != 0 && pc.expected == EMPTY && |s.taken| == |s.placed|
  }

  ghost predicate SingleInv(s: Queue) {
    && Counters(s) && |s.tasks| == 1 && s.taken <= s.placed && |s.placed| <= |s.taken| + 1
    && s.tasks[0] == (if |s.taken| < |s.placed| then s.placed[|s.taken|] else EMPTY)
    && (forall x :: x in s.placed ==> x.id != 0)
    && (forall t :: t in s.pcs ==> SingleTurn(s, s.pcs[t]))
    && (forall t, u :: t in s.pcs && u in s.pcs && InEnqueue(s.pcs[t]) && InEnqueue(s.pcs[u]) ==> t == u)
  }

  lemma SingleNext(s: Queue, a: Action)
    requires SingleInv(s) && Enabled(s, a) && Permits(Guards(true, false, true, false), s, a)
    ensures SingleInv(Next(s, a))
  {
    var s' := Next(s, a);
    assert SingleTurn(s, s.pcs[a.t]);
    if |s.taken| < |s.placed| {
      assert s.placed[|s.taken|] in s.placed && s.taken + [s.placed[|s.taken|]] == s.placed[..|s.taken| + 1];
    }
    forall u | u in s'.pcs ensures SingleTurn(s', s'.pcs[u]) {
      assert u in s.pcs && SingleTurn(s, s.pcs[u]);
    }
  }

  // Whole runs.

  /** The guards that n slots need. */
  predicate Enough(g: Guards, n: nat) {
    g.oneProducer && g.room && (n == 1 || (g.oneConsumer && g.stored))
  }

  lemma {:induction false} OrderAlways(g: Guards, n: nat, states: seq<Queue>, actions: seq<Action>, i: nat)
    requires Enough(g, n) && IsQueueRun(g, states, actions) && Init(n, states[0]) && i < |states|
    ensures if n == 1 then SingleInv(states[i]) else OrderInv(states[i])
  {
    if i == 0 {
      InitOrder(n, states[0]);
    } else {
      OrderAlways(g, n, states, actions, i - 1);
      assert Goes(g, states[i - 1], actions[i - 1], states[i]);
      if n == 1 { SingleNext(states[i - 1], actions[i - 1]); } else { OrderNext(states[i - 1], actions[i - 1]); }
    }
  }

  /** First in, first out in every reachable state, across any number of wrap-arounds. */
  lemma FirstOutAlways(g: Guards, n: nat, s0: Queue, s: Queue)
    requires Enough(g, n) && Init(n, s0) && RunTo(g, s0, s)
    ensures FirstOut(s)
  {
    var states: seq<Queue>, actions: seq<Action> :|
      IsQueueRun(g, states, actions) && states[0] == s0 && states[|actions|] == s;
    OrderAlways(g, n, states, actions, |actions|);
  }
}
