/** Linearizability of the gated ring in either order of the gate's loads. A dequeue that the gate turns
    away takes effect at an instant of its call at which the queue is empty; whether it will be turned
    away is decided only later, so the abstraction looks ahead in the run. */
module RingGate {
  import opened AtomicFifo
  import opened TicketRing
  import opened RingRefinement

  predicate InGate(pc: Pc) {
    pc.GateLapped? || pc.GateHead? || pc.GateTail? || pc.GateTailFirst? || pc.GateHeadLast?
  }

  predicate GateAt(s: Ring, t: Tid) { t in s.pcs && InGate(s.pcs[t]) }

  /** Step m turns a dequeue away. */
  ghost predicate TurnedAt(states: seq<Ring>, actions: seq<Action>, m: nat) {
    m < |actions| && m < |states| && actions[m].t in states[m].pcs && TurnsAway(states[m], actions[m])
  }

  /** The queue is empty in state e, which lies in the call that step m turns away. */
  ghost predicate EmptyInCall(states: seq<Ring>, actions: seq<Action>, m: nat, e: nat)
    requires m < |actions| < |states|
  {
    e <= m && |states[e].enq| <= |states[e].deq| && forall k: nat :: e <= k <= m ==> GateAt(states[k], actions[m].t)
  }

  ghost predicate HasMoment(states: seq<Ring>, actions: seq<Action>, m: nat)
    requires m < |actions| < |states|
  {
    exists e: nat :: EmptyInCall(states, actions, m, e)
  }

  /** Every dequeue that is turned away met an empty queue at some instant of its call. */
  ghost predicate Justified(states: seq<Ring>, actions: seq<Action>)
    requires |actions| < |states|
  {
    forall m: nat :: TurnedAt(states, actions, m) ==> HasMoment(states, actions, m)
  }

  /** The instant at which it takes effect. */
  ghost function Moment(states: seq<Ring>, actions: seq<Action>, m: nat): (e: nat)
    requires m < |actions| < |states| && HasMoment(states, actions, m)
    ensures EmptyInCall(states, actions, m, e)
  {
    var e: nat :| EmptyInCall(states, actions, m, e);
    e
  }

  /** In state i thread t is in a call that step m will turn away, and its moment is e. */
  ghost predicate ToBeTurned(states: seq<Ring>, actions: seq<Action>, i: nat, t: Tid, m: nat, e: nat)
    requires |actions| < |states|
  {
    && i <= m && TurnedAt(states, actions, m) && actions[m].t == t
    && HasMoment(states, actions, m) && Moment(states, actions, m) == e
  }

  /** The threads whose answer "empty" has taken effect before state i. */
  ghost function Answered(states: seq<Ring>, actions: seq<Action>, i: nat): set<Tid>
    requires |actions| < |states| && i < |states|
  {
    set t | t in states[i].pcs && exists m: nat, e: nat :: e < i && ToBeTurned(states, actions, i, t, m, e)
  }

  /** The threads whose answer takes effect in state i. */
  ghost function Fresh(states: seq<Ring>, actions: seq<Action>, i: nat): set<Tid>
    requires |actions| < |states| && i < |states|
  {
    set t | t in states[i].pcs && exists m: nat :: ToBeTurned(states, actions, i, t, m, i)
  }

  /** The threads of S have got the answer "empty". */
  function Emptied<T>(f: Fifo<T>, S: set<Tid>): Fifo<T> {
    f.(calls := map t | t in f.calls :: if t in S then Dequeued(None) else f.calls[t])
  }

  ghost function AbsAt(states: seq<Ring>, actions: seq<Action>, i: nat): Fifo<int>
    requires |actions| < |states| && i < |states|
  {
    Emptied(Abs(states[i]), Answered(states, actions, i))
  }

  /** On an empty queue any number of pending dequeues get their answer first. */
  lemma {:induction false} AnswerAll<T(!new)>(f: Fifo<T>, S: set<Tid>, ts: seq<Tid>, l: Label<T>, b: Fifo<T>) returns (us: seq<Tid>)
    requires S != {} ==> f.q == []
    requires forall t :: t in S ==> t in f.calls && f.calls[t] == Dequeuing
    requires Moves(Emptied(f, S), ts, l, b)
    ensures Moves(f, us, l, b)
    decreases S
  {
    if S == {} {
      assert Emptied(f, S) == f;
      us := ts;
    } else {
      var t :| t in S;
      var f' := Effect(f, t);
      assert Emptied(f', S - {t}) == Emptied(f, S);
      var rest := AnswerAll(f', S - {t}, ts, l, b);
      us := [t] + rest;
      assert us[1..] == rest;
    }
  }

  /** A step that does not concern the threads of S goes the same way when they have their answer. */
  lemma {:induction false} Frame<T>(f: Fifo<T>, ts: seq<Tid>, l: Label<T>, b: Fifo<T>, S: set<Tid>)
    requires Moves(f, ts, l, b) && forall t :: t in S ==> t !in ts && !Concerns(l, t)
    ensures Moves(Emptied(f, S), ts, l, Emptied(b, S))
    decreases |ts|
  {
    if ts == [] {
      VisibleFrame(f, l, b, S);
    } else {
      assert ts[0] !in S;
      assert Emptied(Effect(f, ts[0]), S) == Effect(Emptied(f, S), ts[0]);
      Frame(Effect(f, ts[0]), ts[1..], l, b, S);
    }
  }

  lemma VisibleFrame<T>(f: Fifo<T>, l: Label<T>, b: Fifo<T>, S: set<Tid>)
    requires Visible(f, l, b) && forall t :: t in S ==> !Concerns(l, t)
    ensures Visible(Emptied(f, S), l, Emptied(b, S))
  {
    match l {
      case Tau =>
      case CallEnq(t, v) => assert Emptied(b, S).calls == Emptied(f, S).calls[t := Enqueuing(v)];
      case CallDeq(t) => assert Emptied(b, S).calls == Emptied(f, S).calls[t := Dequeuing];
      case RetEnq(t) => assert Emptied(b, S).calls == Emptied(f, S).calls[t := Quiet];
      case RetDeq(t, _) => assert Emptied(b, S).calls == Emptied(f, S).calls[t := Quiet];
    }
  }

  /** A step that turns nobody away concerns no thread that is in the gate before and after it. */
  lemma GateUnconcerned(g: Gate, s: Ring, a: Action, t: Tid)
    requires Matched(s) && Enabled(s, a) && !TurnsAway(s, a) && GateAt(s, t)
    ensures t !in EffectsOf(s, a) && !Concerns(LabelOf(s, a), t)
  {
    if a.Run? && s.pcs[a.t].EnqTake? && |s.enq| < |s.deq| {
      assert !Done(s, |s.enq|);
      assert DeqHolds(s.pcs[s.deq[|s.enq|].owner], |s.enq|);
    }
  }

  lemma GateMeansDequeuing(s: Ring, t: Tid)
    requires GateAt(s, t)
    ensures t in Abs(s).calls && Abs(s).calls[t] == Dequeuing
  {
  }

  /** Between two states the answers are those before and the fresh ones, less that of a dequeue that
      returns. */
  lemma AnswersNext(states: seq<Ring>, actions: seq<Action>, i: nat)
    requires |states| == |actions| + 1 && Justified(states, actions) && i < |actions|
    requires states[i].pcs.Keys == states[i + 1].pcs.Keys && actions[i].t in states[i].pcs
    requires TurnsAway(states[i], actions[i]) ==> states[i + 1].pcs[actions[i].t] == Idle
    ensures var before, after := Answered(states, actions, i) + Fresh(states, actions, i), Answered(states, actions, i + 1);
      if TurnsAway(states[i], actions[i]) then before == after + {actions[i].t} && actions[i].t !in after else before == after
  {
    var t0, turned := actions[i].t, TurnsAway(states[i], actions[i]);
    forall t | t in states[i].pcs
      ensures t in Answered(states, actions, i) + Fresh(states, actions, i)
              <==> t in Answered(states, actions, i + 1) || (turned && t == t0)
    {
      AnswerNext(states, actions, i, t);
    }
    AnsweredInGate(states, actions, i + 1, t0);
  }

  lemma AnswerNext(states: seq<Ring>, actions: seq<Action>, i: nat, t: Tid)
    requires |states| == |actions| + 1 && Justified(states, actions) && i < |actions|
    requires states[i].pcs.Keys == states[i + 1].pcs.Keys && actions[i].t in states[i].pcs && t in states[i].pcs
    ensures t in Answered(states, actions, i) + Fresh(states, actions, i)
            <==> t in Answered(states, actions, i + 1) || (TurnsAway(states[i], actions[i]) && t == actions[i].t)
  {
    if t in Answered(states, actions, i) {
      var m: nat, e: nat :| e < i && ToBeTurned(states, actions, i, t, m, e);
      if m > i { assert ToBeTurned(states, actions, i + 1, t, m, e); }
    } else if t in Fresh(states, actions, i) {
      var m: nat :| ToBeTurned(states, actions, i, t, m, i);
      if m > i { assert ToBeTurned(states, actions, i + 1, t, m, i); }
    }
    if t in Answered(states, actions, i + 1) {
      var m: nat, e: nat :| e < i + 1 && ToBeTurned(states, actions, i + 1, t, m, e);
      assert ToBeTurned(states, actions, i, t, m, e);
    }
    if TurnsAway(states[i], actions[i]) && t == actions[i].t {
      assert TurnedAt(states, actions, i);
      var e := Moment(states, actions, i);
      assert ToBeTurned(states, actions, i, t, i, e);
    }
  }

  /** A thread that has its answer is in the gate, and if the answer is fresh the queue is empty. */
  lemma AnsweredInGate(states: seq<Ring>, actions: seq<Action>, i: nat, t: Tid)
    requires |actions| < |states| && i < |states|
    ensures t in Answered(states, actions, i) + Fresh(states, actions, i) ==> GateAt(states[i], t)
    ensures t in Fresh(states, actions, i) ==> |states[i].enq| <= |states[i].deq|
  {
    if t in Answered(states, actions, i) {
      var m: nat, e: nat :| e < i && ToBeTurned(states, actions, i, t, m, e);
      assert EmptyInCall(states, actions, m, e);
    }
    if t in Fresh(states, actions, i) {
      var m: nat :| ToBeTurned(states, actions, i, t, m, i);
      assert EmptyInCall(states, actions, m, i);
    }
  }

  // The steps.

  /** A step of the ring that turns nobody away, next to any number of answered dequeues. */
  lemma StepPasses(g: Gate, s: Ring, a: Action, A: set<Tid>, B: set<Tid>) returns (us: seq<Tid>)
    requires Matched(s) && Enabled(s, a) && NoLap(s, a) && !TurnsAway(s, a)
    requires forall t :: t in A + B ==> GateAt(s, t)
    requires B != {} ==> |s.enq| <= |s.deq|
    requires A !! B
    ensures Moves(Emptied(Abs(s), A), us, LabelOf(s, a), Emptied(Abs(Next(g, s, a)), A + B))
  {
    var s', ts, l := Next(g, s, a), EffectsOf(s, a), LabelOf(s, a);
    Simulation(g, s, a);
    forall t | t in A + B ensures t !in ts && !Concerns(l, t) { GateUnconcerned(g, s, a, t); }
    Frame(Abs(s), ts, l, Abs(s'), A + B);
    EmptiedTwice(Abs(s), A, B);
    forall t | t in B ensures t in Abs(s).calls && Abs(s).calls[t] == Dequeuing { GateMeansDequeuing(s, t); }
    EmptyQueue(s);
    us := AnswerAll(Emptied(Abs(s), A), B, ts, l, Emptied(Abs(s'), A + B));
  }

  lemma EmptiedTwice<T>(f: Fifo<T>, A: set<Tid>, B: set<Tid>)
    ensures Emptied(Emptied(f, A), B) == Emptied(f, A + B)
  {
  }

  lemma EmptyQueue(s: Ring)
    ensures |s.enq| <= |s.deq| <==> Abs(s).q == []
  {
    assert |Abs(s).q| == |s.enq| - Served(s);
  }

  /** A step that turns a dequeue away, which has its answer by then. */
  lemma StepTurns(g: Gate, s: Ring, a: Action, A: set<Tid>, B: set<Tid>, C: set<Tid>) returns (us: seq<Tid>)
    requires Matched(s) && Enabled(s, a) && TurnsAway(s, a)
    requires forall t :: t in A + B ==> GateAt(s, t)
    requires B != {} ==> |s.enq| <= |s.deq|
    requires A !! B && A + B == C + {a.t} && a.t !in C
    ensures Moves(Emptied(Abs(s), A), us, LabelOf(s, a), Emptied(Abs(Next(g, s, a)), C))
  {
    var s', l := Next(g, s, a), LabelOf(s, a);
    var f, b := Emptied(Abs(s), A + B), Emptied(Abs(s'), C);
    assert s' == s.(pcs := s.pcs[a.t := Idle]) && l == RetDeq(a.t, None);
    assert a.t in A + B && f.calls[a.t] == Dequeued(None);
    assert b.calls == f.calls[a.t := Quiet];
    assert Moves(f, [], l, b);
    EmptiedTwice(Abs(s), A, B);
    forall t | t in B ensures t in Abs(s).calls && Abs(s).calls[t] == Dequeuing { GateMeansDequeuing(s, t); }
    EmptyQueue(s);
    us := AnswerAll(Emptied(Abs(s), A), B, [], l, b);
  }

  lemma StepAt(g: Gate, states: seq<Ring>, actions: seq<Action>, i: nat)
    requires IsRingRun(g, states, actions) && NeverLaps(states, actions) && Justified(states, actions) && i < |actions|
    ensures Step(AbsAt(states, actions, i), LabelOf(states[i], actions[i]), AbsAt(states, actions, i + 1))
  {
    var s, a := states[i], actions[i];
    var A, C := Answered(states, actions, i), Answered(states, actions, i + 1);
    var B := Fresh(states, actions, i) - A;
    MatchedAlways(g, states, actions, i);
    SameThreads(g, s, a);
    AnswersNext(states, actions, i);
    forall t | t in A + B ensures GateAt(s, t) { AnsweredInGate(states, actions, i, t); }
    if t :| t in B { AnsweredInGate(states, actions, i, t); }
    assert A + B == A + Fresh(states, actions, i);
    if TurnsAway(s, a) {
      var us := StepTurns(g, s, a, A, B, C);
    } else {
      var us := StepPasses(g, s, a, A, B);
    }
  }

  lemma SameThreads(g: Gate, s: Ring, a: Action)
    requires Owned(s) && Enabled(s, a)
    ensures Next(g, s, a).pcs.Keys == s.pcs.Keys
    ensures TurnsAway(s, a) ==> Next(g, s, a).pcs[a.t] == Idle
  {
  }

  /** Every run that does not lap, in which each dequeue that is turned away met an empty queue at some
      instant of its call, is linearizable. */
  lemma JustifiedIsLinearizable(g: Gate, states: seq<Ring>, actions: seq<Action>)
    requires IsRingRun(g, states, actions) && NeverLaps(states, actions) && Justified(states, actions)
    ensures Explained(Labels(states, actions))
  {
    var fs, ls := AbsRun(states, actions), Labels(states, actions);
    NobodyAnswered(states, actions);
    forall i | 0 <= i < |ls| ensures Step(fs[i], ls[i], fs[i + 1]) {
      StepAt(g, states, actions, i);
    }
    ItExplains(fs, ls);
  }

  ghost function AbsRun(states: seq<Ring>, actions: seq<Action>): (fs: seq<Fifo<int>>)
    requires |actions| < |states|
    ensures |fs| == |states| && forall i :: 0 <= i < |fs| ==> fs[i] == AbsAt(states, actions, i)
  {
    seq(|states|, i requires 0 <= i < |states| => AbsAt(states, actions, i))
  }

  lemma ItExplains<T(!new)>(fs: seq<Fifo<T>>, ls: seq<Label<T>>)
    requires |fs| == |ls| + 1 && Start(fs[0]) && forall i :: 0 <= i < |ls| ==> Step(fs[i], ls[i], fs[i + 1])
    ensures Explained(ls)
  {
    assert IsRun(fs, ls);
  }

  lemma NobodyAnswered(states: seq<Ring>, actions: seq<Action>)
    requires |actions| < |states| && Init(states[0])
    ensures Start(AbsAt(states, actions, 0))
  {
    AbsInit(states[0]);
    assert Answered(states, actions, 0) == {};
  }

  // When every dequeue that is turned away is justified.

  /** Every state of a run is Owned, lapping or not. */
  lemma {:induction false} OwnedAlways(g: Gate, states: seq<Ring>, actions: seq<Action>, i: nat)
    requires IsRingRun(g, states, actions) && i < |states|
    ensures Owned(states[i])
  {
    if i > 0 {
      OwnedAlways(g, states, actions, i - 1);
      OwnedNext(g, states[i - 1], actions[i - 1]);
    }
  }

  /** The first load of a comparison is done. */
  predicate Comparing(pc: Pc) { pc.GateTail? || pc.GateHeadLast? }

  /** It was loaded from `head` or from `tail`. */
  predicate LoadsFirst(s: Ring, t: Tid, pc: Pc)
    requires Comparing(pc)
  {
    && t in s.pcs
    && if pc.GateTail? then s.pcs[t].GateHead? && pc.h == s.head else s.pcs[t].GateTailFirst? && pc.x == s.tail
  }

  /** Where a thread in the middle of a comparison did its first load, in the same call. */
  lemma {:induction false} FirstLoad(g: Gate, states: seq<Ring>, actions: seq<Action>, t: Tid, m: nat) returns (e: nat)
    requires IsRingRun(g, states, actions) && m < |states|
    requires t in states[m].pcs && Comparing(states[m].pcs[t])
    ensures e < m && actions[e] == Run(t) && LoadsFirst(states[e], t, states[m].pcs[t])
    ensures forall k: nat :: e <= k <= m ==> GateAt(states[k], t)
    ensures forall k: nat :: e < k <= m ==> t in states[k].pcs && states[k].pcs[t] == states[m].pcs[t]
  {
    assert m > 0;
    OwnedAlways(g, states, actions, m - 1);
    ReachesComparison(g, states[m - 1], actions[m - 1], t);
    if Comparing(states[m - 1].pcs[t]) {
      e := FirstLoad(g, states, actions, t, m - 1);
    } else {
      e := m - 1;
    }
  }

  lemma ReachesComparison(g: Gate, s: Ring, a: Action, t: Tid)
    requires Owned(s) && Enabled(s, a) && t in Next(g, s, a).pcs && Comparing(Next(g, s, a).pcs[t])
    ensures t in s.pcs
    ensures s.pcs[t] == Next(g, s, a).pcs[t] || (a == Run(t) && LoadsFirst(s, t, Next(g, s, a).pcs[t]))
  {
  }

  /** In every run, lapping or not: the second access of a comparison answers "empty" exactly if what it
      loads is what the first access of the same call loaded from the other counter; if not, the dequeue
      goes on to its ticket. */
  lemma AnswersByLoads(g: Gate, states: seq<Ring>, actions: seq<Action>, m: nat) returns (e: nat)
    requires IsRingRun(g, states, actions) && m < |actions| && actions[m].Run?
    requires actions[m].t in states[m].pcs && Comparing(states[m].pcs[actions[m].t])
    ensures e < m && actions[e] == actions[m] && Enabled(states[m], actions[m]) && actions[m].t in states[e].pcs
    ensures forall k: nat :: e <= k <= m ==> GateAt(states[k], actions[m].t)
    ensures LabelOf(states[m], actions[m]) == RetDeq(actions[m].t, None)
            <==> if states[e].pcs[actions[m].t].GateHead? then states[e].head == states[m].tail else states[e].tail == states[m].head
    ensures actions[m].t in states[m + 1].pcs
    ensures states[m + 1].pcs[actions[m].t] == if LabelOf(states[m], actions[m]) == Tau then DeqTake else Idle
  {
    OwnedAlways(g, states, actions, m);
    e := FirstLoad(g, states, actions, actions[m].t, m);
  }

  /** Where a thread that loaded `tail` first did so. */
  lemma LoadedTail(g: Gate, states: seq<Ring>, actions: seq<Action>, t: Tid, m: nat) returns (e: nat)
    requires IsRingRun(g, states, actions) && m < |states|
    requires t in states[m].pcs && states[m].pcs[t].GateHeadLast?
    ensures e < m && states[e].tail == states[m].pcs[t].x
    ensures forall k: nat :: e <= k <= m ==> GateAt(states[k], t)
  {
    e := FirstLoad(g, states, actions, t, m);
  }

  lemma HeadFirstJustified(g: Gate, states: seq<Ring>, actions: seq<Action>)
    requires IsRingRun(g, states, actions) && NeverLaps(states, actions) && NeverMisled(states, actions)
    ensures Justified(states, actions)
  {
    forall m: nat | TurnedAt(states, actions, m) ensures HasMoment(states, actions, m) {
      MatchedAlways(g, states, actions, m);
      EmptyUnlessMisled(states[m], actions[m]);
      EmptyQueue(states[m]);
      assert EmptyInCall(states, actions, m, m);
    }
  }

  // With a single slot the queue was empty when `tail` moved on.

  /** The first step after state e that moves `tail`. */
  lemma {:induction false} TailMoves(g: Gate, states: seq<Ring>, actions: seq<Action>, e: nat, m: nat) returns (k: nat)
    requires IsRingRun(g, states, actions) && NeverLaps(states, actions) && e <= m < |states|
    requires states[e].tail != states[m].tail
    ensures e <= k < m && states[k].tail == states[e].tail
    ensures actions[k].Run? && states[k].pcs[actions[k].t].EnqTake?
  {
    MatchedAlways(g, states, actions, m - 1);
    if states[m - 1].tail != states[e].tail {
      k := TailMoves(g, states, actions, e, m - 1);
    } else {
      k := m - 1;
    }
  }

  lemma SingleSlotEmpty(s: Ring, a: Action)
    requires Matched(s) && Enabled(s, a) && NoLap(s, a) && s.N() == 1 && a.Run? && s.pcs[a.t].EnqTake?
    ensures |s.enq| <= |s.deq|
  {
  }

  lemma {:induction false} SlotsStay(g: Gate, states: seq<Ring>, actions: seq<Action>, i: nat)
    requires IsRingRun(g, states, actions) && NeverLaps(states, actions) && i < |states|
    ensures states[i].N() == states[0].N()
  {
    if i > 0 {
      SlotsStay(g, states, actions, i - 1);
      MatchedAlways(g, states, actions, i - 1);
    }
  }

  lemma SingleSlotJustified(g: Gate, states: seq<Ring>, actions: seq<Action>)
    requires IsRingRun(g, states, actions) && NeverLaps(states, actions) && states[0].N() == 1
    ensures Justified(states, actions)
  {
    forall m: nat | TurnedAt(states, actions, m) ensures HasMoment(states, actions, m) {
      SingleSlotMoment(g, states, actions, m);
    }
  }

  lemma SingleSlotMoment(g: Gate, states: seq<Ring>, actions: seq<Action>, m: nat)
    requires IsRingRun(g, states, actions) && NeverLaps(states, actions) && states[0].N() == 1 && TurnedAt(states, actions, m)
    ensures HasMoment(states, actions, m)
  {
    MatchedAlways(g, states, actions, m);
    EmptyUnlessMisled(states[m], actions[m]);
    EmptyQueue(states[m]);
    if Misled(states[m], actions[m]) {
      var e := LoadedTail(g, states, actions, actions[m].t, m);
      var k := TailMoves(g, states, actions, e, m);
      MatchedAlways(g, states, actions, k);
      SlotsStay(g, states, actions, k);
      SingleSlotEmpty(states[k], actions[k]);
      assert EmptyInCall(states, actions, m, k);
    } else {
      assert EmptyInCall(states, actions, m, m);
    }
  }

  // When dequeues do not overlap `head` stands still during a comparison.

  predicate InDequeue(pc: Pc) {
    InGate(pc) || pc.DeqTake? || pc.DeqSpin? || pc.DeqRead? || pc.DeqZero?
  }

  /** No dequeue is called while another one is running. */
  ghost predicate DequeuesApart(states: seq<Ring>, actions: seq<Action>)
    requires |actions| < |states|
  {
    forall i :: 0 <= i < |actions| && actions[i].CallDequeue? ==> forall t :: t in states[i].pcs ==> !InDequeue(states[i].pcs[t])
  }

  ghost predicate OneDequeue(s: Ring) {
    forall t, u :: t in s.pcs && u in s.pcs && InDequeue(s.pcs[t]) && InDequeue(s.pcs[u]) ==> t == u
  }

  lemma OneDequeueNext(g: Gate, s: Ring, a: Action)
    requires Owned(s) && Enabled(s, a) && OneDequeue(s)
    requires a.CallDequeue? ==> forall t :: t in s.pcs ==> !InDequeue(s.pcs[t])
    ensures OneDequeue(Next(g, s, a))
  {
    var s' := Next(g, s, a);
    assert a.CallDequeue? || (InDequeue(s'.pcs[a.t]) ==> InDequeue(s.pcs[a.t]));
    assert s'.pcs == s.pcs[a.t := s'.pcs[a.t]];
  }

  lemma {:induction false} OneDequeueAlways(g: Gate, states: seq<Ring>, actions: seq<Action>, i: nat)
    requires IsRingRun(g, states, actions) && NeverLaps(states, actions) && DequeuesApart(states, actions) && i < |states|
    ensures OneDequeue(states[i])
  {
    if i > 0 {
      OneDequeueAlways(g, states, actions, i - 1);
      MatchedAlways(g, states, actions, i - 1);
      OneDequeueNext(g, states[i - 1], actions[i - 1]);
    }
  }

  /** While t is in the gate nobody else takes a dequeue ticket. */
  lemma HeadStandsStill(g: Gate, s: Ring, a: Action, t: Tid)
    requires Owned(s) && Enabled(s, a) && OneDequeue(s) && GateAt(s, t)
    ensures Next(g, s, a).head == s.head
  {
    assert a.Run? && s.pcs[a.t].DeqTake? ==> a.t == t;
  }

  lemma {:induction false} HeadStays(g: Gate, states: seq<Ring>, actions: seq<Action>, t: Tid, e: nat, m: nat)
    requires IsRingRun(g, states, actions) && NeverLaps(states, actions) && DequeuesApart(states, actions) && e <= m < |states|
    requires forall k: nat :: e <= k <= m ==> GateAt(states[k], t)
    ensures states[e].head == states[m].head
  {
    if e < m {
      HeadStays(g, states, actions, t, e, m - 1);
      HeadStaysAt(g, states, actions, t, m - 1);
    }
  }

  lemma HeadStaysAt(g: Gate, states: seq<Ring>, actions: seq<Action>, t: Tid, k: nat)
    requires IsRingRun(g, states, actions) && NeverLaps(states, actions) && DequeuesApart(states, actions) && k < |actions|
    requires GateAt(states[k], t)
    ensures states[k + 1].head == states[k].head
  {
    OwnedAlways(g, states, actions, k);
    OneDequeueAlways(g, states, actions, k);
    HeadStandsStill(g, states[k], actions[k], t);
  }

  lemma ApartMoment(g: Gate, states: seq<Ring>, actions: seq<Action>, m: nat)
    requires IsRingRun(g, states, actions) && NeverLaps(states, actions) && DequeuesApart(states, actions) && TurnedAt(states, actions, m)
    ensures HasMoment(states, actions, m)
  {
    MatchedAlways(g, states, actions, m);
    EmptyUnlessMisled(states[m], actions[m]);
    EmptyQueue(states[m]);
    if Misled(states[m], actions[m]) {
      var e := LoadedTail(g, states, actions, actions[m].t, m);
      HeadStays(g, states, actions, actions[m].t, e, m);
      MatchedAlways(g, states, actions, e);
      assert EmptyInCall(states, actions, m, e);
    } else {
      assert EmptyInCall(states, actions, m, m);
    }
  }

  lemma ApartJustified(g: Gate, states: seq<Ring>, actions: seq<Action>)
    requires IsRingRun(g, states, actions) && NeverLaps(states, actions) && DequeuesApart(states, actions)
    ensures Justified(states, actions)
  {
    forall m: nat | TurnedAt(states, actions, m) ensures HasMoment(states, actions, m) {
      ApartMoment(g, states, actions, m);
    }
  }

  /** Linearizability of the ring: every run that does not lap, without a gate, with one that loads `head`
      first, with one slot, or if dequeues do not overlap. */
  lemma Linearizable(g: Gate, states: seq<Ring>, actions: seq<Action>)
    requires IsRingRun(g, states, actions) && NeverLaps(states, actions)
    requires g.TailFirst() ==> NeverMisled(states, actions) || DequeuesApart(states, actions) || states[0].N() == 1
    ensures Explained(Labels(states, actions))
  {
    if !g.TailFirst() { HeadFirstNeverMisled(g, states, actions); }
    if NeverMisled(states, actions) {
      HeadFirstJustified(g, states, actions);
    } else if DequeuesApart(states, actions) {
      ApartJustified(g, states, actions);
    } else {
      SingleSlotJustified(g, states, actions);
    }
    JustifiedIsLinearizable(g, states, actions);
  }
}
