/** The ticket ring refines the atomic FIFO queue, whatever the schedule, as long as tickets do
    not lap. Enqueue ticket k takes effect when it is issued; dequeue ticket k takes effect when
    both tickets k have been issued, so a dequeuer that came first is served by the enqueuer. */
module RingRefinement {
  import opened AtomicFifo
  import opened TicketRing

  function Values(enq: seq<EnqTicket>): (vs: seq<int>)
    ensures |vs| == |enq|
  {
    seq(|enq|, i requires 0 <= i < |enq| => enq[i].v)
  }

  function Taken(enq: seq<EnqTicket>, k: nat): Call<int> {
    if k < |enq| then Dequeued(Some(enq[k].v)) else Dequeuing
  }

  function AbsCall(enq: seq<EnqTicket>, pc: Pc): Call<int> {
    match pc
    case Idle => Quiet
    case EnqTake(v) => Enqueuing(v)
    case EnqStore(_, _) => Enqueued
    case DeqSpin(k) => Taken(enq, k)
    case DeqRead(k) => Taken(enq, k)
    case DeqZero(k, _) => Taken(enq, k)
    case _ => Dequeuing
  }

  /** Elements whose two tickets are both issued are out; the other enqueued elements are the queue. */
  function Served(s: Ring): nat { if |s.deq| < |s.enq| then |s.deq| else |s.enq| }

  function Abs(s: Ring): Fifo<int> {
    var vs := Values(s.enq);
    Fifo(vs[Served(s)..], vs, vs[..Served(s)], map t | t in s.pcs :: AbsCall(s.enq, s.pcs[t]))
  }

  /** The threads whose operations take effect at the step, in order. */
  function EffectsOf(s: Ring, a: Action): seq<Tid>
    requires Enabled(s, a)
  {
    if !a.Run? then []
    else match s.pcs[a.t]
      case EnqTake(_) => if |s.enq| < |s.deq| then [a.t, s.deq[|s.enq|].owner] else [a.t]
      case DeqTake => if |s.deq| < |s.enq| then [a.t] else []
      case GateTail(h) => if h == s.tail then [a.t] else []
      case GateHeadLast(x) => if s.head == x then [a.t] else []
      case _ => []
  }

  /** On an empty queue an insertion and a waiting removal cancel. */
  lemma InsertThenServe<T>(f: Fifo<T>, t: Tid, u: Tid, v: T, b: Fifo<T>)
    requires t in f.calls && u in f.calls && f.calls[t] == Enqueuing(v) && f.calls[u] == Dequeuing && f.q == []
    requires b == Fifo([], f.ins + [v], f.outs + [v], f.calls[t := Enqueued][u := Dequeued(Some(v))])
    ensures Moves(f, [t, u], Tau, b)
  {
    var f1 := Effect(f, t);
    assert f1.q == [v];
    var f2 := Effect(f1, u);
    assert f2 == b;
    assert Moves(f2, [], Tau, b) && Moves(f1, [u], Tau, b);
    assert [t, u][1..] == [u];
  }

  /** The calls after the enqueue ticket T was issued: the enqueuer and the dequeuer of T are answered. */
  lemma ServedCalls(g: Gate, s: Ring, a: Action)
    requires Matched(s) && Enabled(s, a) && a.Run? && s.pcs[a.t].EnqTake? && |s.enq| < |s.deq|
    ensures var s', T := Next(g, s, a), |s.enq|;
      && s.deq[T].owner in s.pcs && AbsCall(s.enq, s.pcs[s.deq[T].owner]) == Dequeuing
      && Abs(s').calls == Abs(s).calls[a.t := Enqueued][s.deq[T].owner := Dequeued(Some(s.pcs[a.t].v))]
  {
    var s', T := Next(g, s, a), |s.enq|;
    assert !Done(s, T);
    var calls := Abs(s).calls[a.t := Enqueued][s.deq[T].owner := Dequeued(Some(s.pcs[a.t].v))];
    forall t | t in s.pcs ensures Abs(s').calls[t] == calls[t] {
      assert HoldsTicket(s, t, s.pcs[t]);
    }
    assert Abs(s').calls.Keys == calls.Keys;
  }

  /** Issuing an enqueue ticket that a dequeuer already waits for: insertion and removal at once. */
  lemma ServesWaiting(g: Gate, s: Ring, a: Action)
    requires Matched(s) && Enabled(s, a) && a.Run? && s.pcs[a.t].EnqTake? && |s.enq| < |s.deq|
    ensures Moves(Abs(s), EffectsOf(s, a), LabelOf(s, a), Abs(Next(g, s, a)))
  {
    var s', v := Next(g, s, a), s.pcs[a.t].v;
    ServedCalls(g, s, a);
    assert Values(s'.enq) == Values(s.enq) + [v];
    assert Values(s.enq)[..|s.enq|] == Values(s.enq) && Values(s'.enq)[..|s'.enq|] == Values(s'.enq);
    InsertThenServe(Abs(s), a.t, s.deq[|s.enq|].owner, v, Abs(s'));
  }

  lemma InsertAlone<T>(f: Fifo<T>, t: Tid, v: T, b: Fifo<T>)
    requires t in f.calls && f.calls[t] == Enqueuing(v)
    requires b == Fifo(f.q + [v], f.ins + [v], f.outs, f.calls[t := Enqueued])
    ensures Moves(f, [t], Tau, b)
  {
    assert Effect(f, t) == b && Moves(b, [], Tau, b) && [t][1..] == [];
  }

  lemma RemoveAlone<T>(f: Fifo<T>, t: Tid, b: Fifo<T>)
    requires t in f.calls && f.calls[t] == Dequeuing && f.q != []
    requires b == Fifo(f.q[1..], f.ins, f.outs + [f.q[0]], f.calls[t := Dequeued(Some(f.q[0]))])
    ensures Moves(f, [t], Tau, b)
  {
    assert Effect(f, t) == b && Moves(b, [], Tau, b) && [t][1..] == [];
  }

  /** Issuing an enqueue ticket ahead of the dequeuers. */
  lemma Inserts(g: Gate, s: Ring, a: Action)
    requires Matched(s) && Enabled(s, a) && a.Run? && s.pcs[a.t].EnqTake? && |s.deq| <= |s.enq|
    ensures Moves(Abs(s), EffectsOf(s, a), LabelOf(s, a), Abs(Next(g, s, a)))
  {
    var s', v := Next(g, s, a), s.pcs[a.t].v;
    var vs, d, calls := Values(s.enq), |s.deq|, Abs(s).calls[a.t := Enqueued];
    assert Values(s'.enq) == vs + [v];
    assert (vs + [v])[d..] == vs[d..] + [v] && (vs + [v])[..d] == vs[..d];
    forall t | t in s.pcs ensures Abs(s').calls[t] == calls[t] {
      assert HoldsTicket(s, t, s.pcs[t]);
    }
    assert Abs(s').calls == calls;
    InsertAlone(Abs(s), a.t, v, Abs(s'));
  }

  /** Issuing a dequeue ticket: it takes effect at once if its element has been inserted. */
  lemma TakesDequeueTicket(g: Gate, s: Ring, a: Action)
    requires Matched(s) && Enabled(s, a) && a.Run? && s.pcs[a.t].DeqTake?
    ensures Moves(Abs(s), EffectsOf(s, a), LabelOf(s, a), Abs(Next(g, s, a)))
  {
    var s', vs, d := Next(g, s, a), Values(s.enq), |s.deq|;
    var calls := Abs(s).calls[a.t := Taken(s.enq, d)];
    assert Abs(s').calls == calls;
    if d < |s.enq| {
      assert vs[d..][1..] == vs[d + 1..] && vs[..d] + [vs[d]] == vs[..d + 1];
      RemoveAlone(Abs(s), a.t, Abs(s'));
    } else {
      assert Abs(s') == Abs(s);
    }
  }

  /** The gate turns the dequeue away at its last load. */
  predicate TurnsAway(s: Ring, a: Action)
    requires a.t in s.pcs
  {
    && a.Run?
    && ((s.pcs[a.t].GateTail? && s.pcs[a.t].h == s.tail) || (s.pcs[a.t].GateHeadLast? && s.pcs[a.t].x == s.head))
  }

  /** A gate that loaded `tail` first turns the dequeue away although `tail` has moved since. */
  predicate Misled(s: Ring, a: Action)
    requires a.t in s.pcs
  {
    a.Run? && s.pcs[a.t].GateHeadLast? && s.pcs[a.t].x == s.head && s.pcs[a.t].x != s.tail
  }

  /** A gate that turns a dequeue away speaks the truth exactly when it is not misled. */
  lemma EmptyUnlessMisled(s: Ring, a: Action)
    requires Matched(s) && Enabled(s, a) && TurnsAway(s, a)
    ensures Abs(s).q == [] <==> !Misled(s, a)
  {
    assert HoldsTicket(s, a.t, s.pcs[a.t]);
    assert |Abs(s).q| == |s.enq| - Served(s);
  }

  /** A dequeue turned away by the gate: the queue is empty at the gate's last read. */
  lemma TurnedAway(g: Gate, s: Ring, a: Action)
    requires Matched(s) && Enabled(s, a) && TurnsAway(s, a) && !Misled(s, a)
    ensures Abs(s).q == []
    ensures Moves(Abs(s), EffectsOf(s, a), LabelOf(s, a), Abs(Next(g, s, a)))
  {
    EmptyUnlessMisled(s, a);
    var s' := Next(g, s, a);
    var a1 := Effect(Abs(s), a.t);
    assert Abs(s') == a1.(calls := a1.calls[a.t := Quiet]);
    assert Moves(a1, [], LabelOf(s, a), Abs(s'));
  }

  /** A step that issues no ticket leaves the queue alone and moves only its own thread. */
  lemma OnlyThreadMoves(g: Gate, s: Ring, a: Action)
    requires Owned(s) && Enabled(s, a) && (a.Run? ==> !s.pcs[a.t].EnqTake? && !s.pcs[a.t].DeqTake?)
    ensures var s' := Next(g, s, a);
      Abs(s') == Abs(s).(calls := Abs(s).calls[a.t := AbsCall(s.enq, s'.pcs[a.t])])
  {
    var s' := Next(g, s, a);
    if OnlyLoads(s, a) { QuietStep(g, s, a); }
    assert Values(s'.enq) == Values(s.enq);
    assert |s'.deq| == |s.deq|;
    var calls := Abs(s).calls[a.t := AbsCall(s.enq, s'.pcs[a.t])];
    forall t | t in s'.pcs ensures Abs(s').calls[t] == calls[t] {
      assert t != a.t ==> s'.pcs[t] == s.pcs[t];
      forall k: nat ensures Taken(s'.enq, k) == Taken(s.enq, k) {
        if k < |s.enq| { assert Values(s'.enq)[k] == Values(s.enq)[k]; }
      }
    }
    assert Abs(s').calls == calls;
  }

  /** Every step of every thread is a step of the atomic queue with the same call or return. */
  lemma Simulation(g: Gate, s: Ring, a: Action)
    requires Matched(s) && Enabled(s, a) && NoLap(s, a) && !Misled(s, a)
    ensures Moves(Abs(s), EffectsOf(s, a), LabelOf(s, a), Abs(Next(g, s, a)))
  {
    if a.Run? && s.pcs[a.t].EnqTake? {
      if |s.enq| < |s.deq| { ServesWaiting(g, s, a); } else { Inserts(g, s, a); }
    } else if a.Run? && s.pcs[a.t].DeqTake? {
      TakesDequeueTicket(g, s, a);
    } else if TurnsAway(s, a) {
      TurnedAway(g, s, a);
    } else {
      OnlyThreadMoves(g, s, a);
      NoEffect(g, s, a);
    }
  }

  lemma NoEffect(g: Gate, s: Ring, a: Action)
    requires Matched(s) && Enabled(s, a) && !(a.Run? && (s.pcs[a.t].EnqTake? || s.pcs[a.t].DeqTake?)) && !TurnsAway(s, a)
    requires Abs(Next(g, s, a)) == Abs(s).(calls := Abs(s).calls[a.t := AbsCall(s.enq, Next(g, s, a).pcs[a.t])])
    ensures Moves(Abs(s), EffectsOf(s, a), LabelOf(s, a), Abs(Next(g, s, a)))
  {
    assert a.t in s.pcs && HasFound(s, s.pcs[a.t]);
  }

  /** A run: states, and the action that leads from each state to the next. All states of a run are
      Owned (MatchedAlways), so the condition on Next is no restriction. */
  ghost predicate IsRingRun(g: Gate, states: seq<Ring>, actions: seq<Action>) {
    && |states| == |actions| + 1
    && Init(states[0])
    && forall i :: 0 <= i < |actions| ==>
         Enabled(states[i], actions[i]) && (Owned(states[i]) ==> states[i + 1] == Next(g, states[i], actions[i]))
  }

  /** The hypothesis on a whole run: no step laps. */
  ghost predicate NeverLaps(states: seq<Ring>, actions: seq<Action>)
    requires |states| == |actions| + 1
  {
    forall i :: 0 <= i < |actions| ==> actions[i].t in states[i].pcs && NoLap(states[i], actions[i])
  }

  lemma {:induction false} MatchedAlways(g: Gate, states: seq<Ring>, actions: seq<Action>, i: nat)
    requires IsRingRun(g, states, actions) && NeverLaps(states, actions) && i < |states|
    ensures Matched(states[i])
  {
    if i == 0 {
      InitMatched(states[0]);
    } else {
      MatchedAlways(g, states, actions, i - 1);
      MatchedNext(g, states[i - 1], actions[i - 1]);
    }
  }

  /** No gate is misled in the run. */
  ghost predicate NeverMisled(states: seq<Ring>, actions: seq<Action>)
    requires |states| == |actions| + 1
  {
    forall i :: 0 <= i < |actions| ==> actions[i].t in states[i].pcs && !Misled(states[i], actions[i])
  }

  /** No thread is inside a comparison that loaded `tail` first. */
  predicate HeadFirst(s: Ring) {
    forall t :: t in s.pcs ==> !s.pcs[t].GateTailFirst? && !s.pcs[t].GateHeadLast?
  }

  lemma {:induction false} HeadFirstAlways(g: Gate, states: seq<Ring>, actions: seq<Action>, i: nat)
    requires IsRingRun(g, states, actions) && !g.TailFirst() && i < |states|
    ensures Owned(states[i]) && HeadFirst(states[i])
  {
    if i == 0 {
      InitMatched(states[0]);
    } else {
      HeadFirstAlways(g, states, actions, i - 1);
      OwnedNext(g, states[i - 1], actions[i - 1]);
    }
  }

  /** A gate that loads `head` first is never misled. */
  lemma HeadFirstNeverMisled(g: Gate, states: seq<Ring>, actions: seq<Action>)
    requires IsRingRun(g, states, actions) && !g.TailFirst()
    ensures NeverMisled(states, actions)
  {
    forall i | 0 <= i < |actions| ensures !Misled(states[i], actions[i]) {
      HeadFirstAlways(g, states, actions, i);
    }
  }

  /** The calls and returns of a run. */
  ghost function Labels(states: seq<Ring>, actions: seq<Action>): (ls: seq<Label<int>>)
    requires |states| == |actions| + 1 && forall i :: 0 <= i < |actions| ==> Enabled(states[i], actions[i])
    ensures |ls| == |actions| && forall i :: 0 <= i < |ls| ==> ls[i] == LabelOf(states[i], actions[i])
  {
    seq(|actions|, i requires 0 <= i < |actions| => LabelOf(states[i], actions[i]))
  }

  lemma AbsInit(s: Ring)
    requires TicketRing.Init(s)
    ensures Start(Abs(s))
  {
  }
}
