/** The bounded buffer refines the atomic FIFO queue, and its stuck states. */
module BoundedBufferRefinement {
  import opened AtomicFifo
  import opened BoundedBuffer
  import opened Counting

  function AbsCall(pc: Pc): Call<Task> {
    match pc
    case Idle => Quiet
    case EnqWait(v) => Enqueuing(v)
    case EnqLock(v) => Enqueuing(v)
    case EnqLoad(v) => Enqueuing(v)
    case EnqInc(v, _) => Enqueuing(v)
    case EnqStore(v, _) => Enqueuing(v)
    case EnqUnlock => Enqueued
    case EnqPost => Enqueued
    case DeqUnlock(v) => Dequeued(Some(v))
    case DeqPost(v) => Dequeued(Some(v))
    case _ => Dequeuing
  }

  /** The queue: the tasks stored and not yet read. */
  function Abs(s: Buffer): Fifo<Task>
    requires |s.outs| <= |s.ins|
  {
    Fifo(s.ins[|s.outs|..], s.ins, s.outs, map t | t in s.pcs :: AbsCall(s.pcs[t]))
  }

  function LabelOf(s: Buffer, a: Action): Label<Task>
    requires Enabled(s, a)
  {
    match a
    case CallEnqueue(t, v) => CallEnq(t, v)
    case CallDequeue(t) => CallDeq(t)
    case Run(t) =>
      match s.pcs[t]
      case EnqPost => RetEnq(t)
      case DeqPost(v) => RetDeq(t, Some(v))
      case _ => Tau
  }

  /** An enqueue takes effect at its store, a dequeue at its read. */
  function EffectsOf(s: Buffer, a: Action): seq<Tid>
    requires Enabled(s, a)
  {
    if a.Run? && (s.pcs[a.t].EnqStore? || s.pcs[a.t].DeqRead?) then [a.t] else []
  }

  lemma StoreTakesEffect(s: Buffer, t: Tid)
    requires 0 < |s.tasks| && |s.outs| <= |s.ins| && t in s.pcs && s.pcs[t].EnqStore?
    ensures Moves(Abs(s), [t], Tau, Abs(Next(s, Run(t))))
  {
    var a1, s' := Effect(Abs(s), t), Next(s, Run(t));
    assert a1.q == Abs(s').q && a1.calls == Abs(s').calls;
    assert Moves(a1, [], Tau, Abs(s'));
  }

  lemma ReadTakesEffect(s: Buffer, t: Tid)
    requires 0 < |s.tasks| && |s.outs| < |s.ins| && t in s.pcs && s.pcs[t].DeqRead?
    requires s.tasks[s.pcs[t].k % |s.tasks|] == s.ins[|s.outs|]
    ensures Moves(Abs(s), [t], Tau, Abs(Next(s, Run(t))))
  {
    var a1, s' := Effect(Abs(s), t), Next(s, Run(t));
    assert a1.q == Abs(s').q && a1.calls == Abs(s').calls;
    assert Moves(a1, [], Tau, Abs(s'));
  }

  lemma NoEffect(s: Buffer, a: Action)
    requires 0 < |s.tasks| && |s.outs| <= |s.ins| && Enabled(s, a) && EffectsOf(s, a) == []
    ensures Moves(Abs(s), [], LabelOf(s, a), Abs(Next(s, a)))
  {
    var s' := Next(s, a);
    assert Abs(s').calls == Abs(s).calls[a.t := AbsCall(s'.pcs[a.t])];
  }

  /** Every step of any number of producers and consumers is a step of the atomic queue. */
  lemma Simulation(s: Buffer, a: Action)
    requires Inv(s) && Enabled(s, a)
    ensures |Next(s, a).outs| <= |Next(s, a).ins|
    ensures Moves(Abs(s), EffectsOf(s, a), LabelOf(s, a), Abs(Next(s, a)))
  {
    if EffectsOf(s, a) == [] {
      NoEffect(s, a);
    } else if s.pcs[a.t].EnqStore? {
      StoreTakesEffect(s, a.t);
    } else {
      ReadFindsOldest(s, a.t);
      ReadTakesEffect(s, a.t);
    }
  }

  ghost predicate IsBufferRun(n: nat, states: seq<Buffer>, actions: seq<Action>) {
    && |states| == |actions| + 1 && 0 < n && Init(n, states[0])
    && forall i :: 0 <= i < |actions| ==>
         0 < |states[i].tasks| && Enabled(states[i], actions[i]) && states[i + 1] == Next(states[i], actions[i])
  }

  lemma {:induction false} InvAlways(n: nat, states: seq<Buffer>, actions: seq<Action>, i: nat)
    requires IsBufferRun(n, states, actions) && i < |states|
    ensures Inv(states[i])
  {
    if i == 0 {
      InitInv(n, states[0]);
    } else {
      InvAlways(n, states, actions, i - 1);
      InvNext(states[i - 1], actions[i - 1]);
    }
  }

  /** Linearizability on every run. */
  lemma Linearizable(n: nat, states: seq<Buffer>, actions: seq<Action>)
    requires IsBufferRun(n, states, actions)
    ensures forall i :: 0 <= i < |states| ==> |states[i].outs| <= |states[i].ins|
    ensures IsRun(seq(|states|, i requires 0 <= i < |states| && |states[i].outs| <= |states[i].ins| => Abs(states[i])),
                  seq(|actions|, i requires 0 <= i < |actions| && Enabled(states[i], actions[i]) => LabelOf(states[i], actions[i])))
  {
    forall i | 0 <= i < |states| ensures |states[i].outs| <= |states[i].ins| {
      InvAlways(n, states, actions, i);
    }
    var fs := seq(|states|, i requires 0 <= i < |states| && |states[i].outs| <= |states[i].ins| => Abs(states[i]));
    var ls := seq(|actions|, i requires 0 <= i < |actions| && Enabled(states[i], actions[i]) => LabelOf(states[i], actions[i]));
    forall i | 0 <= i < |ls| ensures Step(fs[i], ls[i], fs[i + 1]) {
      InvAlways(n, states, actions, i);
      Simulation(states[i], actions[i]);
    }
  }

  /** Some call is unfinished and no thread inside a call can take a step. */
  ghost predicate Stuck(s: Buffer) {
    && (exists t :: t in s.pcs && s.pcs[t] != Idle)
    && forall t :: t in s.pcs && s.pcs[t] != Idle ==> !Enabled(s, Run(t))
  }

  predicate Full(s: Buffer) { s.rear - s.front == |s.tasks| }

  predicate Empty(s: Buffer) { s.rear == s.front }

  ghost predicate AllAt(s: Buffer, p: Pc -> bool) {
    && (exists t :: t in s.pcs && s.pcs[t] != Idle)
    && forall t :: t in s.pcs && s.pcs[t] != Idle ==> p(s.pcs[t])
  }

  /** A stuck buffer: all unfinished calls are enqueues waiting at a full buffer, or all are dequeues
      waiting at an empty one; never a mix and never a wait for the mutex. */
  lemma StuckExactly(s: Buffer)
    requires Inv(s)
    ensures Stuck(s) <==>
      || (AllAt(s, (pc: Pc) => pc.EnqWait?) && Full(s))
      || (AllAt(s, (pc: Pc) => pc.DeqWait?) && Empty(s))
  {
    if forall t :: t in s.pcs && s.pcs[t] != Idle ==> s.pcs[t].EnqWait? || s.pcs[t].DeqWait? {
      CountNone(s.pcs, Unposted);
      CountNone(s.pcs, Claimed);
      CountNone(s.pcs, Reserved);
      CountNone(s.pcs, Unreturned);
      assert s.spacesSem == 0 <==> Full(s);
      assert s.taskSem == 0 <==> Empty(s);
    } else {
      var t :| t in s.pcs && s.pcs[t] != Idle && !s.pcs[t].EnqWait? && !s.pcs[t].DeqWait?;
      MutexNeverBlocks(s, t);
    }
  }

  /** Whoever waits for the mutex, its holder can go on. */
  lemma MutexNeverBlocks(s: Buffer, t: Tid)
    requires Inv(s) && t in s.pcs && s.pcs[t] != Idle && !s.pcs[t].EnqWait? && !s.pcs[t].DeqWait?
    ensures exists u :: u in s.pcs && s.pcs[u] != Idle && Enabled(s, Run(u))
  {
    if Enabled(s, Run(t)) {
    } else {
      var u := s.lock.value;
      assert u in s.pcs && HoldsLock(s.pcs[u]) && Enabled(s, Run(u));
    }
  }
}
