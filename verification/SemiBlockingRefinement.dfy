/** The semi-blocking queue refines the atomic FIFO queue, and what that says about queue_get. */
module SemiBlockingRefinement {
  import opened AtomicFifo
  import opened SemiBlocking

  function Reverse(l: seq<Node>): seq<Node> {
    if l == [] then [] else Reverse(l[1..]) + [l[0]]
  }

  /** The queue, oldest node first: the detached nodes still to be reversed, the out list, the in list. */
  function Content(s: Queue): seq<Node> {
    Reverse(s.det) + s.outl + Reverse(s.inl)
  }

  function AbsCall(pc: Pc): Call<Node> {
    match pc
    case Idle => Quiet
    case PutRead(n) => Enqueuing(n)
    case PutLink(n, _, _) => Enqueuing(n)
    case PutCas(n, _, _) => Enqueuing(n)
    case GetReadOut(empty) => if empty then Dequeued(None) else Dequeuing
    case GetUnlock(r) => Dequeued(r)
    case _ => Dequeuing
  }

  function Abs(s: Queue): Fifo<Node> {
    Fifo(Content(s), s.ins, s.outs, map t | t in s.pcs :: AbsCall(s.pcs[t]))
  }

  ghost function LabelOf(s: Queue, a: Action): Label<Node>
    requires Enabled(s, a)
  {
    match a
    case CallPut(t, n) => CallEnq(t, n)
    case CallGet(t) => CallDeq(t)
    case Scribble(_, _) => Tau
    case Run(t) =>
      match s.pcs[t]
      case PutCas(_, seen, _) => if s.inq == seen then RetEnq(t) else Tau
      case GetUnlock(r) => RetDeq(t, r)
      case _ => Tau
  }

  /** A put takes effect at its successful compare-and-swap, a get at its pop, or, when it is to
      return NULL, at its read of `in_queue`. */
  function EffectsOf(s: Queue, a: Action): seq<Tid>
    requires Enabled(s, a)
  {
    if !a.Run? then []
    else match s.pcs[a.t]
      case PutCas(_, seen, _) => if s.inq == seen then [a.t] else []
      case GetReadIn(_) => if s.inq == None then [a.t] else []
      case GetSetOut(_, _) => [a.t]
      case _ => []
  }

  lemma ReversePush(n: Node, l: seq<Node>)
    ensures Reverse([n] + l) == Reverse(l) + [n]
  {
    assert ([n] + l)[1..] == l;
  }

  /** A node appended to the queue; the put returns. */
  lemma Appends(s: Queue, s': Queue, t: Tid, n: Node)
    requires t in s.pcs && AbsCall(s.pcs[t]) == Enqueuing(n) && s'.pcs == s.pcs[t := Idle]
    requires s'.inl == [n] + s.inl && s'.outl == s.outl && s'.det == s.det
    requires s'.ins == s.ins + [n] && s'.outs == s.outs
    ensures Moves(Abs(s), [t], RetEnq(t), Abs(s'))
  {
    ReversePush(n, s.inl);
    var a1 := Effect(Abs(s), t);
    assert a1.q == Abs(s').q;
    assert Abs(s') == a1.(calls := a1.calls[t := Quiet]);
    assert Moves(a1, [], RetEnq(t), Abs(s'));
  }

  /** The front node removed from the queue. */
  lemma Pops(s: Queue, s': Queue, t: Tid)
    requires s.outl != [] && t in s.pcs && AbsCall(s.pcs[t]) == Dequeuing
    requires s'.pcs == s.pcs[t := GetUnlock(Some(s.outl[0]))]
    requires s'.inl == s.inl && s'.outl == s.outl[1..] && s.det == [] == s'.det
    requires s'.ins == s.ins && s'.outs == s.outs + [s.outl[0]]
    ensures Moves(Abs(s), [t], Tau, Abs(s'))
  {
    assert Content(s) == s.outl + Reverse(s.inl);
    assert Content(s') == s.outl[1..] + Reverse(s.inl);
    var a1 := Effect(Abs(s), t);
    assert Abs(s') == a1;
    assert Moves(a1, [], Tau, Abs(s'));
  }

  /** An empty queue seen as empty. */
  lemma FindsEmpty(s: Queue, s': Queue, t: Tid)
    requires t in s.pcs && AbsCall(s.pcs[t]) == Dequeuing && s'.pcs == s.pcs[t := GetReadOut(true)]
    requires s.inl == [] == s'.inl && s.outl == [] == s'.outl && s.det == [] == s'.det
    requires s'.ins == s.ins && s'.outs == s.outs
    ensures Moves(Abs(s), [t], Tau, Abs(s'))
  {
    var a1 := Effect(Abs(s), t);
    assert Abs(s') == a1;
    assert Moves(a1, [], Tau, Abs(s'));
  }

  /** A thread moves on, nodes may move between the lists, the queue stays. */
  lemma Stays(s: Queue, s': Queue, t: Tid, l: Label<Node>)
    requires t in s.pcs && t in s'.pcs && s'.pcs == s.pcs[t := s'.pcs[t]]
    requires Content(s') == Content(s) && s'.ins == s.ins && s'.outs == s.outs
    requires match l
      case Tau => AbsCall(s'.pcs[t]) == AbsCall(s.pcs[t])
      case CallEnq(u, n) => u == t && AbsCall(s.pcs[t]) == Quiet && AbsCall(s'.pcs[t]) == Enqueuing(n)
      case CallDeq(u) => u == t && AbsCall(s.pcs[t]) == Quiet && AbsCall(s'.pcs[t]) == Dequeuing
      case RetDeq(u, r) => u == t && AbsCall(s.pcs[t]) == Dequeued(r) && AbsCall(s'.pcs[t]) == Quiet
      case RetEnq(u) => false
    ensures Moves(Abs(s), [], l, Abs(s'))
  {
    assert Abs(s').calls == Abs(s).calls[t := AbsCall(s'.pcs[t])];
  }

  predicate LocksOrWrites(pc: Pc) {
    pc.GetLock? || pc.GetCas? || pc.RevLink? || pc.RevSetOut? || pc.GetUnlock?
  }

  /** Detaching the stack and reversing it move nodes between the lists but not in the queue. */
  lemma ReversalKeepsContent(s: Queue, t: Tid)
    requires Inv(s) && Enabled(s, Run(t)) && LocksOrWrites(s.pcs[t])
    ensures Content(RunGet(s, t)) == Content(s)
  {
    var s' := RunGet(s, t);
    assert GetterOk(s, s.pcs[t]);
    if s.pcs[t].RevSetOut? {
      MoveHead(s.det, s.outl);
    } else if s.pcs[t].GetCas? && s.inq == Some(s.pcs[t].h) {
      assert s.det == [] && Reverse([]) + [] + Reverse(s.inl) == Reverse(s.inl) + [] + Reverse([]);
    }
  }

  lemma MoveHead(det: seq<Node>, outl: seq<Node>)
    requires det != []
    ensures Reverse(det) + outl == Reverse(det[1..]) + ([det[0]] + outl)
  {
  }

  lemma NoEffectPut(s: Queue, a: Action)
    requires Inv(s) && Enabled(s, a) && EffectsOf(s, a) == []
    requires !a.Run? || s.pcs[a.t].PutRead? || s.pcs[a.t].PutLink? || s.pcs[a.t].PutCas?
    ensures Moves(Abs(s), [], LabelOf(s, a), Abs(Next(s, a)))
  {
    if a.Scribble? {
      assert Abs(Next(s, a)) == Abs(s);
    } else {
      Stays(s, Next(s, a), a.t, LabelOf(s, a));
    }
  }

  lemma NoEffectRead(s: Queue, t: Tid)
    requires Inv(s) && t in s.pcs && OnlyReads(s.pcs[t]) && EffectsOf(s, Run(t)) == []
    ensures Moves(Abs(s), [], LabelOf(s, Run(t)), Abs(Next(s, Run(t))))
  {
    GetterReads(s, t);
    assert GetterOk(s, s.pcs[t]);
    Stays(s, Next(s, Run(t)), t, Tau);
  }

  lemma NoEffectGet(s: Queue, t: Tid)
    requires Inv(s) && Enabled(s, Run(t)) && LocksOrWrites(s.pcs[t])
    ensures Moves(Abs(s), [], LabelOf(s, Run(t)), Abs(Next(s, Run(t))))
  {
    var s' := RunGet(s, t);
    ReversalKeepsContent(s, t);
    if s.pcs[t].GetUnlock? {
      Stays(s, s', t, RetDeq(t, s.pcs[t].r));
    } else {
      WriterStillDequeues(s, t);
      Stays(s, s', t, Tau);
    }
  }

  lemma WriterStillDequeues(s: Queue, t: Tid)
    requires Inv(s) && Enabled(s, Run(t)) && LocksOrWrites(s.pcs[t]) && !s.pcs[t].GetUnlock?
    ensures AbsCall(RunGet(s, t).pcs[t]) == Dequeuing
  {
  }

  /** Every step of any number of putters and getters is a step of the atomic queue. */
  lemma Simulation(s: Queue, a: Action)
    requires Inv(s) && Enabled(s, a)
    ensures Moves(Abs(s), EffectsOf(s, a), LabelOf(s, a), Abs(Next(s, a)))
  {
    if EffectsOf(s, a) == [] {
      if !a.Run? || s.pcs[a.t].PutRead? || s.pcs[a.t].PutLink? || s.pcs[a.t].PutCas? {
        NoEffectPut(s, a);
      } else if OnlyReads(s.pcs[a.t]) {
        NoEffectRead(s, a.t);
      } else {
        NoEffectGet(s, a.t);
      }
    } else {
      assert GetterOk(s, s.pcs[a.t]);
      if s.pcs[a.t].PutCas? {
        Appends(s, Next(s, a), a.t, s.pcs[a.t].n);
      } else if s.pcs[a.t].GetReadIn? {
        FindsEmpty(s, Next(s, a), a.t);
      } else {
        Pops(s, Next(s, a), a.t);
      }
    }
  }

  /** A run. All its states satisfy the invariant (InvAlways), so the condition on Next is no restriction. */
  ghost predicate IsQueueRun(states: seq<Queue>, actions: seq<Action>) {
    && |states| == |actions| + 1
    && Init(states[0])
    && forall i :: 0 <= i < |actions| ==>
         Enabled(states[i], actions[i]) && (Inv(states[i]) ==> states[i + 1] == Next(states[i], actions[i]))
  }

  lemma {:induction false} InvAlways(states: seq<Queue>, actions: seq<Action>, i: nat)
    requires IsQueueRun(states, actions) && i < |states|
    ensures Inv(states[i])
  {
    if i == 0 {
      InitInv(states[0]);
    } else {
      InvAlways(states, actions, i - 1);
      InvNext(states[i - 1], actions[i - 1]);
    }
  }

  lemma StepAt(states: seq<Queue>, actions: seq<Action>, i: nat)
    requires IsQueueRun(states, actions) && i < |actions|
    ensures Step(Abs(states[i]), LabelOf(states[i], actions[i]), Abs(states[i + 1]))
  {
    InvAlways(states, actions, i);
    Simulation(states[i], actions[i]);
  }

  lemma AbsInit(s: Queue)
    requires Init(s)
    ensures Start(Abs(s))
  {
    assert Content(s) == [];
  }

  /** Linearizability on every run: nodes come out in the order of the putters' compare-and-swaps. */
  lemma Linearizable(states: seq<Queue>, actions: seq<Action>)
    requires IsQueueRun(states, actions)
    ensures IsRun(seq(|states|, i requires 0 <= i < |states| => Abs(states[i])),
                  seq(|actions|, i requires 0 <= i < |actions| && Enabled(states[i], actions[i]) => LabelOf(states[i], actions[i])))
  {
    var fs := seq(|states|, i requires 0 <= i < |states| => Abs(states[i]));
    var ls := seq(|actions|, i requires 0 <= i < |actions| && Enabled(states[i], actions[i]) => LabelOf(states[i], actions[i]));
    AbsInit(states[0]);
    forall i | 0 <= i < |ls| ensures Step(fs[i], ls[i], fs[i + 1]) {
      StepAt(states, actions, i);
      assert fs[i] == Abs(states[i]) && fs[i + 1] == Abs(states[i + 1]);
    }
  }

  // What queue_get promises.

  /** A get that will return NULL has read a NULL `in_queue`, and the whole queue was empty at that
      instant; at the later read of `out_queue` it need not be. */
  lemma NullReadMeansEmpty(s: Queue, t: Tid)
    requires Inv(s) && t in s.pcs && s.pcs[t].GetReadIn? && s.inq == None
    ensures Content(s) == []
  {
    assert GetterOk(s, s.pcs[t]);
  }

  /** Once a get has read a node from `in_queue`, all its later reads of `in_queue` find a node, so
      it can only return a node. */
  lemma NeverNullAgain(s: Queue, t: Tid)
    requires Inv(s) && t in s.pcs && (s.pcs[t] == GetReadIn(true) || s.pcs[t].GetCas? || Reversing(s.pcs[t]))
    ensures s.pcs[t] == GetReadIn(true) ==> s.inq != None
    ensures var pc := Next(s, Run(t)).pcs[t];
      pc == GetReadIn(true) || pc.GetCas? || Reversing(pc) || pc == GetReadOut(false)
  {
    assert GetterOk(s, s.pcs[t]);
  }

  /** With the lock held and the out list not empty, a get pops a node and returns it. */
  lemma NonEmptyDelivers(s: Queue, t: Tid)
    requires Inv(s) && t in s.pcs
    requires s.pcs[t] == GetReadOut(false) || s.pcs[t].GetLoadNext? || s.pcs[t].GetSetOut?
    ensures s.outl != []
    ensures var pc := Next(s, Run(t)).pcs[t];
      pc.GetLoadNext? || pc.GetSetOut? || pc == GetUnlock(Some(s.outl[0]))
  {
    assert GetterOk(s, s.pcs[t]);
  }

  /** A compare-and-swap of a getter fails only because some putter has succeeded since the getter
      read `in_queue`; one of a putter fails only because `in_queue` was written since. */
  lemma FailureMeansProgress(s: Queue, t: Tid)
    requires Inv(s) && t in s.pcs
    ensures s.pcs[t].GetCas? && s.inq != Some(s.pcs[t].h) ==> s.pcs[t].pushes < s.pushes
    ensures s.pcs[t].PutCas? && s.inq != s.pcs[t].seen ==> s.pcs[t].writes < s.writes
  {
    assert GetterOk(s, s.pcs[t]) && PutterOk(s, t, s.pcs[t]);
  }

  /** The queue holds each node at most once, and no node that a caller or a pending put owns. */
  lemma NodesDisjoint(s: Queue, n: Node)
    requires Inv(s) && n in Content(s)
    ensures n in s.place && (s.place[n].In? || s.place[n].Out? || s.place[n].Det?)
    ensures multiset(Content(s))[n] == 1
  {
    ReverseBag(s.det);
    ReverseBag(s.inl);
    assert multiset(Content(s)) == multiset(s.det) + multiset(s.outl) + multiset(s.inl);
    NoRepeat(s.det, n);
    NoRepeat(s.outl, n);
    NoRepeat(s.inl, n);
  }

  lemma {:induction false} ReverseBag(l: seq<Node>)
    ensures multiset(Reverse(l)) == multiset(l)
  {
    if l != [] {
      ReverseBag(l[1..]);
      assert l == [l[0]] + l[1..];
    }
  }

  lemma {:induction false} NoRepeat(l: seq<Node>, n: Node)
    requires forall i, j :: 0 <= i < j < |l| ==> l[i] != l[j]
    ensures multiset(l)[n] == if n in l then 1 else 0
  {
    if l != [] {
      NoRepeat(l[1..], n);
      assert l == [l[0]] + l[1..];
    }
  }
}
