/** What a whole call of queue_get does, over any run. */
module SemiBlockingCalls {
  import opened AtomicFifo
  import opened SemiBlocking
  import opened SemiBlockingRefinement

  /** Thread t does not return from a get in the steps i .. j - 1. */
  ghost predicate NoReturn(states: seq<Queue>, actions: seq<Action>, t: Tid, i: nat, j: nat)
    requires |states| == |actions| + 1
  {
    forall m :: i <= m < j && m < |actions| ==> !ReturnsAt(states[m], actions[m], t)
  }

  predicate ReturnsAt(s: Queue, a: Action, t: Tid) {
    a == Run(t) && t in s.pcs && s.pcs[t].GetUnlock?
  }

  lemma OthersStill(s: Queue, a: Action, t: Tid)
    requires Inv(s) && Enabled(s, a) && t in s.pcs && (a.Scribble? || a.t != t)
    ensures t in Next(s, a).pcs && Next(s, a).pcs[t] == s.pcs[t]
  {
    if a.Run? && (HoldsLock(s.pcs[a.t]) || s.pcs[a.t] == GetLock) {
      assert RunGet(s, a.t).pcs == s.pcs[a.t := RunGet(s, a.t).pcs[a.t]];
    }
  }

  // Once in_queue was seen with a node.

  /** The getter has read a node from `in_queue` and is to return one. */
  predicate Committed(pc: Pc) {
    || pc == GetReadIn(true) || pc.GetCas? || Reversing(pc) || pc == GetReadOut(false)
    || pc.GetLoadNext? || pc.GetSetOut? || (pc.GetUnlock? && pc.r.Some?)
  }

  lemma CommittedStep(s: Queue, t: Tid)
    requires Inv(s) && t in s.pcs && Committed(s.pcs[t]) && !s.pcs[t].GetUnlock?
    ensures t in RunGet(s, t).pcs && Committed(RunGet(s, t).pcs[t])
  {
    assert GetterOk(s, s.pcs[t]);
  }

  lemma CommittedNext(s: Queue, a: Action, t: Tid)
    requires Inv(s) && Enabled(s, a) && t in s.pcs && Committed(s.pcs[t]) && !ReturnsAt(s, a, t)
    ensures t in Next(s, a).pcs && Committed(Next(s, a).pcs[t])
  {
    if a == Run(t) { CommittedStep(s, t); } else { OthersStill(s, a, t); }
  }

  lemma CommittedAt(states: seq<Queue>, actions: seq<Action>, t: Tid, p: nat)
    requires IsQueueRun(states, actions) && p < |actions|
    requires t in states[p].pcs && Committed(states[p].pcs[t]) && !ReturnsAt(states[p], actions[p], t)
    ensures t in states[p + 1].pcs && Committed(states[p + 1].pcs[t])
  {
    InvAlways(states, actions, p);
    CommittedNext(states[p], actions[p], t);
  }

  lemma {:induction false} CommittedAlways(states: seq<Queue>, actions: seq<Action>, t: Tid, i: nat, j: nat)
    requires IsQueueRun(states, actions) && i <= j < |states|
    requires t in states[i].pcs && Committed(states[i].pcs[t]) && NoReturn(states, actions, t, i, j)
    ensures t in states[j].pcs && Committed(states[j].pcs[t])
  {
    if i < j {
      CommittedAlways(states, actions, t, i, j - 1);
      CommittedAt(states, actions, t, j - 1);
    }
  }

  /** Once a call has read a node from `in_queue`, whatever the others do and however often its
      compare-and-swap fails, it can only return a node. */
  lemma OnlyReturnsNode(states: seq<Queue>, actions: seq<Action>, t: Tid, i: nat, j: nat)
    requires IsQueueRun(states, actions) && i <= j < |actions|
    requires t in states[i].pcs && states[i].pcs[t].GetCas? && NoReturn(states, actions, t, i, j)
    requires ReturnsAt(states[j], actions[j], t)
    ensures states[j].pcs[t].r.Some?
  {
    CommittedAlways(states, actions, t, i, j);
  }

  // The instant of a call.

  /** The queue is empty, or its front node is taken off. */
  predicate Takes(s: Queue, s': Queue, r: Link) {
    match r
    case None => Content(s) == []
    case Some(h) => Content(s) == [h] + Content(s')
  }

  /** The getter's result is fixed. */
  predicate Decided(pc: Pc, r: Link) {
    pc == GetUnlock(r) || (r == None && pc == GetReadOut(true))
  }

  predicate InGet(pc: Pc) { HoldsLock(pc) || pc == GetLock }

  lemma PopTakes(s: Queue, t: Tid)
    requires Inv(s) && t in s.pcs && s.pcs[t].GetSetOut?
    ensures Takes(s, RunGet(s, t), Some(s.pcs[t].h))
  {
    assert GetterOk(s, s.pcs[t]) && s.det == [];
    assert s.outl == [s.outl[0]] + s.outl[1..];
  }

  /** Only two accesses of a call can fix its result. */
  lemma StaysUndecided(s: Queue, t: Tid, r: Link)
    requires Inv(s) && t in s.pcs && InGet(s.pcs[t]) && !s.pcs[t].GetUnlock? && Enabled(s, Run(t))
    requires !s.pcs[t].GetSetOut? && !(s.pcs[t].GetReadIn? && s.inq == None)
    ensures t in RunGet(s, t).pcs && InGet(RunGet(s, t).pcs[t])
    ensures Decided(RunGet(s, t).pcs[t], r) ==> Decided(s.pcs[t], r)
  {
    if OnlyReads(s.pcs[t]) { ReadsUndecided(s, t, r); } else { WritesUndecided(s, t, r); }
  }

  lemma ReadsUndecided(s: Queue, t: Tid, r: Link)
    requires Inv(s) && t in s.pcs && OnlyReads(s.pcs[t]) && !(s.pcs[t].GetReadIn? && s.inq == None)
    ensures InGet(RunGet(s, t).pcs[t])
    ensures Decided(RunGet(s, t).pcs[t], r) ==> Decided(s.pcs[t], r)
  {
    assert GetterOk(s, s.pcs[t]);
  }

  lemma WritesUndecided(s: Queue, t: Tid, r: Link)
    requires Inv(s) && t in s.pcs && LocksOrWrites(s.pcs[t]) && !s.pcs[t].GetUnlock? && Enabled(s, Run(t))
    ensures InGet(RunGet(s, t).pcs[t]) && !Decided(RunGet(s, t).pcs[t], r)
  {
  }

  lemma NullReadDecides(s: Queue, t: Tid)
    requires Inv(s) && t in s.pcs && s.pcs[t].GetReadIn? && s.inq == None
    ensures RunGet(s, t).pcs == s.pcs[t := GetReadOut(true)]
  {
  }

  lemma PopDecides(s: Queue, t: Tid)
    requires Inv(s) && t in s.pcs && s.pcs[t].GetSetOut?
    ensures RunGet(s, t).pcs == s.pcs[t := GetUnlock(Some(s.pcs[t].h))]
  {
  }

  /** A step of the call keeps its result, or fixes it at an instant that justifies it. */
  lemma DecidedStep(s: Queue, t: Tid, r: Link)
    requires Inv(s) && t in s.pcs && InGet(s.pcs[t]) && !s.pcs[t].GetUnlock? && Enabled(s, Run(t))
    ensures t in RunGet(s, t).pcs && InGet(RunGet(s, t).pcs[t])
    ensures Decided(RunGet(s, t).pcs[t], r) ==> Decided(s.pcs[t], r) || Takes(s, RunGet(s, t), r)
  {
    if s.pcs[t].GetSetOut? {
      PopTakes(s, t);
      PopDecides(s, t);
    } else if s.pcs[t].GetReadIn? && s.inq == None {
      NullReadMeansEmpty(s, t);
      NullReadDecides(s, t);
    } else {
      StaysUndecided(s, t, r);
    }
  }

  lemma DecidedNext(s: Queue, a: Action, t: Tid, r: Link)
    requires Inv(s) && Enabled(s, a) && t in s.pcs && InGet(s.pcs[t]) && !ReturnsAt(s, a, t)
    ensures t in Next(s, a).pcs && InGet(Next(s, a).pcs[t])
    ensures Decided(Next(s, a).pcs[t], r) ==> Decided(s.pcs[t], r) || (a == Run(t) && Takes(s, Next(s, a), r))
  {
    if a == Run(t) { DecidedStep(s, t, r); } else { OthersStill(s, a, t); }
  }

  lemma CallStarts(s: Queue, t: Tid)
    requires Inv(s) && Enabled(s, CallGet(t))
    ensures Next(s, CallGet(t)).pcs == s.pcs[t := GetLock]
  {
  }

  /** An instant of the call, after step i and before state p, at which t takes r. */
  ghost predicate TookBetween(states: seq<Queue>, actions: seq<Action>, t: Tid, r: Link, i: nat, p: nat)
    requires |states| == |actions| + 1
  {
    exists m :: i < m < p && m < |actions| && TookAt(states, actions, t, r, m)
  }

  ghost predicate TookAt(states: seq<Queue>, actions: seq<Action>, t: Tid, r: Link, m: nat)
    requires m < |actions| && |states| == |actions| + 1
  {
    actions[m] == Run(t) && Takes(states[m], states[m + 1], r)
  }

  lemma CallStartsAt(states: seq<Queue>, actions: seq<Action>, t: Tid, i: nat)
    requires IsQueueRun(states, actions) && i < |actions| && actions[i] == CallGet(t)
    ensures t in states[i + 1].pcs && states[i + 1].pcs[t] == GetLock
  {
    InvAlways(states, actions, i);
    CallStarts(states[i], t);
  }

  lemma DecidedAt(states: seq<Queue>, actions: seq<Action>, t: Tid, r: Link, p: nat)
    requires IsQueueRun(states, actions) && p < |actions|
    requires t in states[p].pcs && InGet(states[p].pcs[t]) && !ReturnsAt(states[p], actions[p], t)
    ensures t in states[p + 1].pcs && InGet(states[p + 1].pcs[t])
    ensures Decided(states[p + 1].pcs[t], r) ==> Decided(states[p].pcs[t], r) || TookAt(states, actions, t, r, p)
  {
    InvAlways(states, actions, p);
    DecidedNext(states[p], actions[p], t, r);
  }

  lemma {:induction false} CallSoFar(states: seq<Queue>, actions: seq<Action>, t: Tid, r: Link, i: nat, p: nat)
    requires IsQueueRun(states, actions) && i < p < |states| && actions[i] == CallGet(t)
    requires NoReturn(states, actions, t, i + 1, p)
    ensures t in states[p].pcs && InGet(states[p].pcs[t])
    ensures Decided(states[p].pcs[t], r) ==> TookBetween(states, actions, t, r, i, p)
  {
    if p == i + 1 {
      CallStartsAt(states, actions, t, i);
    } else {
      CallSoFar(states, actions, t, r, i, p - 1);
      DecidedAt(states, actions, t, r, p - 1);
      TookSoFar(states, actions, t, r, i, p);
    }
  }

  lemma TookSoFar(states: seq<Queue>, actions: seq<Action>, t: Tid, r: Link, i: nat, p: nat)
    requires |states| == |actions| + 1 && i + 1 < p < |states|
    ensures TookBetween(states, actions, t, r, i, p - 1) || TookAt(states, actions, t, r, p - 1) ==>
              TookBetween(states, actions, t, r, i, p)
  {
  }

  /** Every call that returns has an instant inside it that justifies the result: for NULL, the whole
      queue was empty; for a node, it was the front node and was taken off. */
  lemma ReturnHasInstant(states: seq<Queue>, actions: seq<Action>, t: Tid, i: nat, j: nat)
    requires IsQueueRun(states, actions) && i < j < |actions| && actions[i] == CallGet(t)
    requires NoReturn(states, actions, t, i + 1, j) && ReturnsAt(states[j], actions[j], t)
    ensures exists m :: i < m < j && TookAt(states, actions, t, states[j].pcs[t].r, m)
  {
    CallSoFar(states, actions, t, states[j].pcs[t].r, i, j);
  }
}
