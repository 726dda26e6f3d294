/** Progress of the semi-blocking queue: somebody can always go on, and whoever holds the lock gives it
    back after a number of its own accesses that only putters who finish can raise. */
module SemiBlockingProgress {
  import opened AtomicFifo
  import opened SemiBlocking
  import opened SemiBlockingRefinement
  import opened Counting

  /** While any call is unfinished, some thread can go on: a thread can only be kept waiting by the lock,
      and then the lock's holder can go on. */
  lemma LockNeverBlocks(s: Queue, t: Tid) returns (u: Tid)
    requires Inv(s) && t in s.pcs && s.pcs[t] != Idle
    ensures u in s.pcs && s.pcs[u] != Idle && Enabled(s, Run(u))
    ensures u == t || (s.pcs[t] == GetLock && s.lock == Some(u))
  {
    if Enabled(s, Run(t)) {
      u := t;
    } else {
      u := s.lock.value;
      assert HoldsLock(s.pcs[u]);
    }
  }

  /** At most how many accesses a holder of the lock at pc still needs if no put succeeds, with so many nodes
      in the in list and in the detached list. A compare-and-swap may fail if a put has succeeded since the
      reading that it compares with. */
  function WorkOf(pc: Pc, inl: nat, det: nat, pushes: nat): nat {
    match pc
    case GetTestOut => 4 * inl + 7
    case GetReadIn(_) => 4 * inl + 6
    case GetCas(_, p) => 4 * inl + if p < pushes then 7 else 5
    case RevNext(_) => 4 * det + 4
    case RevLoadOut(_, _) => 4 * det + 3
    case RevLink(_, _, _) => 4 * det + 2
    case RevSetOut(_, _) => 4 * det + 1
    case GetReadOut(_) => 4
    case GetLoadNext(_) => 3
    case GetSetOut(_, _) => 2
    case GetUnlock(_) => 1
    case _ => 0
  }

  function HolderWork(s: Queue, t: Tid): nat
    requires t in s.pcs
  {
    WorkOf(s.pcs[t], |s.inl|, |s.det|, s.pushes)
  }

  /** The next program point of a holder whose access detaches nothing and reverses nothing. */
  predicate Onward(s: Queue, pc: Pc, s': Queue, pc': Pc) {
    && s'.inl == s.inl && s'.det == s.det && s'.pushes == s.pushes
    && match pc
       case GetTestOut => pc'.GetReadIn? || pc'.GetReadOut?
       case GetReadIn(_) => pc'.GetReadOut? || (pc'.GetCas? && pc'.pushes == s.pushes)
       case RevNext(_) => pc'.RevLoadOut?
       case RevLoadOut(_, _) => pc'.RevLink?
       case RevLink(_, _, _) => pc'.RevSetOut?
       case GetReadOut(_) => pc'.GetUnlock? || pc'.GetLoadNext?
       case GetLoadNext(_) => pc'.GetSetOut?
       case GetSetOut(_, _) => pc'.GetUnlock?
       case GetUnlock(_) => pc'.Idle?
       case _ => false
  }

  lemma OnwardIsLess(s: Queue, pc: Pc, s': Queue, pc': Pc)
    requires Onward(s, pc, s', pc')
    ensures WorkOf(pc', |s'.inl|, |s'.det|, s'.pushes) < WorkOf(pc, |s.inl|, |s.det|, s.pushes)
  {
  }

  lemma GoesOnward(s: Queue, t: Tid)
    requires Inv(s) && t in s.pcs && HoldsLock(s.pcs[t]) && !s.pcs[t].GetCas? && !s.pcs[t].RevSetOut?
    ensures Onward(s, s.pcs[t], RunGet(s, t), RunGet(s, t).pcs[t])
  {
  }

  lemma DetachAdvances(s: Queue, t: Tid)
    requires Inv(s) && t in s.pcs && s.pcs[t].GetCas?
    ensures HolderWork(RunGet(s, t), t) < HolderWork(s, t) && RunGet(s, t).pushes == s.pushes
  {
    FailureMeansProgress(s, t);
  }

  lemma TurnAdvances(s: Queue, t: Tid)
    requires Inv(s) && t in s.pcs && s.pcs[t].RevSetOut?
    ensures HolderWork(RunGet(s, t), t) < HolderWork(s, t) && RunGet(s, t).pushes == s.pushes
  {
    assert GetterOk(s, s.pcs[t]);
  }

  /** Each access of the holder, a failing compare-and-swap included, brings it closer to the unlock. */
  lemma HolderAdvances(s: Queue, t: Tid)
    requires Inv(s) && t in s.pcs && HoldsLock(s.pcs[t])
    ensures t in Next(s, Run(t)).pcs && HolderWork(Next(s, Run(t)), t) < HolderWork(s, t)
    ensures Next(s, Run(t)).pushes == s.pushes
  {
    assert Next(s, Run(t)) == RunGet(s, t);
    if s.pcs[t].GetCas? {
      DetachAdvances(s, t);
    } else if s.pcs[t].RevSetOut? {
      TurnAdvances(s, t);
    } else {
      GoesOnward(s, t);
      OnwardIsLess(s, s.pcs[t], RunGet(s, t), RunGet(s, t).pcs[t]);
    }
  }

  predicate MovedBy(a: Action, t: Tid) { !a.Scribble? && a.t == t }

  /** What the others leave alone while t holds the lock. */
  lemma OthersStay(s: Queue, a: Action, t: Tid)
    requires Inv(s) && Enabled(s, a) && t in s.pcs && HoldsLock(s.pcs[t]) && !MovedBy(a, t)
    ensures var s' := Next(s, a);
      && t in s'.pcs && s'.pcs[t] == s.pcs[t] && s'.det == s.det
      && |s'.inl| - |s.inl| == s'.pushes - s.pushes && s.pushes <= s'.pushes <= s.pushes + 1
  {
    if a.Run? {
      assert s.pcs[a.t] != Idle && !HoldsLock(s.pcs[a.t]) && s.lock == Some(t);
      assert Next(s, a) == RunPut(s, a.t);
    }
  }

  /** Nobody else makes the holder's work longer, but a put that succeeds, by six accesses at most. */
  lemma OthersDelay(s: Queue, a: Action, t: Tid)
    requires Inv(s) && Enabled(s, a) && t in s.pcs && HoldsLock(s.pcs[t]) && !MovedBy(a, t)
    ensures var s' := Next(s, a);
      && t in s'.pcs && s.pushes <= s'.pushes
      && HolderWork(s', t) <= HolderWork(s, t) + 6 * (s'.pushes - s.pushes)
  {
    OthersStay(s, a, t);
  }

  lemma HolderStep(s: Queue, a: Action, t: Tid)
    requires Inv(s) && Enabled(s, a) && t in s.pcs && HoldsLock(s.pcs[t])
    ensures var s' := Next(s, a);
      && t in s'.pcs && s.pushes <= s'.pushes
      && One(MovedBy(a, t)) + HolderWork(s', t) <= HolderWork(s, t) + 6 * (s'.pushes - s.pushes)
  {
    if MovedBy(a, t) {
      assert a == Run(t);
      HolderAdvances(s, t);
    } else {
      OthersDelay(s, a, t);
    }
  }

  /** The accesses of thread t among the actions from i to n. */
  function Accesses(actions: seq<Action>, t: Tid, i: nat, n: nat): nat
    requires i <= n <= |actions|
  {
    if i == n then 0 else Accesses(actions, t, i, n - 1) + One(MovedBy(actions[n - 1], t))
  }

  ghost predicate HoldsThroughout(states: seq<Queue>, t: Tid, i: nat, n: nat)
    requires i <= n < |states|
  {
    forall k :: i <= k <= n ==> t in states[k].pcs && HoldsLock(states[k].pcs[t])
  }

  lemma HolderStepAt(states: seq<Queue>, actions: seq<Action>, t: Tid, k: nat)
    requires IsQueueRun(states, actions) && k < |actions| && t in states[k].pcs && HoldsLock(states[k].pcs[t])
    ensures t in states[k + 1].pcs && states[k].pushes <= states[k + 1].pushes
    ensures One(MovedBy(actions[k], t)) + HolderWork(states[k + 1], t)
            <= HolderWork(states[k], t) + 6 * (states[k + 1].pushes - states[k].pushes)
  {
    InvAlways(states, actions, k);
    HolderStep(states[k], actions[k], t);
  }

  /** In every run: while thread t holds the lock, its accesses and those it still needs are at most those
      it needed first and six for each put that has succeeded meanwhile. */
  lemma {:induction false} HolderBounded(states: seq<Queue>, actions: seq<Action>, t: Tid, i: nat, n: nat)
    requires IsQueueRun(states, actions) && i <= n < |states| && HoldsThroughout(states, t, i, n)
    ensures t in states[i].pcs && t in states[n].pcs && states[i].pushes <= states[n].pushes
    ensures Accesses(actions, t, i, n) + HolderWork(states[n], t)
            <= HolderWork(states[i], t) + 6 * (states[n].pushes - states[i].pushes)
  {
    if i < n {
      HolderBounded(states, actions, t, i, n - 1);
      HolderStepAt(states, actions, t, n - 1);
    }
  }

  // The same for a put: only a write of `in_queue` makes it longer.

  predicate Putting(pc: Pc) { pc.PutRead? || pc.PutLink? || pc.PutCas? }

  /** At most how many accesses a put at pc still needs if `in_queue` is not written: a compare-and-swap on
      a reading that is older than the last write may fail. */
  function PutLeft(pc: Pc, writes: nat): nat {
    match pc
    case PutRead(_) => 3
    case PutLink(_, _, w) => if w < writes then 5 else 2
    case PutCas(_, _, w) => if w < writes then 4 else 1
    case _ => 0
  }

  function PutterWork(s: Queue, t: Tid): nat
    requires t in s.pcs
  {
    PutLeft(s.pcs[t], s.writes)
  }

  /** Each access of a put, a failing compare-and-swap included, brings it closer to its end. */
  lemma PutterAdvances(s: Queue, t: Tid)
    requires Inv(s) && t in s.pcs && Putting(s.pcs[t])
    ensures Enabled(s, Run(t)) && t in Next(s, Run(t)).pcs && s.writes <= Next(s, Run(t)).writes
    ensures PutterWork(Next(s, Run(t)), t) < PutterWork(s, t)
  {
    assert PutterOk(s, t, s.pcs[t]);
  }

  lemma PutterWrites(s: Queue, u: Tid)
    requires Inv(s) && u in s.pcs && Putting(s.pcs[u])
    ensures var s' := RunPut(s, u);
      u in s'.pcs && s'.pcs == s.pcs[u := s'.pcs[u]] && s.writes <= s'.writes <= s.writes + 1
  {
  }

  lemma GetterWrites(s: Queue, u: Tid)
    requires Inv(s) && u in s.pcs && (HoldsLock(s.pcs[u]) || s.pcs[u] == GetLock)
    ensures s.writes <= RunGet(s, u).writes <= s.writes + 1
  {
  }

  lemma OthersWrite(s: Queue, a: Action, t: Tid)
    requires Inv(s) && Enabled(s, a) && t in s.pcs && Putting(s.pcs[t]) && !MovedBy(a, t)
    ensures var s' := Next(s, a);
      t in s'.pcs && s'.pcs[t] == s.pcs[t] && s.writes <= s'.writes <= s.writes + 1
  {
    if a.Run? {
      if Putting(s.pcs[a.t]) {
        PutterWrites(s, a.t);
        assert Next(s, a) == RunPut(s, a.t);
      } else {
        GetterWrites(s, a.t);
        assert Next(s, a) == RunGet(s, a.t);
      }
    }
  }

  /** Nobody else makes a put longer, but a write of `in_queue`, by three accesses at most. */
  lemma OthersDelayPut(s: Queue, a: Action, t: Tid)
    requires Inv(s) && Enabled(s, a) && t in s.pcs && Putting(s.pcs[t]) && !MovedBy(a, t)
    ensures var s' := Next(s, a);
      && t in s'.pcs && s.writes <= s'.writes
      && PutterWork(s', t) <= PutterWork(s, t) + 3 * (s'.writes - s.writes)
  {
    OthersWrite(s, a, t);
    assert PutterOk(s, t, s.pcs[t]);
  }

  ghost predicate PutsThroughout(states: seq<Queue>, t: Tid, i: nat, n: nat)
    requires i <= n < |states|
  {
    forall k :: i <= k < n ==> t in states[k].pcs && Putting(states[k].pcs[t])
  }

  lemma PutterStepAt(states: seq<Queue>, actions: seq<Action>, t: Tid, k: nat)
    requires IsQueueRun(states, actions) && k < |actions| && t in states[k].pcs && Putting(states[k].pcs[t])
    ensures t in states[k + 1].pcs && states[k].writes <= states[k + 1].writes
    ensures One(MovedBy(actions[k], t)) + PutterWork(states[k + 1], t)
            <= PutterWork(states[k], t) + 3 * (states[k + 1].writes - states[k].writes)
  {
    InvAlways(states, actions, k);
    if MovedBy(actions[k], t) {
      assert actions[k] == Run(t);
      PutterAdvances(states[k], t);
    } else {
      OthersDelayPut(states[k], actions[k], t);
    }
  }

  /** In every run, all through a put: its accesses and those it still needs are at most those it needed
      first and three for each write of `in_queue` meanwhile. */
  lemma {:induction false} PutterBounded(states: seq<Queue>, actions: seq<Action>, t: Tid, i: nat, n: nat)
    requires IsQueueRun(states, actions) && i <= n < |states| && t in states[i].pcs && PutsThroughout(states, t, i, n)
    ensures t in states[n].pcs && states[i].writes <= states[n].writes
    ensures Accesses(actions, t, i, n) + PutterWork(states[n], t)
            <= PutterWork(states[i], t) + 3 * (states[n].writes - states[i].writes)
  {
    if i < n {
      PutterBounded(states, actions, t, i, n - 1);
      PutterStepAt(states, actions, t, n - 1);
    }
  }
}
