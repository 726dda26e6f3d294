/** Progress of the bounded buffer: how far a call still has to go, and what a call comes to that meets
    nobody. */
module BoundedBufferProgress {
  import opened AtomicFifo
  import opened BoundedBuffer
  import opened BoundedBufferRefinement
  import opened Counting
  import Slots

  /** The accesses a call at this program point still needs. */
  function Left(pc: Pc): nat {
    match pc
    case EnqWait(_) => 7
    case EnqLock(_) => 6
    case EnqLoad(_) => 5
    case EnqInc(_, _) => 4
    case EnqStore(_, _) => 3
    case EnqUnlock => 2
    case EnqPost => 1
    case DeqWait => 7
    case DeqLock => 6
    case DeqLoad => 5
    case DeqInc(_) => 4
    case DeqRead(_) => 3
    case DeqUnlock(_) => 2
    case DeqPost(_) => 1
    case Idle => 0
  }

  /** An access of a thread is one of those it needs, a call is the start of seven, and no thread's access
      moves another thread. */
  lemma EachAccessCounts(s: Buffer, a: Action)
    requires 0 < |s.tasks| && Enabled(s, a)
    ensures var s' := Next(s, a);
      && s'.pcs.Keys == s.pcs.Keys && (forall u :: u in s.pcs && u != a.t ==> s'.pcs[u] == s.pcs[u])
      && Left(s'.pcs[a.t]) == if a.Run? then Left(s.pcs[a.t]) - 1 else 7
  {
  }

  /** The accesses of thread t among the actions from i to n. */
  function Accesses(actions: seq<Action>, t: Tid, i: nat, n: nat): nat
    requires i <= n <= |actions|
  {
    if i == n then 0 else Accesses(actions, t, i, n - 1) + One(actions[n - 1] == Run(t))
  }

  /** Thread t is inside one and the same call in the states from i to n, which it may have left at n. */
  ghost predicate InCall(states: seq<Buffer>, t: Tid, i: nat, n: nat)
    requires i <= n < |states|
  {
    forall k :: i <= k < n ==> t in states[k].pcs && states[k].pcs[t] != Idle
  }

  /** The k-th step, if thread t is in a call before it. */
  predicate CountsAt(states: seq<Buffer>, actions: seq<Action>, t: Tid, k: nat)
    requires k < |actions| < |states|
  {
    t in states[k].pcs && states[k].pcs[t] != Idle ==>
      t in states[k + 1].pcs && Left(states[k + 1].pcs[t]) == Left(states[k].pcs[t]) - One(actions[k] == Run(t))
  }

  lemma StepCounts(n: nat, states: seq<Buffer>, actions: seq<Action>, t: Tid, k: nat)
    requires IsBufferRun(n, states, actions) && k < |actions|
    ensures CountsAt(states, actions, t, k)
  {
    EachAccessCounts(states[k], actions[k]);
  }

  lemma {:induction false} AddedUp(states: seq<Buffer>, actions: seq<Action>, t: Tid, i: nat, m: nat)
    requires i <= m <= |actions| < |states| && t in states[i].pcs && InCall(states, t, i, m)
    requires forall k: nat :: k < |actions| ==> CountsAt(states, actions, t, k)
    ensures t in states[m].pcs
    ensures Accesses(actions, t, i, m) + Left(states[m].pcs[t]) == Left(states[i].pcs[t])
  {
    if i < m {
      AddedUp(states, actions, t, i, m - 1);
      assert CountsAt(states, actions, t, m - 1);
    }
  }

  /** In every run, all through a call: the accesses made and those still needed add up to those needed at
      first, whatever the other threads do. */
  lemma CallAdvances(n: nat, states: seq<Buffer>, actions: seq<Action>, t: Tid, i: nat, m: nat)
    requires IsBufferRun(n, states, actions) && i <= m < |states| && t in states[i].pcs && InCall(states, t, i, m)
    ensures t in states[m].pcs
    ensures Accesses(actions, t, i, m) + Left(states[m].pcs[t]) == Left(states[i].pcs[t])
  {
    forall k: nat | k < |actions| ensures CountsAt(states, actions, t, k) { StepCounts(n, states, actions, t, k); }
    AddedUp(states, actions, t, i, m);
  }

  /** So a call returns with its seventh access and not before. */
  lemma CallTakesSeven(n: nat, states: seq<Buffer>, actions: seq<Action>, t: Tid, i: nat, m: nat)
    requires IsBufferRun(n, states, actions) && i < m < |states| && t in states[i].pcs
    requires actions[i].t == t && !actions[i].Run? && InCall(states, t, i + 1, m)
    ensures t in states[m].pcs && Accesses(actions, t, i + 1, m) <= 7
    ensures states[m].pcs[t] == Idle <==> Accesses(actions, t, i + 1, m) == 7
  {
    EachAccessCounts(states[i], actions[i]);
    CallAdvances(n, states, actions, t, i + 1, m);
  }

  // A call that meets nobody.

  /** One access of thread t. */
  predicate Goes(s: Buffer, t: Tid, s': Buffer) {
    0 < |s.tasks| && Enabled(s, Run(t)) && s' == Next(s, Run(t))
  }

  /** Thread t makes all the accesses. */
  ghost predicate Alone(states: seq<Buffer>, t: Tid) {
    forall i :: 0 <= i < |states| - 1 ==> Goes(states[i], t, states[i + 1])
  }

  lemma Advance(s: Buffer, t: Tid) returns (s': Buffer)
    requires 0 < |s.tasks| && Enabled(s, Run(t))
    ensures Goes(s, t, s') && s' == Next(s, Run(t))
  {
    s' := Next(s, Run(t));
  }

  lemma EnqueueEnters(s: Buffer, t: Tid, v: Task) returns (s1: Buffer, s2: Buffer, s3: Buffer)
    requires 0 < |s.tasks| && t in s.pcs && s.pcs[t] == EnqWait(v) && 0 < s.spacesSem && s.lock == None
    ensures Goes(s, t, s1) && Goes(s1, t, s2) && Goes(s2, t, s3)
    ensures s3 == s.(spacesSem := s.spacesSem - 1, lock := Some(t), pcs := s.pcs[t := EnqInc(v, s.rear + 1)])
  {
    s1 := Advance(s, t);
    s2 := Advance(s1, t);
    s3 := Advance(s2, t);
    assert s3.pcs == s.pcs[t := EnqInc(v, s.rear + 1)];
  }

  lemma EnqueueLeaves(s: Buffer, t: Tid, v: Task, k: int) returns (s1: Buffer, s2: Buffer, s3: Buffer, s4: Buffer)
    requires 0 < |s.tasks| && t in s.pcs && s.pcs[t] == EnqInc(v, k)
    ensures Goes(s, t, s1) && Goes(s1, t, s2) && Goes(s2, t, s3) && Goes(s3, t, s4)
    ensures s4 == s.(rear := k, tasks := s.tasks[k % |s.tasks| := v], ins := s.ins + [v], lock := None,
                     taskSem := s.taskSem + 1, pcs := s.pcs[t := Idle])
  {
    s1 := Advance(s, t);
    s2 := Advance(s1, t);
    s3 := Advance(s2, t);
    s4 := Advance(s3, t);
    assert s4.pcs == s.pcs[t := Idle];
  }

  /** With a space and the mutex free, an enqueue alone is done after seven accesses: the task is in the slot
      behind the last one, and nothing else is changed. */
  lemma EnqueueAlone(s: Buffer, t: Tid, v: Task) returns (states: seq<Buffer>)
    requires 0 < |s.tasks| && Enabled(s, CallEnqueue(t, v)) && 0 < s.spacesSem && s.lock == None
    ensures |states| == 8 && states[0] == Next(s, CallEnqueue(t, v)) && Alone(states, t)
    ensures states[7] == s.(tasks := s.tasks[(s.rear + 1) % |s.tasks| := v], rear := s.rear + 1, ins := s.ins + [v],
                            spacesSem := s.spacesSem - 1, taskSem := s.taskSem + 1)
  {
    var s0 := s.(pcs := s.pcs[t := EnqWait(v)]);
    var s1, s2, s3 := EnqueueEnters(s0, t, v);
    var s4, s5, s6, s7 := EnqueueLeaves(s3, t, v, s.rear + 1);
    states := [s0, s1, s2, s3, s4, s5, s6, s7];
    assert s7.pcs == s.pcs;
  }

  lemma DequeueEnters(s: Buffer, t: Tid) returns (s1: Buffer, s2: Buffer, s3: Buffer)
    requires 0 < |s.tasks| && t in s.pcs && s.pcs[t] == DeqWait && 0 < s.taskSem && s.lock == None
    ensures Goes(s, t, s1) && Goes(s1, t, s2) && Goes(s2, t, s3)
    ensures s3 == s.(taskSem := s.taskSem - 1, lock := Some(t), pcs := s.pcs[t := DeqInc(s.front + 1)])
  {
    s1 := Advance(s, t);
    s2 := Advance(s1, t);
    s3 := Advance(s2, t);
    assert s3.pcs == s.pcs[t := DeqInc(s.front + 1)];
  }

  lemma DequeueReads(s: Buffer, t: Tid, k: int) returns (s1: Buffer, s2: Buffer, s3: Buffer)
    requires 0 < |s.tasks| && t in s.pcs && s.pcs[t] == DeqInc(k)
    ensures Goes(s, t, s1) && Goes(s1, t, s2) && Goes(s2, t, s3)
    ensures var v := s.tasks[k % |s.tasks|];
      s3 == s.(front := k, outs := s.outs + [v], lock := None, pcs := s.pcs[t := DeqPost(v)])
  {
    s1 := Advance(s, t);
    s2 := Advance(s1, t);
    s3 := Advance(s2, t);
    assert s3.pcs == s.pcs[t := DeqPost(s.tasks[k % |s.tasks|])];
  }

  lemma DequeuePosts(s: Buffer, t: Tid, v: Task) returns (s1: Buffer)
    requires 0 < |s.tasks| && t in s.pcs && s.pcs[t] == DeqPost(v)
    ensures Goes(s, t, s1) && Enabled(s, Run(t)) && LabelOf(s, Run(t)) == RetDeq(t, Some(v))
    ensures s1 == s.(spacesSem := s.spacesSem + 1, pcs := s.pcs[t := Idle])
  {
    s1 := Advance(s, t);
  }

  /** The oldest task is in the slot behind the last one read. */
  lemma OldestTask(s: Buffer)
    requires Inv(s) && 0 < s.taskSem && s.lock == None
    ensures |s.outs| < |s.ins| && s.tasks[(s.front + 1) % |s.tasks|] == s.ins[|s.outs|]
  {
    assert SlotHas(s.tasks, s.ins, |s.outs| + 1);
  }

  /** With a task and the mutex free, a dequeue alone is done after seven accesses: the last one returns the
      oldest task, and nothing else is changed. */
  lemma DequeueAlone(s: Buffer, t: Tid) returns (states: seq<Buffer>)
    requires Inv(s) && Enabled(s, CallDequeue(t)) && 0 < s.taskSem && s.lock == None
    ensures |states| == 8 && states[0] == Next(s, CallDequeue(t)) && Alone(states, t) && |s.outs| < |s.ins|
    ensures Enabled(states[6], Run(t)) && LabelOf(states[6], Run(t)) == RetDeq(t, Some(s.ins[|s.outs|]))
    ensures states[7] == s.(front := s.front + 1, outs := s.outs + [s.ins[|s.outs|]],
                            spacesSem := s.spacesSem + 1, taskSem := s.taskSem - 1)
  {
    OldestTask(s);
    states := DequeueNext(s, t);
  }

  lemma DequeueNext(s: Buffer, t: Tid) returns (states: seq<Buffer>)
    requires 0 < |s.tasks| && Enabled(s, CallDequeue(t)) && 0 < s.taskSem && s.lock == None
    ensures |states| == 8 && states[0] == Next(s, CallDequeue(t)) && Alone(states, t)
    ensures var v := s.tasks[(s.front + 1) % |s.tasks|];
      && Enabled(states[6], Run(t)) && LabelOf(states[6], Run(t)) == RetDeq(t, Some(v))
      && states[7] == s.(front := s.front + 1, outs := s.outs + [v], spacesSem := s.spacesSem + 1, taskSem := s.taskSem - 1)
  {
    var s0 := s.(pcs := s.pcs[t := DeqWait]);
    var s1, s2, s3 := DequeueEnters(s0, t);
    var s4, s5, s6 := DequeueReads(s3, t, s.front + 1);
    var s7 := DequeuePosts(s6, t, s.tasks[(s.front + 1) % |s.tasks|]);
    assert s7.pcs == s.pcs;
    states := [s0, s1, s2, s3, s4, s5, s6, s7];
  }
}
