/** The semaphore bounded buffer as a state machine: two counting semaphores, a mutex and a ring of
    QUEUE_SIZE slots, one shared access a step, any number of threads. */
module BoundedBuffer {
  import opened AtomicFifo
  import opened Counting
  import Slots

  type Task = int  // a task descriptor, which the buffer only copies

  /** What a thread does next, with its locals. */
  datatype Pc =
    | Idle
    | EnqWait(v: Task) | EnqLock(v: Task) | EnqLoad(v: Task) | EnqInc(v: Task, k: int) | EnqStore(v: Task, k: int)
    | EnqUnlock | EnqPost
    | DeqWait | DeqLock | DeqLoad | DeqInc(k: int) | DeqRead(k: int)
    | DeqUnlock(v: Task) | DeqPost(v: Task)

  /** The fields of the C structure, the threads, and history: the tasks stored and the tasks read. */
  datatype Buffer = Buffer(tasks: seq<Task>, rear: int, front: int, lock: Option<Tid>, taskSem: nat, spacesSem: nat,
                           pcs: map<Tid, Pc>, ins: seq<Task>, outs: seq<Task>)

  datatype Action = CallEnqueue(t: Tid, v: Task) | CallDequeue(t: Tid) | Run(t: Tid)

  /** create_queue_blocking(QUEUE_SIZE); the slots may hold anything. */
  predicate Init(n: nat, s: Buffer) {
    && |s.tasks| == n && s.rear == 0 && s.front == 0 && s.lock == None && s.taskSem == 0 && s.spacesSem == n
    && (forall t :: t in s.pcs ==> s.pcs[t] == Idle) && s.ins == [] && s.outs == []
  }

  predicate HoldsLock(pc: Pc) {
    || pc.EnqLoad? || pc.EnqInc? || pc.EnqStore? || pc.EnqUnlock?
    || pc.DeqLoad? || pc.DeqInc? || pc.DeqRead? || pc.DeqUnlock?
  }

  predicate Enabled(s: Buffer, a: Action) {
    && a.t in s.pcs && (s.pcs[a.t] == Idle <==> !a.Run?)
    && (s.pcs[a.t].EnqWait? ==> 0 < s.spacesSem)
    && (s.pcs[a.t].DeqWait? ==> 0 < s.taskSem)
    && (s.pcs[a.t].EnqLock? || s.pcs[a.t].DeqLock? ==> s.lock == None)
  }

  function Next(s: Buffer, a: Action): Buffer
    requires 0 < |s.tasks| && Enabled(s, a)
  {
    match a
    case CallEnqueue(t, v) => s.(pcs := s.pcs[t := EnqWait(v)])
    case CallDequeue(t) => s.(pcs := s.pcs[t := DeqWait])
    case Run(t) =>
      match s.pcs[t]
      case EnqWait(v) => s.(spacesSem := s.spacesSem - 1, pcs := s.pcs[t := EnqLock(v)])
      case EnqLock(v) => s.(lock := Some(t), pcs := s.pcs[t := EnqLoad(v)])
      case EnqLoad(v) => s.(pcs := s.pcs[t := EnqInc(v, s.rear + 1)])
      case EnqInc(v, k) => s.(rear := k, pcs := s.pcs[t := EnqStore(v, k)])
      case EnqStore(v, k) => s.(tasks := s.tasks[k % |s.tasks| := v], pcs := s.pcs[t := EnqUnlock], ins := s.ins + [v])
      case EnqUnlock => s.(lock := None, pcs := s.pcs[t := EnqPost])
      case EnqPost => s.(taskSem := s.taskSem + 1, pcs := s.pcs[t := Idle])
      case DeqWait => s.(taskSem := s.taskSem - 1, pcs := s.pcs[t := DeqLock])
      case DeqLock => s.(lock := Some(t), pcs := s.pcs[t := DeqLoad])
      case DeqLoad => s.(pcs := s.pcs[t := DeqInc(s.front + 1)])
      case DeqInc(k) => s.(front := k, pcs := s.pcs[t := DeqRead(k)])
      case DeqRead(k) =>
        var v := s.tasks[k % |s.tasks|];
        s.(pcs := s.pcs[t := DeqUnlock(v)], outs := s.outs + [v])
      case DeqUnlock(v) => s.(lock := None, pcs := s.pcs[t := DeqPost(v)])
      case DeqPost(_) => s.(spacesSem := s.spacesSem + 1, pcs := s.pcs[t := Idle])
  }

  // Counting threads.

  /** An enqueuer past sem_wait that has not advanced `rear`. */
  predicate Reserved(pc: Pc) { pc.EnqLock? || pc.EnqLoad? || pc.EnqInc? }

  /** An enqueuer that has advanced `rear` and not posted. */
  predicate Unposted(pc: Pc) { pc.EnqStore? || pc.EnqUnlock? || pc.EnqPost? }

  /** A dequeuer past sem_wait that has not advanced `front`. */
  predicate Claimed(pc: Pc) { pc.DeqLock? || pc.DeqLoad? || pc.DeqInc? }

  /** A dequeuer that has advanced `front` and not posted. */
  predicate Unreturned(pc: Pc) { pc.DeqRead? || pc.DeqUnlock? || pc.DeqPost? }

  /** The counting invariant of the two semaphores. */
  ghost predicate Balanced(rear: int, front: int, n: nat, taskSem: nat, spacesSem: nat, pcs: map<Tid, Pc>) {
    && rear - front == taskSem + Count(pcs, Unposted) + Count(pcs, Claimed)
    && n - (rear - front) == spacesSem + Count(pcs, Reserved) + Count(pcs, Unreturned)
  }

  /** Unread tasks are in their slots, in order, and what was read is a prefix of what was stored. */
  ghost predicate Ordered(s: Buffer)
    requires 0 < |s.tasks|
  {
    && |s.outs| <= |s.ins| && s.outs == s.ins[..|s.outs|]
    && forall j: nat :: |s.outs| < j <= |s.ins| ==> SlotHas(s.tasks, s.ins, j)
  }

  /** The j-th task stored, counting from 1, is in its slot. */
  predicate SlotHas(tasks: seq<Task>, ins: seq<Task>, j: nat)
    requires 0 < |tasks| && 0 < j <= |ins|
  {
    tasks[j % |tasks|] == ins[j - 1]
  }

  /** What the holder of the mutex knows; `ins` and `outs` lag behind the counters inside it. */
  predicate HolderOk(s: Buffer, pc: Pc) {
    && (pc.EnqInc? ==> pc.k == s.rear + 1)
    && (pc.EnqStore? ==> pc.k == s.rear)
    && (pc.DeqInc? ==> pc.k == s.front + 1)
    && (pc.DeqRead? ==> pc.k == s.front)
    && |s.ins| == s.rear - (if pc.EnqStore? then 1 else 0)
    && |s.outs| == s.front - (if pc.DeqRead? then 1 else 0)
  }

  ghost predicate Mutex(s: Buffer) {
    && (forall t :: t in s.pcs ==> (HoldsLock(s.pcs[t]) <==> s.lock == Some(t)))
    && (s.lock.Some? ==> s.lock.value in s.pcs && HolderOk(s, s.pcs[s.lock.value]))
    && (s.lock.None? ==> |s.ins| == s.rear && |s.outs| == s.front)
  }

  ghost predicate Inv(s: Buffer) {
    && 0 < |s.tasks| && Mutex(s) && Ordered(s)
    && Balanced(s.rear, s.front, |s.tasks|, s.taskSem, s.spacesSem, s.pcs)
  }

  lemma InitInv(n: nat, s: Buffer)
    requires 0 < n && Init(n, s)
    ensures Inv(s)
  {
    CountNone(s.pcs, Unposted);
    CountNone(s.pcs, Claimed);
    CountNone(s.pcs, Reserved);
    CountNone(s.pcs, Unreturned);
  }

  /** One thread moves from a program point to the next, and the counters with it. */
  lemma BalancedStep(rear: int, front: int, n: nat, taskSem: nat, spacesSem: nat, pcs: map<Tid, Pc>, t: Tid, pc: Pc,
                     rear': int, front': int, taskSem': nat, spacesSem': nat)
    requires Balanced(rear, front, n, taskSem, spacesSem, pcs) && t in pcs
    requires (rear' - front') - (rear - front) ==
      taskSem' - taskSem + One(Unposted(pc)) - One(Unposted(pcs[t])) + One(Claimed(pc)) - One(Claimed(pcs[t]))
    requires (rear - front) - (rear' - front') ==
      spacesSem' - spacesSem + One(Reserved(pc)) - One(Reserved(pcs[t])) + One(Unreturned(pc)) - One(Unreturned(pcs[t]))
    ensures Balanced(rear', front', n, taskSem', spacesSem', pcs[t := pc])
  {
    CountStep(pcs, t, pc, Unposted);
    CountStep(pcs, t, pc, Claimed);
    CountStep(pcs, t, pc, Reserved);
    CountStep(pcs, t, pc, Unreturned);
  }

  lemma BalancedNext(s: Buffer, a: Action)
    requires Inv(s) && Enabled(s, a)
    ensures var s' := Next(s, a); Balanced(s'.rear, s'.front, |s'.tasks|, s'.taskSem, s'.spacesSem, s'.pcs)
  {
    var s', pc := Next(s, a), Next(s, a).pcs[a.t];
    KnowsCounters(s, a.t);
    BalancedStep(s.rear, s.front, |s.tasks|, s.taskSem, s.spacesSem, s.pcs, a.t, pc, s'.rear, s'.front, s'.taskSem, s'.spacesSem);
    assert s'.pcs == s.pcs[a.t := pc];
  }

  lemma KnowsCounters(s: Buffer, t: Tid)
    requires Inv(s) && t in s.pcs
    ensures HoldsLock(s.pcs[t]) ==> s.lock == Some(t) && HolderOk(s, s.pcs[t])
  {
  }

  /** The number of unread tasks is between zero and the number of slots. */
  lemma SizeOk(s: Buffer)
    requires Inv(s)
    ensures 0 <= s.rear - s.front <= |s.tasks|
  {
  }

  /** The store of an enqueue never hits the slot of an unread task. */
  lemma StoreHitsNoUnread(s: Buffer, t: Tid, j: nat)
    requires Inv(s) && t in s.pcs && s.pcs[t].EnqStore? && |s.outs| < j <= |s.ins|
    ensures j % |s.tasks| != s.pcs[t].k % |s.tasks|
  {
    Slots.WithinLap(j, s.rear, |s.tasks|);
  }

  /** The read of a dequeue finds the oldest unread task. */
  lemma ReadFindsOldest(s: Buffer, t: Tid)
    requires Inv(s) && t in s.pcs && s.pcs[t].DeqRead?
    ensures |s.outs| < |s.ins| && s.tasks[s.pcs[t].k % |s.tasks|] == s.ins[|s.outs|]
  {
    KnowsCounters(s, t);
    SizeOk(s);
    assert SlotHas(s.tasks, s.ins, s.front);
  }

  lemma OrderedNext(s: Buffer, a: Action)
    requires Inv(s) && Enabled(s, a)
    ensures Ordered(Next(s, a))
  {
    var s' := Next(s, a);
    if a.Run? && s.pcs[a.t].EnqStore? {
      KnowsCounters(s, a.t);
      forall j: nat | |s'.outs| < j <= |s'.ins| ensures SlotHas(s'.tasks, s'.ins, j) {
        if j <= |s.ins| {
          StoreHitsNoUnread(s, a.t, j);
          assert SlotHas(s.tasks, s.ins, j);
        }
      }
    } else if a.Run? && s.pcs[a.t].DeqRead? {
      ReadFindsOldest(s, a.t);
      assert s'.outs == s'.ins[..|s'.outs|];
      forall j: nat | |s'.outs| < j <= |s'.ins| ensures SlotHas(s'.tasks, s'.ins, j) {
        assert SlotHas(s.tasks, s.ins, j);
      }
    } else {
      forall j: nat | |s'.outs| < j <= |s'.ins| ensures SlotHas(s'.tasks, s'.ins, j) {
        assert SlotHas(s.tasks, s.ins, j);
      }
    }
  }

  lemma MutexNext(s: Buffer, a: Action)
    requires Inv(s) && Enabled(s, a)
    ensures Mutex(Next(s, a))
  {
    KnowsCounters(s, a.t);
    MutexStep(s, Next(s, a), a.t);
  }

  lemma MutexStep(s: Buffer, s': Buffer, t: Tid)
    requires Mutex(s) && t in s.pcs && t in s'.pcs && s'.pcs == s.pcs[t := s'.pcs[t]]
    requires HoldsLock(s.pcs[t]) || HoldsLock(s'.pcs[t]) || (s'.rear == s.rear && s'.front == s.front && s'.ins == s.ins && s'.outs == s.outs)
    requires HoldsLock(s'.pcs[t]) ==> s'.lock == Some(t) && HolderOk(s', s'.pcs[t]) && (HoldsLock(s.pcs[t]) || s.lock == None)
    requires !HoldsLock(s'.pcs[t]) && HoldsLock(s.pcs[t]) ==> s'.lock == None && |s'.ins| == s'.rear && |s'.outs| == s'.front
    requires !HoldsLock(s'.pcs[t]) && !HoldsLock(s.pcs[t]) ==> s'.lock == s.lock
    ensures Mutex(s')
  {
  }

  lemma InvNext(s: Buffer, a: Action)
    requires Inv(s) && Enabled(s, a)
    ensures Inv(Next(s, a))
  {
    BalancedNext(s, a);
    OrderedNext(s, a);
    MutexNext(s, a);
  }
}
