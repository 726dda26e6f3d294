/** enqueue_atomic and dequeue_atomic on the real fields: one shared-memory access at a time for any
    number of threads, and as whole loops for a thread that meets nobody. */
module AtomicSlotsCode {
  import opened AtomicFifo
  import opened AtomicSlots
  import Slots

  /** Probe number m of an enqueue alone, whose first probe is number `first`, finds what it expects: the
      empty task at first, and then whatever the probe before has found. */
  predicate Hit(tasks: seq<Task>, first: nat, m: nat)
    requires 0 < |tasks|
  {
    first <= m && tasks[m % |tasks|] == if m == first then EMPTY else tasks[(m - 1) % |tasks|]
  }

  ghost predicate NoHitBefore(tasks: seq<Task>, first: nat, m: nat)
    requires 0 < |tasks|
  {
    forall k: nat :: k < m ==> !Hit(tasks, first, k)
  }

  ghost predicate HitWithin(tasks: seq<Task>, first: nat, turns: nat)
    requires 0 < |tasks|
  {
    exists m: nat :: Hit(tasks, first, m) && m < first + turns
  }

  predicate EmptyPair(tasks: seq<Task>, j: nat)
    requires j < |tasks|
  {
    tasks[j] == EMPTY && tasks[(j + 1) % |tasks|] == EMPTY
  }

  /** The first slot probed is empty, or two cyclically adjacent slots are. */
  ghost predicate HasRoom(tasks: seq<Task>, first: nat)
    requires 0 < |tasks|
  {
    || tasks[first % |tasks|] == EMPTY
    || exists j: nat :: j < |tasks| && EmptyPair(tasks, j)
  }

  ghost predicate Distinct(tasks: seq<Task>) {
    forall i, j :: 0 <= i < j < |tasks| && tasks[i] == tasks[j] ==> tasks[i] == EMPTY
  }

  /** Every slot is probed within a lap. */
  lemma ProbeOf(n: nat, first: nat, x: nat) returns (m: nat)
    requires x < n
    ensures first <= m < first + n && m % n == x
  {
    var q, r := first / n, first % n;
    assert first == n * q + r;
    if r <= x {
      m := n * q + x;
      Slots.ModUnique(m, n, q, x);
    } else {
      m := n * (q + 1) + x;
      Slots.ModUnique(m, n, q + 1, x);
    }
  }

  lemma NextSlot(k: nat, n: nat)
    requires 0 < n
    ensures (k + 1) % n == (k % n + 1) % n
  {
    assert k + 1 == n * (k / n) + (k % n + 1);
    if k % n + 1 < n {
      Slots.ModUnique(k + 1, n, k / n, k % n + 1);
    } else {
      Slots.ModUnique(k + 1, n, k / n + 1, 0);
      Slots.ModUnique(n, n, 1, 0);
    }
  }

  /** On distinct tasks in two slots or more a hit is an empty slot, the first one probed or one right
      behind another slot found empty. */
  lemma HitMeans(tasks: seq<Task>, first: nat, m: nat)
    requires 2 <= |tasks| && Distinct(tasks)
    ensures Hit(tasks, first, m) <==>
            first <= m && tasks[m % |tasks|] == EMPTY && (m == first || tasks[(m - 1) % |tasks|] == EMPTY)
  {
    if first < m {
      Slots.WithinLap(m - 1, m, |tasks|);
    }
  }

  /** In a single slot the second probe finds, and so overwrites, whatever the first has found. */
  lemma HitSingle(tasks: seq<Task>, first: nat)
    requires |tasks| == 1
    ensures Hit(tasks, first, first) <==> tasks[0] == EMPTY
    ensures Hit(tasks, first, first + 1)
  {
    Slots.ModUnique(first, 1, first, 0);
    Slots.ModUnique(first + 1, 1, first + 1, 0);
  }

  lemma RoomHits(tasks: seq<Task>, first: nat) returns (m: nat)
    requires 0 < |tasks| && HasRoom(tasks, first)
    ensures Hit(tasks, first, m) && m < first + |tasks|
  {
    var n := |tasks|;
    if tasks[first % n] == EMPTY {
      m := first;
    } else {
      var j: nat :| j < n && EmptyPair(tasks, j);
      m := ProbeOf(n, first, (j + 1) % n);
      if m > first {
        HitBehind(tasks, first, j, m);
      }
    }
  }

  lemma HitBehind(tasks: seq<Task>, first: nat, j: nat, m: nat)
    requires j < |tasks| && EmptyPair(tasks, j) && first < m && m % |tasks| == (j + 1) % |tasks|
    ensures Hit(tasks, first, m)
  {
    SlotBefore(|tasks|, j, m);
  }

  lemma SlotBefore(n: nat, j: nat, m: nat)
    requires j < n && 0 < m && m % n == (j + 1) % n
    ensures (m - 1) % n == j
  {
    NextSlot(m - 1, n);
    SamePredecessor(n, j, (m - 1) % n);
  }

  /** An enqueue alone ever hits if and only if there is room, and then within one lap of probes. */
  lemma HitsIffRoom(tasks: seq<Task>, first: nat)
    requires 2 <= |tasks| && Distinct(tasks)
    ensures (exists m: nat :: Hit(tasks, first, m)) <==> HasRoom(tasks, first)
    ensures HasRoom(tasks, first) ==> exists m: nat :: Hit(tasks, first, m) && m < first + |tasks|
  {
    if HasRoom(tasks, first) {
      var m := RoomHits(tasks, first);
    }
    HitNeedsRoom(tasks, first);
  }

  lemma HitNeedsRoom(tasks: seq<Task>, first: nat)
    requires 2 <= |tasks| && Distinct(tasks)
    ensures forall m: nat :: Hit(tasks, first, m) ==> HasRoom(tasks, first)
  {
    forall m: nat | Hit(tasks, first, m) ensures HasRoom(tasks, first) {
      HitMeans(tasks, first, m);
      if m > first {
        NextSlot(m - 1, |tasks|);
        assert EmptyPair(tasks, (m - 1) % |tasks|);
      }
    }
  }

  lemma SamePredecessor(n: nat, i: nat, j: nat)
    requires i < n && j < n && (i + 1) % n == (j + 1) % n
    ensures i == j
  {
    if i < j {
      Slots.WithinLap(i + 1, j + 1, n);
    } else if j < i {
      Slots.WithinLap(j + 1, i + 1, n);
    }
  }

  // A dequeue alone.

  /** Probe number m of a dequeue finds a task. */
  predicate Filled(tasks: seq<Task>, m: nat)
    requires 0 < |tasks|
  {
    tasks[m % |tasks|].id != 0
  }

  ghost predicate NoneFilled(tasks: seq<Task>, first: nat, m: nat)
    requires 0 < |tasks|
  {
    forall k: nat :: first <= k < m ==> !Filled(tasks, k)
  }

  ghost predicate FilledWithin(tasks: seq<Task>, first: nat, turns: nat)
    requires 0 < |tasks|
  {
    exists m: nat :: Filled(tasks, m) && first <= m < first + turns
  }

  /** A slot is empty or holds a task, and what enqueues hand in are tasks. */
  ghost predicate Clean(s: Queue) {
    && (forall i :: 0 <= i < |s.tasks| ==> s.tasks[i] == EMPTY || s.tasks[i].id != 0)
    && (forall t :: t in s.pcs && InEnqueue(s.pcs[t]) ==> s.pcs[t].task.id != 0)
  }

  lemma CleanNext(s: Queue, a: Action)
    requires Counters(s) && Enabled(s, a) && Clean(s)
    ensures Clean(Next(s, a))
  {
  }

  /** A dequeue alone ever finds a task if and only if there is one, and then within one lap of probes. */
  lemma FindsIffAny(tasks: seq<Task>, first: nat)
    requires 0 < |tasks|
    ensures (exists m: nat :: first <= m && Filled(tasks, m)) <==> exists i :: 0 <= i < |tasks| && tasks[i].id != 0
    ensures FilledWithin(tasks, first, |tasks|) <==> exists i :: 0 <= i < |tasks| && tasks[i].id != 0
  {
    if i :| 0 <= i < |tasks| && tasks[i].id != 0 {
      var m := ProbeOf(|tasks|, first, i);
      assert Filled(tasks, m);
    }
  }

  class AtomicQueue {
    var tasks: array<Task>
    var rear: int
    var front: int
    var pcs: map<Tid, Pc>  // each thread's program point and locals
    ghost var queue: Queue

    ghost predicate Valid()
      reads this, tasks
    {
      && queue.tasks == tasks[..] && queue.rear == rear && queue.front == front && queue.pcs == pcs
      && Counters(queue) && Clean(queue)
    }

    /** create_queue_atomic, with the slots starting empty. */
    constructor (size: nat, threads: set<Tid>)
      requires 0 < size
      ensures Valid() && fresh(tasks) && Init(size, queue) && pcs.Keys == threads
    {
      tasks := new Task[size](_ => EMPTY);
      rear, front := -1, -1;
      pcs := map t | t in threads :: Idle;
      new;
      queue := Queue(tasks[..], -1, -1, pcs, [], []);
    }

    method Call(a: Action)
      requires Valid() && !a.Run? && Enabled(queue, a)
      modifies this
      ensures Valid() && tasks == old(tasks) && queue == Next(old(queue), a)
    {
      CleanNext(queue, a);
      queue := Next(queue, a);
      match a {
        case CallEnqueue(t, task) => pcs := pcs[t := EnqProbe(task, EMPTY, None)];
        case CallDequeue(t) => pcs := pcs[t := DeqProbe];
      }
    }

    /** enqueue_atomic: the add-and-fetch, or the compare-and-swap, whose failure overwrites `expected`. */
    method EnqueueStep(t: Tid)
      requires Valid() && t in pcs && InEnqueue(pcs[t])
      modifies this, tasks
      ensures Valid() && tasks == old(tasks) && queue == Next(old(queue), Run(t))
    {
      CleanNext(queue, Run(t));
      queue := Next(queue, Run(t));
      match pcs[t] {
        case EnqProbe(task, expected, last) =>
          rear := rear + 1;
          pcs := pcs[t := EnqCas(task, expected, last, rear)];
        case EnqCas(task, expected, _, k) =>
          var i := k % tasks.Length;
          if tasks[i] == expected {
            tasks[i] := task;
            pcs := pcs[t := Idle];
          } else {
            pcs := pcs[t := EnqProbe(task, tasks[i], Some(i))];
          }
      }
    }

    /** dequeue_atomic: the add-and-fetch, or the exchange, which gives the local `task`. */
    method DequeueStep(t: Tid) returns (task: Task)
      requires Valid() && t in pcs && (pcs[t].DeqProbe? || pcs[t].DeqSwap?)
      modifies this, tasks
      ensures Valid() && tasks == old(tasks) && queue == Next(old(queue), Run(t))
      ensures old(pcs[t]).DeqSwap? ==> task == old(tasks[..])[old(pcs[t]).k % old(tasks.Length)]
    {
      task := EMPTY;
      CleanNext(queue, Run(t));
      queue := Next(queue, Run(t));
      match pcs[t] {
        case DeqProbe =>
          front := front + 1;
          pcs := pcs[t := DeqSwap(front)];
        case DeqSwap(k) =>
          var i := k % tasks.Length;
          task := tasks[i];
          tasks[i] := EMPTY;
          pcs := pcs[t := if task.id == 0 then DeqProbe else Idle];
      }
    }

    /** Between two probes of an enqueue of `task` by t that meets nobody and has not hit yet. */
    ghost predicate Missed(t: Tid, task: Task, before: seq<Task>, first: nat)
      reads this, tasks
    {
      && Valid() && tasks[..] == before && t in pcs && pcs[t].EnqProbe? && pcs[t].task == task
      && first - 1 <= rear && NoHitBefore(before, first, rear + 1)
      && pcs[t].expected == if rear < first then EMPTY else before[rear % |before|]
    }

    /** The enqueue has put its task where it hit. */
    ghost predicate Placed(t: Tid, task: Task, before: seq<Task>, first: nat)
      reads this, tasks
    {
      && Valid() && t in pcs && pcs[t] == Idle && 0 < |before| && 0 <= rear
      && Hit(before, first, rear) && NoHitBefore(before, first, rear)
      && tasks[..] == before[rear % |before| := task]
    }

    /** One turn of the loop of enqueue_atomic. */
    method ProbeAlone(t: Tid, task: Task, ghost before: seq<Task>, ghost first: nat)
      requires Missed(t, task, before, first) && 0 < |before|
      modifies this, tasks
      ensures tasks == old(tasks) && front == old(front) && rear == old(rear) + 1
      ensures t in pcs && pcs == old(pcs)[t := pcs[t]]
      ensures if Hit(before, first, rear) then Placed(t, task, before, first) else Missed(t, task, before, first)
    {
      EnqueueStep(t);
      EnqueueStep(t);
    }

    /** The loop of enqueue_atomic with nobody else running, for at most `turns` turns: it stops at the
        first hit and changes that slot only; as long as nothing is hit it goes on and changes no slot. On
        distinct tasks in two slots or more it ends within one lap if there is room, and never if not. */
    method EnqueueAlone(t: Tid, task: Task, turns: nat) returns (done: bool)
      requires Valid() && Enabled(queue, CallEnqueue(t, task))
      modifies this, tasks
      ensures tasks == old(tasks) && front == old(front)
      ensures done <==> HitWithin(old(tasks[..]), old(rear) + 1, turns)
      ensures done ==>
        && Valid() && pcs == old(pcs) && old(rear) < rear <= old(rear) + turns
        && Hit(old(tasks[..]), old(rear) + 1, rear) && NoHitBefore(old(tasks[..]), old(rear) + 1, rear)
        && tasks[..] == old(tasks[..])[rear % tasks.Length := task]
      ensures !done ==> rear == old(rear) + turns && Missed(t, task, old(tasks[..]), old(rear) + 1)
      ensures 2 <= tasks.Length && Distinct(old(tasks[..])) && !HasRoom(old(tasks[..]), old(rear) + 1) ==> !done
      ensures HasRoom(old(tasks[..]), old(rear) + 1) && tasks.Length <= turns ==> done
    {
      ghost var before, first, pcs0 := tasks[..], rear + 1, pcs;
      Call(CallEnqueue(t, task));
      done := false;
      var k := 0;
      while k < turns && !done
        invariant k <= turns && tasks == old(tasks) && front == old(front) && rear == first - 1 + k
        invariant t in pcs && pcs == pcs0[t := pcs[t]] && (done ==> 0 < k)
        invariant if done then Placed(t, task, before, first) else Missed(t, task, before, first)
      {
        ProbeAlone(t, task, before, first);
        done := pcs[t] == Idle;
        k := k + 1;
      }
      if HasRoom(before, first) { ghost var m := RoomHits(before, first); }
      if 2 <= |before| && Distinct(before) { HitsIffRoom(before, first); }
      if done { assert pcs == pcs0; }
    }

    /** One turn of the loop of dequeue_atomic. */
    method TakeAlone(t: Tid) returns (task: Task)
      requires Valid() && t in pcs && pcs[t] == DeqProbe
      modifies this, tasks
      ensures Valid() && tasks == old(tasks) && rear == old(rear) && front == old(front) + 1
      ensures task == old(tasks[..])[front % tasks.Length] && tasks[..] == old(tasks[..])[front % tasks.Length := EMPTY]
      ensures pcs == old(pcs)[t := if task.id == 0 then DeqProbe else Idle]
    {
      task := DequeueStep(t);
      task := DequeueStep(t);
    }

    /** The loop of dequeue_atomic with nobody else running, for at most `turns` turns: it takes the first
        task at or after the next place of `front`, and changes that slot only; as long as it finds none it
        goes on and changes no slot. It ends within one lap if any slot holds a task, and never if none. */
    method DequeueAlone(t: Tid, turns: nat) returns (found: Option<Task>)
      requires Valid() && Enabled(queue, CallDequeue(t))
      modifies this, tasks
      ensures Valid() && tasks == old(tasks) && rear == old(rear)
      ensures found.Some? <==> FilledWithin(old(tasks[..]), old(front) + 1, turns)
      ensures found.Some? ==>
        && pcs == old(pcs) && old(front) < front <= old(front) + turns
        && Filled(old(tasks[..]), front) && NoneFilled(old(tasks[..]), old(front) + 1, front)
        && found.value == old(tasks[..])[front % tasks.Length]
        && tasks[..] == old(tasks[..])[front % tasks.Length := EMPTY]
      ensures found.None? ==>
        front == old(front) + turns && tasks[..] == old(tasks[..]) && pcs == old(pcs)[t := DeqProbe]
      ensures (forall i :: 0 <= i < tasks.Length ==> old(tasks[..])[i].id == 0) ==> found.None?
      ensures tasks.Length <= turns && (exists i :: 0 <= i < tasks.Length && old(tasks[..])[i].id != 0) ==> found.Some?
    {
      ghost var before, first, pcs0 := tasks[..], front + 1, pcs;
      Call(CallDequeue(t));
      found := None;
      var k := 0;
      while k < turns && found.None?
        invariant k <= turns && Valid() && tasks == old(tasks) && rear == old(rear) && front == first - 1 + k
        invariant t in pcs && pcs == pcs0[t := pcs[t]] && pcs[t] == if found.None? then DeqProbe else Idle
        invariant found.None? ==> tasks[..] == before && NoneFilled(before, first, first + k)
        invariant found.Some? ==>
          && 0 < k && Filled(before, front) && NoneFilled(before, first, front)
          && found.value == before[front % |before|] && tasks[..] == before[front % |before| := EMPTY]
      {
        var task := TakeAlone(t);
        if task.id != 0 {
          found := Some(task);
        }
        k := k + 1;
      }
      FindsIffAny(before, first);
      if found.Some? { assert pcs == pcs0; }
    }
  }
}
