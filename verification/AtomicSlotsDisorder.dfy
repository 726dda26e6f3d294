/** Every guard is needed: without it some run of the atomic slot queue is not first in, first out and
    has no explanation, although all other guards are observed. */
module AtomicSlotsDisorder {
  import opened AtomicFifo
  import opened AtomicSlots
  import opened AtomicSlotsLimits
  import opened AtomicSlotsOrder
  import opened AtomicSlotsLinear
  import opened AtomicSlotsVisible
  import Slots

  /** A whole dequeue that finds a task at once. */
  lemma DequeueOne(g: Guards, s0: Queue, s: Queue, u: Tid) returns (s3: Queue)
    requires RunTo(g, s0, s) && Counters(s) && u in s.pcs && s.pcs[u] == Idle && Permits(g, s, CallDequeue(u))
    requires s.tasks[(s.front + 1) % |s.tasks|].id != 0
    ensures RunTo(g, s0, s3)
    ensures var i := (s.front + 1) % |s.tasks|;
      s3 == s.(front := s.front + 1, tasks := s.tasks[i := EMPTY], taken := s.taken + [s.tasks[i]])
  {
    var s1 := Advance(g, s0, s, CallDequeue(u));
    var s2 := Advance(g, s0, s1, Run(u));
    s3 := Advance(g, s0, s2, Run(u));
    assert s3.pcs == s.pcs;
  }

  /** Thread 0 holds ticket 0 for its task, nothing is placed. */
  ghost predicate Waiting(n: nat, s: Queue) {
    && Counters(s) && s.tasks == seq(n, _ => EMPTY) && s.rear == 0 && s.front == -1 && s.placed == [] && s.taken == []
    && 0 in s.pcs && 1 in s.pcs && s.pcs[0] == EnqCas(T(0), EMPTY, None, 0)
    && forall u :: u in s.pcs && u != 0 ==> s.pcs[u] == Idle
  }

  lemma Waits(g: Guards, n: nat, s0: Queue) returns (s: Queue)
    requires Init(n, s0) && 0 in s0.pcs && 1 in s0.pcs
    ensures RunTo(g, s0, s) && Waiting(n, s)
  {
    Nothing(g, s0);
    s := Advance(g, s0, s0, CallEnqueue(0, T(0)));
    s := Advance(g, s0, s, Run(0));
  }

  /** And thread 1 has enqueued T(1) .. T(m - 1). */
  ghost predicate Behind(n: nat, s: Queue, m: nat) {
    && 1 <= m <= n && Counters(s) && s.tasks == seq(n, i => if 1 <= i < m then T(i) else EMPTY) && s.rear == m - 1 && s.front == -1
    && s.placed == seq(m - 1, i => T(i + 1)) && s.taken == []
    && 0 in s.pcs && 1 in s.pcs && s.pcs[0] == EnqCas(T(0), EMPTY, None, 0)
    && forall u :: u in s.pcs && u != 0 ==> s.pcs[u] == Idle
  }

  lemma {:induction false} FillBehind(g: Guards, n: nat, s0: Queue, s: Queue, m: nat) returns (r: Queue)
    requires !g.oneProducer && RunTo(g, s0, s) && Behind(n, s, m)
    ensures RunTo(g, s0, r) && Behind(n, r, n)
    decreases n - m
  {
    if m == n {
      r := s;
    } else {
      Slots.ModUnique(m, n, 0, m);
      r := EnqueueOne(g, s0, s, 1, T(m));
      r := FillBehind(g, n, s0, r, m + 1);
    }
  }

  /** Overlapping enqueues: thread 0 holds ticket 0, so T(n) lands in front of T(1), although it is handed
      in long after T(1) was placed. */
  lemma ProducersOverlap(g: Guards, n: nat, s0: Queue) returns (s: Queue)
    requires !g.oneProducer && Init(n, s0) && 2 <= n && 0 in s0.pcs && 1 in s0.pcs
    ensures Inverted(g, s0, s, T(1), T(n)) && forall t :: t in s.pcs ==> !InDequeue(s.pcs[t])
  {
    var r := Waits(g, n, s0);
    r := FillBehind(g, n, s0, r, 1);
    assert r.placed[0] == T(1);
    assert forall t :: Placing(r, t) ==> t == 0;
    Nothing(g, r);
    Slots.ModUnique(n, n, 1, 0);
    s := EnqueueOne(g, r, r, 1, T(n));
    s := TakesFrom0(g, n, r, s);
  }

  lemma TakesFrom0(g: Guards, n: nat, s0: Queue, s: Queue) returns (r: Queue)
    requires RunTo(g, s0, s) && Counters(s) && |s.tasks| == n && s.tasks[0].id != 0 && s.front == -1
    requires |s.taken| < |s.placed| && s.taken == [] && 1 in s.pcs && s.pcs[1] == Idle && forall u :: u in s.pcs ==> !InDequeue(s.pcs[u])
    ensures RunTo(g, s0, r) && r.pcs == s.pcs && r.placed == s.placed && r.taken == [s.tasks[0]]
  {
    Slots.ModUnique(0, n, 0, 0);
    r := DequeueOne(g, s0, s, 1);
  }

  /** With one slot the tasks of overlapping enqueues may be taken in another order than they were
      placed in, but no observer can tell. */
  lemma ProducersOverlapSingle(g: Guards, s0: Queue) returns (s: Queue)
    requires !g.oneProducer && Init(1, s0) && 0 in s0.pcs && 1 in s0.pcs
    ensures RunTo(g, s0, s) && !FirstOut(s)
  {
    s := Waits(g, 1, s0);
    s := EnqueueOne(g, s0, s, 1, T(1));
    s := Advance(g, s0, s, Run(0));
    assert s.pcs[0] == EnqProbe(T(0), T(1), Some(0));
    s := Advance(g, s0, s, Run(0));
    s := Advance(g, s0, s, Run(0));
    assert s.tasks == [T(0)] && s.placed == [T(1), T(0)];
    s := TakesFrom0(g, 1, s0, s);
  }

  /** One turn of an enqueue's loop that does not find what it expects. */
  lemma ProbeFails(g: Guards, s0: Queue, s: Queue, t: Tid) returns (r: Queue)
    requires RunTo(g, s0, s) && Counters(s) && t in s.pcs && s.pcs[t].EnqProbe?
    requires s.tasks[(s.rear + 1) % |s.tasks|] != s.pcs[t].expected
    ensures RunTo(g, s0, r)
    ensures var i := (s.rear + 1) % |s.tasks|;
      r == s.(rear := s.rear + 1, pcs := s.pcs[t := EnqProbe(s.pcs[t].task, s.tasks[i], Some(i))])
  {
    var s1 := Advance(g, s0, s, Run(t));
    r := Advance(g, s0, s1, Run(t));
    assert r.pcs == s.pcs[t := r.pcs[t]];
  }

  /** One turn that does. */
  lemma ProbePlaces(g: Guards, s0: Queue, s: Queue, t: Tid) returns (r: Queue)
    requires RunTo(g, s0, s) && Counters(s) && t in s.pcs && s.pcs[t].EnqProbe?
    requires s.tasks[(s.rear + 1) % |s.tasks|] == s.pcs[t].expected
    ensures RunTo(g, s0, r)
    ensures var i, x := (s.rear + 1) % |s.tasks|, s.pcs[t].task;
      r == s.(rear := s.rear + 1, tasks := s.tasks[i := x], pcs := s.pcs[t := Idle], placed := s.placed + [x])
  {
    var s1 := Advance(g, s0, s, Run(t));
    r := Advance(g, s0, s1, Run(t));
    assert r.pcs == s.pcs[t := Idle];
  }

  /** Thread 0's dequeue holds ticket 0, thread 1 has taken T(1) and probes the slots before m. */
  ghost predicate Around(n: nat, s: Queue, m: nat) {
    && 2 <= m <= n && Counters(s) && s.tasks == seq(n, i => if i == 0 then T(0) else EMPTY) && s.rear == 1 && s.front == m - 1
    && s.placed == [T(0), T(1)] && s.taken == [T(1)]
    && 0 in s.pcs && 1 in s.pcs && s.pcs[0] == DeqSwap(0) && s.pcs[1] == DeqProbe
  }

  lemma {:induction false} GoAround(g: Guards, n: nat, s0: Queue, s: Queue, m: nat) returns (r: Queue)
    requires Held(g, s0, s, 0, T(0)) && Around(n, s, m)
    ensures Held(g, s0, r, 0, T(0)) && Around(n, r, n)
    decreases n - m
  {
    if m == n {
      r := s;
    } else {
      Slots.ModUnique(m, n, 0, m);
      r := HeldStep(g, s0, s, Run(1), 0, T(0));
      r := HeldStep(g, s0, r, Run(1), 0, T(0));
      assert r.tasks == s.tasks;
      r := GoAround(g, n, s0, r, m + 1);
    }
  }

  lemma TakesToo(g: Guards, n: nat, s0: Queue, s: Queue) returns (r: Queue)
    requires Held(g, s0, s, 0, T(0)) && Around(n, s, n)
    ensures Held(g, s0, r, 0, T(0)) && r.taken == [T(1), T(0)]
  {
    Slots.ModUnique(n, n, 1, 0);
    r := HeldStep(g, s0, s, Run(1), 0, T(0));
    assert r.pcs[1] == DeqSwap(n) && r.tasks[0] == T(0);
    r := HeldStep(g, s0, r, Run(1), 0, T(0));
  }

  /** Overlapping dequeues: thread 0 holds ticket 0, and thread 1 takes T(1), which came second. */
  lemma ConsumersOverlap(g: Guards, n: nat, s0: Queue) returns (s: Queue)
    requires !g.oneConsumer && Init(n, s0) && 2 <= n && 0 in s0.pcs && 1 in s0.pcs
    ensures Inverted(g, s0, s, T(0), T(1)) && s.front == 1 && s.rear == 1 && s.placed == [T(0), T(1)] && s.taken == [T(1)]
    ensures Counters(s) && s.tasks == seq(n, i => if i == 0 then T(0) else EMPTY) && s.pcs == s0.pcs[0 := DeqSwap(0)]
  {
    var r := Fill(g, n, s0, 1);
    Nothing(g, r);
    assert r.placed == [T(0)] && !Called(r, T(1));
    s := FillOne(g, n, r, r, 1);
    Slots.ModUnique(1, n, 0, 1);
    s := Advance(g, r, s, CallDequeue(0));
    s := Advance(g, r, s, Run(0));
    s := DequeueOne(g, r, s, 1);
  }

  /** Then thread 1 goes round and takes T(0) too, while thread 0 still waits. */
  lemma ConsumersOverlapFails(g: Guards, n: nat, s0: Queue)
    requires !g.oneConsumer && Init(n, s0) && 2 <= n && 0 in s0.pcs && 1 in s0.pcs
    ensures Fails(g, s0)
  {
    var s := ConsumersOverlap(g, n, s0);
    InvertedHolds(g, n, s0, s, T(0), T(1), 0);
    s := HeldStep(g, s0, s, CallDequeue(1), 0, T(0));
    s := GoAround(g, n, s0, s, 2);
    s := TakesToo(g, n, s0, s);
    HeldFails(g, n, s0, s, 0, T(0));
  }

  /** A dequeue begun on an empty queue has probed slot 0. */
  ghost predicate Early(n: nat, s: Queue) {
    && Counters(s) && s.tasks == seq(n, _ => EMPTY) && s.rear == -1 && s.front == 0 && s.placed == [] && s.taken == []
    && 0 in s.pcs && 1 in s.pcs && s.pcs[1] == DeqProbe && forall u :: u in s.pcs && u != 1 ==> s.pcs[u] == Idle
  }

  lemma ProbeEarly(g: Guards, n: nat, s0: Queue) returns (s: Queue)
    requires !g.stored && Init(n, s0) && 2 <= n && 0 in s0.pcs && 1 in s0.pcs
    ensures RunTo(g, s0, s) && Early(n, s)
  {
    Nothing(g, s0);
    Slots.ModUnique(0, n, 0, 0);
    s := Advance(g, s0, s0, CallDequeue(1));
    s := Advance(g, s0, s, Run(1));
    s := Advance(g, s0, s, Run(1));
    assert s.tasks == s0.tasks;
  }

  /** A dequeue begun on an empty queue misses the first task and finds the second. */
  lemma BegunTooEarly(g: Guards, n: nat, s0: Queue) returns (s: Queue)
    requires !g.stored && Init(n, s0) && 2 <= n && 0 in s0.pcs && 1 in s0.pcs
    ensures Inverted(g, s0, s, T(0), T(1)) && forall t :: t in s.pcs ==> s.pcs[t] == Idle
  {
    s := ProbeEarly(g, n, s0);
    Slots.ModUnique(0, n, 0, 0);
    Slots.ModUnique(1, n, 0, 1);
    var r := EnqueueOne(g, s0, s, 0, T(0));
    assert r.tasks[1] == EMPTY && r.rear == 0;
    Nothing(g, r);
    s := EnqueueOne(g, r, r, 0, T(1));
    s := Advance(g, r, s, Run(1));
    s := Advance(g, r, s, Run(1));
  }

  // An enqueue begun on a full queue.

  /** Thread 0's enqueue of T(n) has failed on j slots of a full queue. */
  ghost predicate Failing(n: nat, s: Queue, j: nat) {
    && 2 <= n && Counters(s) && s.tasks == seq(n, i => T(i)) && s.rear == n - 1 + j && s.front == -1
    && s.placed == seq(n, i => T(i)) && s.taken == []
    && 0 in s.pcs && 1 in s.pcs && (forall u :: u in s.pcs && u != 0 ==> s.pcs[u] == Idle)
    && s.pcs[0].EnqProbe? && s.pcs[0].task == T(n) && s.pcs[0].expected == if j == 0 then EMPTY else T((j - 1) % n)
  }

  lemma FailOnce(g: Guards, n: nat, s0: Queue, s: Queue, j: nat) returns (r: Queue)
    requires RunTo(g, s0, s) && Failing(n, s, j)
    ensures RunTo(g, s0, r) && Failing(n, r, j + 1)
  {
    Slots.NextLap(j, n);
    if j > 0 { Slots.WithinLap(j - 1, j, n); }
    r := ProbeFails(g, s0, s, 0);
  }

  lemma {:induction false} FailTimes(g: Guards, n: nat, s0: Queue, s: Queue, j: nat, m: nat) returns (r: Queue)
    requires RunTo(g, s0, s) && Failing(n, s, j) && j <= m
    ensures RunTo(g, s0, r) && Failing(n, r, m)
    decreases m - j
  {
    if j == m {
      r := s;
    } else {
      r := FailOnce(g, n, s0, s, j);
      r := FailTimes(g, n, s0, r, j + 1, m);
    }
  }

  /** Then thread 1 has taken the first c tasks. */
  ghost predicate Draining(n: nat, s: Queue, c: nat) {
    && 2 <= n && c <= n && Counters(s) && s.tasks == seq(n, i => if i < c then EMPTY else T(i)) && s.rear == 3 * n - 3 && s.front == c - 1
    && s.placed == seq(n, i => T(i)) && s.taken == seq(c, i => T(i))
    && 0 in s.pcs && 1 in s.pcs && (forall u :: u in s.pcs && u != 0 ==> s.pcs[u] == Idle)
    && s.pcs[0].EnqProbe? && s.pcs[0].task == T(n) && s.pcs[0].expected == T((2 * n - 3) % n)
  }

  lemma {:induction false} Drain(g: Guards, n: nat, s0: Queue, s: Queue, c: nat) returns (r: Queue)
    requires RunTo(g, s0, s) && Draining(n, s, c)
    ensures RunTo(g, s0, r) && Draining(n, r, n)
    decreases n - c
  {
    if c == n {
      r := s;
    } else {
      Slots.ModUnique(c, n, 0, c);
      r := DequeueOne(g, s0, s, 1);
      r := Drain(g, n, s0, r, c + 1);
    }
  }

  /** The enqueue, still running, leaves out slot n - 2 because of what it expects, and takes slot n - 1. */
  lemma LandsLast(g: Guards, n: nat, s0: Queue, s: Queue) returns (r: Queue)
    requires RunTo(g, s0, s) && Draining(n, s, n)
    ensures RunTo(g, s0, r) && Counters(r) && r.tasks == seq(n, _ => EMPTY)[n - 1 := T(n)] && r.rear == 3 * n - 1 && r.front == n - 1
    ensures r.placed == s.placed + [T(n)] && r.taken == s.taken && r.pcs == s.pcs[0 := Idle]
  {
    Slots.ModUnique(3 * n - 2, n, 2, n - 2);
    Slots.ModUnique(3 * n - 1, n, 2, n - 1);
    r := ProbeFails(g, s0, s, 0);
    r := ProbePlaces(g, s0, r, 0);
    assert r.pcs == s.pcs[0 := Idle];
  }

  /** An enqueue begun on a full queue, and still running when it is empty again, lands behind a slot where
      the next task is put. */
  lemma BegunOnFull(g: Guards, n: nat, s0: Queue) returns (s: Queue)
    requires !g.room && Init(n, s0) && 2 <= n && 0 in s0.pcs && 1 in s0.pcs
    ensures Inverted(g, s0, s, T(n), T(n + 1)) && forall t :: t in s.pcs ==> s.pcs[t] == Idle
  {
    var r := Fill(g, n, s0, n);
    r := Advance(g, s0, r, CallEnqueue(0, T(n)));
    r := FailTimes(g, n, s0, r, 0, 2 * n - 2);
    r := Drain(g, n, s0, r, 0);
    r := LandsLast(g, n, s0, r);
    Nothing(g, r);
    s := TakesLater(g, n, r, r);
    assert T(n) in r.placed && !Called(r, T(n + 1));
  }

  /** The next task goes to slot 0, where the consumer looks first. */
  lemma TakesLater(g: Guards, n: nat, s0: Queue, s: Queue) returns (r: Queue)
    requires RunTo(g, s0, s) && !g.room && 2 <= n && Counters(s) && s.tasks == seq(n, _ => EMPTY)[n - 1 := T(n)]
    requires s.rear == 3 * n - 1 && s.front == n - 1 && s.placed == seq(n, i => T(i)) + [T(n)] && s.taken == seq(n, i => T(i))
    requires 0 in s.pcs && 1 in s.pcs && forall u :: u in s.pcs ==> s.pcs[u] == Idle
    ensures RunTo(g, s0, r) && r.taken == s.taken + [T(n + 1)] && r.pcs == s.pcs
  {
    Slots.ModUnique(3 * n, n, 3, 0);
    Slots.ModUnique(n, n, 1, 0);
    r := EnqueueOne(g, s0, s, 0, T(n + 1));
    r := DequeueOne(g, s0, r, 1);
  }

  /** With a single slot it overwrites the task there. */
  lemma BegunOnFullSingle(g: Guards, s0: Queue) returns (s: Queue)
    requires !g.room && Init(1, s0) && 0 in s0.pcs && 1 in s0.pcs
    ensures Inverted(g, s0, s, T(0), T(1)) && forall t :: t in s.pcs ==> s.pcs[t] == Idle
  {
    var r := Fill(g, 1, s0, 1);
    Nothing(g, r);
    assert r.placed == [T(0)] && !Called(r, T(1));
    s := Advance(g, r, r, CallEnqueue(0, T(1)));
    s := Advance(g, r, s, Run(0));
    s := Advance(g, r, s, Run(0));
    assert s.pcs[0] == EnqProbe(T(1), T(0), Some(0)) && s.tasks == [T(0)];
    s := Advance(g, r, s, Run(0));
    s := Advance(g, r, s, Run(0));
    assert s.tasks == [T(1)] && s.placed == [T(0), T(1)];
    s := DequeueOne(g, r, s, 1);
  }

  /** The exact condition for first in, first out by calls and returns: every run is linearizable if and
      only if enqueues are begun only with room and, with more than one slot, neither enqueues nor
      dequeues overlap and dequeues are begun only with a task stored. */
  lemma LinearizableIsExact(g: Guards, n: nat, s0: Queue)
    requires Init(n, s0) && 0 in s0.pcs && 1 in s0.pcs
    ensures (forall states: seq<Queue>, actions: seq<Action> ::
               IsQueueRun(g, states, actions) && states[0] == s0 ==> Explained(Labels(g, states, actions)))
            <==> Sufficient(g, n)
  {
    if Sufficient(g, n) {
      forall states: seq<Queue>, actions: seq<Action> | IsQueueRun(g, states, actions) && states[0] == s0
        ensures Explained(Labels(g, states, actions))
      {
        Linearizable(g, n, states, actions);
      }
    } else {
      SomeRunFails(g, n, s0);
    }
  }

  lemma SomeRunFails(g: Guards, n: nat, s0: Queue)
    requires Init(n, s0) && 0 in s0.pcs && 1 in s0.pcs && !(Sufficient(g, n))
    ensures Fails(g, s0)
  {
    if g.room && g.oneProducer && !g.oneConsumer {
      ConsumersOverlapFails(g, n, s0);
    } else {
      var s, x, y := SomeInversion(g, n, s0);
      InvertedFails(g, n, s0, s, x, y);
    }
  }

  lemma SomeInversion(g: Guards, n: nat, s0: Queue) returns (s: Queue, x: Task, y: Task)
    requires Init(n, s0) && 0 in s0.pcs && 1 in s0.pcs && !(Sufficient(g, n))
    ensures Inverted(g, s0, s, x, y)
    ensures !(g.room && g.oneProducer && !g.oneConsumer) ==> forall t :: t in s.pcs ==> !InDequeue(s.pcs[t])
  {
    if !g.room && n == 1 {
      s := BegunOnFullSingle(g, s0);
      x, y := T(0), T(1);
    } else if !g.room {
      s := BegunOnFull(g, n, s0);
      x, y := T(n), T(n + 1);
    } else if !g.oneProducer {
      s := ProducersOverlap(g, n, s0);
      x, y := T(1), T(n);
    } else if !g.oneConsumer {
      s := ConsumersOverlap(g, n, s0);
      x, y := T(0), T(1);
    } else {
      s := BegunTooEarly(g, n, s0);
      x, y := T(0), T(1);
    }
  }

  /** The exact condition for the order of placement, by compare-and-swaps and exchanges: it asks for one
      producer also with a single slot. */
  lemma OrderIsExact(g: Guards, n: nat, s0: Queue)
    requires Init(n, s0) && 0 in s0.pcs && 1 in s0.pcs
    ensures (forall s :: RunTo(g, s0, s) ==> FirstOut(s)) <==> Enough(g, n)
  {
    if Enough(g, n) {
      forall s | RunTo(g, s0, s) ensures FirstOut(s) { FirstOutAlways(g, n, s0, s); }
    } else if g.room && n == 1 {
      var s := ProducersOverlapSingle(g, s0);
    } else {
      var s, x, y := SomeInversion(g, n, s0);
      InvertedNotFirstOut(g, s0, s, x, y);
    }
  }
}
