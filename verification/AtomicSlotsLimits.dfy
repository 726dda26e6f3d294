/** The exact conditions of the atomic slot queue: what is lost with one slot or with two producers,
    and that removal is not first in, first out. */
module AtomicSlotsLimits {
  import opened AtomicFifo
  import opened AtomicSlots
  import Slots

  lemma Extend(g: Guards, s0: Queue, s: Queue, a: Action)
    requires RunTo(g, s0, s) && Counters(s) && Enabled(s, a) && Permits(g, s, a)
    ensures RunTo(g, s0, Next(s, a))
  {
    var states: seq<Queue>, actions: seq<Action> :|
      IsQueueRun(g, states, actions) && states[0] == s0 && states[|actions|] == s;
    var states', actions' := states + [Next(s, a)], actions + [a];
    forall i | 0 <= i < |actions'| ensures Goes(g, states'[i], actions'[i], states'[i + 1]) {
      if i < |actions| {
        assert Goes(g, states[i], actions[i], states[i + 1]);
      }
    }
    assert IsQueueRun(g, states', actions') && states'[0] == s0 && states'[|actions'|] == Next(s, a);
  }

  lemma Advance(g: Guards, s0: Queue, s: Queue, a: Action) returns (s': Queue)
    requires RunTo(g, s0, s) && Counters(s) && Enabled(s, a) && Permits(g, s, a)
    ensures RunTo(g, s0, s') && s' == Next(s, a)
  {
    Extend(g, s0, s, a);
    s' := Next(s, a);
  }

  lemma Nothing(g: Guards, s0: Queue)
    ensures RunTo(g, s0, s0)
  {
    var none: seq<Action> := [];
    assert IsQueueRun(g, [s0], none) && [s0][|none|] == s0;
  }

  /** What the i-th enqueue hands in. */
  function T(i: int): Task { Task(i + 1, 0) }

  /** The queue after thread 0 has enqueued T(0) .. T(m - 1) with nobody else running. */
  ghost predicate Filled(n: nat, s: Queue, m: nat) {
    && m <= n && s.tasks == seq(n, i => if i < m then T(i) else EMPTY)
    && s.rear == m - 1 && s.front == -1
    && (forall t :: t in s.pcs ==> s.pcs[t] == Idle)
    && s.placed == seq(m, i => T(i)) && s.taken == []
  }

  /** A whole enqueue that finds the next slot empty. */
  lemma EnqueueOne(g: Guards, s0: Queue, s: Queue, t: Tid, x: Task) returns (s3: Queue)
    requires RunTo(g, s0, s) && Counters(s) && t in s.pcs && s.pcs[t] == Idle && Fresh(s, x) && Permits(g, s, CallEnqueue(t, x))
    requires s.tasks[(s.rear + 1) % |s.tasks|] == EMPTY
    ensures RunTo(g, s0, s3)
    ensures s3 == s.(rear := s.rear + 1, tasks := s.tasks[(s.rear + 1) % |s.tasks| := x], placed := s.placed + [x])
  {
    Extend(g, s0, s, CallEnqueue(t, x));
    var s1 := Next(s, CallEnqueue(t, x));
    Extend(g, s0, s1, Run(t));
    var s2 := Next(s1, Run(t));
    Extend(g, s0, s2, Run(t));
    s3 := Next(s2, Run(t));
    assert s3.pcs == s.pcs;
  }

  lemma FillOne(g: Guards, n: nat, s0: Queue, s: Queue, m: nat) returns (s3: Queue)
    requires RunTo(g, s0, s) && 0 in s.pcs && Filled(n, s, m) && m < n
    ensures RunTo(g, s0, s3) && s3.pcs.Keys == s.pcs.Keys && Filled(n, s3, m + 1)
  {
    Slots.ModUnique(m, n, 0, m);
    s3 := EnqueueOne(g, s0, s, 0, T(m));
  }

  lemma {:induction false} Fill(g: Guards, n: nat, s0: Queue, m: nat) returns (s: Queue)
    requires Init(n, s0) && 0 in s0.pcs && m <= n
    ensures RunTo(g, s0, s) && s.pcs.Keys == s0.pcs.Keys && Filled(n, s, m)
  {
    if m == 0 {
      Nothing(g, s0);
      s := s0;
    } else {
      s := Fill(g, n, s0, m - 1);
      s := FillOne(g, n, s0, s, m - 1);
    }
  }

  /** One slot: the second enqueue fails once, then takes the first task for its expected value and
      overwrites it. */
  lemma OneSlotLoses(one: bool, s0: Queue) returns (s: Queue)
    requires Init(1, s0) && 0 in s0.pcs
    ensures RunTo(Producers(one), s0, s) && !Conserved(s)
  {
    s := Fill(Producers(one), 1, s0, 1);
    Extend(Producers(one), s0, s, CallEnqueue(0, T(1)));
    s := Next(s, CallEnqueue(0, T(1)));
    Extend(Producers(one), s0, s, Run(0));
    s := Next(s, Run(0));
    Extend(Producers(one), s0, s, Run(0));
    s := Next(s, Run(0));
    assert s.pcs[0] == EnqProbe(T(1), T(0), Some(0)) && s.tasks == [T(0)] && s.placed == [T(0)];
    Extend(Producers(one), s0, s, Run(0));
    s := Next(s, Run(0));
    Extend(Producers(one), s0, s, Run(0));
    s := Next(s, Run(0));
    assert s.tasks == [T(1)] && s.placed == [T(0), T(1)];
    assert T(0) in s.placed && Stored(s.tasks)[T(0)] == 0;
  }

  /** All n slots are full, thread 0 has failed on slot 0, and thread 1 has failed on slots 1 .. j - 1. */
  ghost predicate Scanning(n: nat, s: Queue, j: nat) {
    && Counters(s) && 1 <= j <= n && s.tasks == seq(n, i => T(i)) && s.rear == n + j - 1
    && 0 in s.pcs && 1 in s.pcs && s.pcs[0] == EnqProbe(T(n), T(0), Some(0))
    && s.pcs[1].EnqProbe? && s.pcs[1].expected == (if j == 1 then EMPTY else T(j - 1))
    && s.placed == seq(n, i => T(i)) && s.taken == []
  }

  lemma StartScanning(n: nat, s0: Queue, s: Queue) returns (s': Queue)
    requires RunTo(Producers(false), s0, s) && 0 in s.pcs && 1 in s.pcs && 2 <= n && Filled(n, s, n)
    ensures RunTo(Producers(false), s0, s') && Scanning(n, s', 1)
  {
    Extend(Producers(false), s0, s, CallEnqueue(0, T(n)));
    var s1 := Next(s, CallEnqueue(0, T(n)));
    Extend(Producers(false), s0, s1, Run(0));
    var s2 := Next(s1, Run(0));
    Slots.ModUnique(n, n, 1, 0);
    Extend(Producers(false), s0, s2, Run(0));
    var s3 := Next(s2, Run(0));
    assert Fresh(s3, T(n + 1));
    Extend(Producers(false), s0, s3, CallEnqueue(1, T(n + 1)));
    s' := Next(s3, CallEnqueue(1, T(n + 1)));
  }

  lemma ScanOne(n: nat, s0: Queue, s: Queue, j: nat) returns (s': Queue)
    requires RunTo(Producers(false), s0, s) && Scanning(n, s, j) && j < n
    ensures RunTo(Producers(false), s0, s') && Scanning(n, s', j + 1)
  {
    Extend(Producers(false), s0, s, Run(1));
    var s1 := Next(s, Run(1));
    Slots.ModUnique(n + j, n, 1, j);
    Extend(Producers(false), s0, s1, Run(1));
    s' := Next(s1, Run(1));
    assert s'.tasks == s.tasks;
  }

  lemma {:induction false} Scan(n: nat, s0: Queue, s: Queue, j: nat) returns (s': Queue)
    requires RunTo(Producers(false), s0, s) && Scanning(n, s, j)
    ensures RunTo(Producers(false), s0, s') && Scanning(n, s', n)
    decreases n - j
  {
    if j == n {
      s' := s;
    } else {
      s' := ScanOne(n, s0, s, j);
      s' := Scan(n, s0, s', j + 1);
    }
  }

  /** Two producers: thread 1 wastes a lap of tickets, so thread 0 comes back to the slot it failed
      on, whose task it now expects, and overwrites it. */
  lemma TwoProducersLose(n: nat, s0: Queue) returns (s: Queue)
    requires Init(n, s0) && 2 <= n && 0 in s0.pcs && 1 in s0.pcs
    ensures RunTo(Producers(false), s0, s) && !Conserved(s)
  {
    s := Fill(Producers(false), n, s0, n);
    s := StartScanning(n, s0, s);
    s := Scan(n, s0, s, 1);
    Extend(Producers(false), s0, s, Run(0));
    s := Next(s, Run(0));
    Slots.ModUnique(2 * n, n, 2, 0);
    assert s.tasks[0] == T(0) && s.placed[0] == T(0);
    Extend(Producers(false), s0, s, Run(0));
    s := Next(s, Run(0));
    assert s.placed[0] == T(0) && T(0) !in s.tasks;
    assert multiset(s.tasks)[T(0)] == 0;
  }

  /** The exact condition: every run conserves the tasks if and only if enqueues do not overlap and
      there are at least two slots. */
  lemma ConservationIsExact(one: bool, n: nat, s0: Queue)
    requires Init(n, s0) && 0 in s0.pcs && 1 in s0.pcs
    ensures (forall s :: RunTo(Producers(one), s0, s) ==> Conserved(s)) <==> one && 2 <= n
  {
    if one && 2 <= n {
      forall s | RunTo(Producers(one), s0, s) ensures Conserved(s) {
        ConservedAlways(n, s0, s);
      }
    } else if n == 1 {
      var s := OneSlotLoses(one, s0);
    } else {
      var s := TwoProducersLose(n, s0);
    }
  }

  /** Not first in, first out: a dequeuer that probed slot 0 too early takes the second task first. */
  lemma Overtaken(n: nat, s0: Queue) returns (s: Queue)
    requires Init(n, s0) && 2 <= n && 0 in s0.pcs && 1 in s0.pcs
    ensures RunTo(Producers(true), s0, s) && s.placed == [T(0), T(1)] && s.taken == [T(1)]
  {
    Nothing(Producers(true), s0);
    Slots.ModUnique(0, n, 0, 0);
    Slots.ModUnique(1, n, 0, 1);
    Extend(Producers(true), s0, s0, CallDequeue(1));
    s := Next(s0, CallDequeue(1));
    Extend(Producers(true), s0, s, Run(1));
    s := Next(s, Run(1));
    Extend(Producers(true), s0, s, Run(1));
    s := Next(s, Run(1));
    assert s.tasks == s0.tasks;
    s := EnqueueOne(Producers(true), s0, s, 0, T(0));
    s := EnqueueOne(Producers(true), s0, s, 0, T(1));
    assert s.pcs[1] == DeqProbe && s.front == 0 && s.tasks[1] == T(1) && s.taken == [];
    Extend(Producers(true), s0, s, Run(1));
    s := Next(s, Run(1));
    Extend(Producers(true), s0, s, Run(1));
    s := Next(s, Run(1));
  }
}
