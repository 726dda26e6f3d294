/** The atomic slot queue as a state machine. An enqueue probes slot after slot with a
    compare-and-swap; its expected value starts as the empty task, but a failed compare-and-swap
    overwrites it with the slot's content. A dequeue probes slot after slot with an exchange. */
module AtomicSlots {
  import opened AtomicFifo
  import Slots

  /** A task descriptor; the id 0 marks the empty one. */
  datatype Task = Task(id: int, body: int)

  const EMPTY := Task(0, 0)

  /** What a thread does next, with its locals. `last` records the slot of the last failed probe. */
  datatype Pc =
    | Idle
    | EnqProbe(task: Task, expected: Task, last: Option<nat>)
    | EnqCas(task: Task, expected: Task, last: Option<nat>, k: nat)
    | DeqProbe
    | DeqSwap(k: nat)

  /** The slots and counters, the threads, and history: the tasks that compare-and-swaps have placed
      and those that dequeues have returned, in order. */
  datatype Queue = Queue(tasks: seq<Task>, rear: int, front: int, pcs: map<Tid, Pc>,
                         placed: seq<Task>, taken: seq<Task>)

  datatype Action = CallEnqueue(t: Tid, task: Task) | CallDequeue(t: Tid) | Run(t: Tid)

  predicate Init(n: nat, s: Queue) {
    && 0 < n && s.tasks == seq(n, _ => EMPTY) && s.rear == -1 && s.front == -1
    && (forall t :: t in s.pcs ==> s.pcs[t] == Idle) && s.placed == [] && s.taken == []
  }

  predicate InEnqueue(pc: Pc) { pc.EnqProbe? || pc.EnqCas? }

  /** Tasks are not empty and distinct: none is handed in twice. */
  predicate Fresh(s: Queue, task: Task) {
    && task.id != 0 && task !in s.placed
    && forall t :: t in s.pcs && InEnqueue(s.pcs[t]) ==> s.pcs[t].task != task
  }

  predicate Enabled(s: Queue, a: Action) {
    && a.t in s.pcs && (s.pcs[a.t] == Idle <==> !a.Run?)
    && (a.CallEnqueue? ==> Fresh(s, a.task))
  }

  /** What the counters need: tickets are not negative and there is a slot. */
  predicate Counters(s: Queue) {
    |s.tasks| > 0 && s.rear >= -1 && s.front >= -1
  }

  function Next(s: Queue, a: Action): Queue
    requires Counters(s) && Enabled(s, a)
  {
    match a
    case CallEnqueue(t, task) => s.(pcs := s.pcs[t := EnqProbe(task, EMPTY, None)])
    case CallDequeue(t) => s.(pcs := s.pcs[t := DeqProbe])
    case Run(t) =>
      match s.pcs[t]
      case EnqProbe(task, e, last) => s.(rear := s.rear + 1, pcs := s.pcs[t := EnqCas(task, e, last, s.rear + 1)])
      case EnqCas(task, e, _, k) =>
        var i := k % |s.tasks|;
        if s.tasks[i] == e then s.(tasks := s.tasks[i := task], pcs := s.pcs[t := Idle], placed := s.placed + [task])
        else s.(pcs := s.pcs[t := EnqProbe(task, s.tasks[i], Some(i))])
      case DeqProbe => s.(front := s.front + 1, pcs := s.pcs[t := DeqSwap(s.front + 1)])
      case DeqSwap(k) =>
        var i := k % |s.tasks|;
        if s.tasks[i].id == 0 then s.(tasks := s.tasks[i := EMPTY], pcs := s.pcs[t := DeqProbe])
        else s.(tasks := s.tasks[i := EMPTY], pcs := s.pcs[t := Idle], taken := s.taken + [s.tasks[i]])
  }

  /** The tasks in the slots. */
  function Stored(tasks: seq<Task>): multiset<Task> {
    multiset(tasks)[EMPTY := 0]
  }

  /** Conservation: every placed task is either in exactly one slot or was returned by exactly one
      dequeue, and nothing else is in a slot or was returned. */
  ghost predicate Conserved(s: Queue) {
    && multiset(s.placed) == multiset(s.taken) + Stored(s.tasks)
    && forall x :: x in s.placed ==> multiset(s.taken)[x] + Stored(s.tasks)[x] == 1
  }

  /** The hypothesis of one producer: no enqueue is called while another is running. */
  predicate OneProducer(s: Queue, a: Action) {
    a.CallEnqueue? ==> forall t :: t in s.pcs ==> !InEnqueue(s.pcs[t])
  }

  /** What the running enqueue knows: its task is new; the expected value, if not the empty task, is
      in no slot but the one of the last failed probe, which is the slot just before the next one. */
  ghost predicate EnqueuerOk(s: Queue, pc: Pc)
    requires Counters(s)
  {
    InEnqueue(pc) ==>
      && pc.task.id != 0 && pc.task !in s.placed && pc.expected != pc.task
      && (pc.EnqCas? ==> pc.k == s.rear)
      && (pc.last.Some? ==>
            var before := if pc.EnqCas? then s.rear - 1 else s.rear;
            0 <= before && pc.last.value == before % |s.tasks|)
      && (pc.expected != EMPTY ==>
            pc.last.Some? && forall i :: 0 <= i < |s.tasks| && s.tasks[i] == pc.expected ==> i == pc.last.value)
  }

  ghost predicate Shape(s: Queue) {
    && Counters(s) && 2 <= |s.tasks|
    && (forall i :: 0 <= i < |s.tasks| ==> s.tasks[i] == EMPTY || (s.tasks[i].id != 0 && s.tasks[i] in s.placed))
    && (forall t :: t in s.pcs ==> EnqueuerOk(s, s.pcs[t]))
    && (forall t, u :: t in s.pcs && u in s.pcs && InEnqueue(s.pcs[t]) && InEnqueue(s.pcs[u]) ==> t == u)
    && (forall i, j :: 0 <= i < j < |s.tasks| && s.tasks[i] == s.tasks[j] ==> s.tasks[i] == EMPTY)
  }

  ghost predicate Inv(s: Queue) {
    Shape(s) && Conserved(s)
  }

  lemma InitInv(n: nat, s: Queue)
    requires Init(n, s) && 2 <= n
    ensures Inv(s)
  {
    AllEmpty(s.tasks);
  }

  lemma {:induction false} AllEmpty(tasks: seq<Task>)
    requires forall i :: 0 <= i < |tasks| ==> tasks[i] == EMPTY
    ensures Stored(tasks) == multiset{}
  {
    if tasks != [] {
      AllEmpty(tasks[1..]);
      assert tasks == [tasks[0]] + tasks[1..];
    }
  }

  lemma StoredUpdate(tasks: seq<Task>, i: nat, x: Task)
    requires i < |tasks|
    ensures x != EMPTY && tasks[i] == EMPTY ==> Stored(tasks[i := x]) == Stored(tasks) + multiset{x}
    ensures x == EMPTY && tasks[i] != EMPTY ==> Stored(tasks[i := x]) == Stored(tasks) - multiset{tasks[i]} && tasks[i] in Stored(tasks)
    ensures x == tasks[i] ==> tasks[i := x] == tasks
  {
    assert multiset(tasks[i := x]) == multiset(tasks) - multiset{tasks[i]} + multiset{x};
    assert tasks[i] in multiset(tasks);
  }

  /** A compare-and-swap succeeds only on an empty slot, although the expected value was overwritten. */
  lemma SwapsOnlyEmpty(s: Queue, t: Tid)
    requires Inv(s) && t in s.pcs && s.pcs[t].EnqCas?
    requires s.tasks[s.pcs[t].k % |s.tasks|] == s.pcs[t].expected
    ensures s.pcs[t].expected == EMPTY
  {
    assert EnqueuerOk(s, s.pcs[t]);
    if s.pcs[t].last.Some? {
      Slots.WithinLap(s.rear - 1, s.rear, |s.tasks|);
    }
  }

  lemma InvPlaces(s: Queue, t: Tid)
    requires Inv(s) && t in s.pcs && s.pcs[t].EnqCas?
    requires s.tasks[s.pcs[t].k % |s.tasks|] == s.pcs[t].expected
    ensures Inv(Next(s, Run(t)))
  {
    var s', i, x := Next(s, Run(t)), s.pcs[t].k % |s.tasks|, s.pcs[t].task;
    SwapsOnlyEmpty(s, t);
    assert EnqueuerOk(s, s.pcs[t]);
    StoredUpdate(s.tasks, i, x);
    assert multiset(s'.placed) == multiset(s.placed) + multiset{x};
    forall u | u in s'.pcs ensures EnqueuerOk(s', s'.pcs[u]) { assert u in s.pcs; }
    assert Conserved(s') by {
      forall y | y in s'.placed ensures multiset(s'.taken)[y] + Stored(s'.tasks)[y] == 1 {
        assert x !in multiset(s.placed);
        if y != x { assert y in s.placed; }
      }
    }
  }

  lemma TakeConserves(s: Queue, t: Tid)
    requires Inv(s) && t in s.pcs && s.pcs[t].DeqSwap?
    ensures Conserved(Next(s, Run(t)))
  {
    var s', i := Next(s, Run(t)), s.pcs[t].k % |s.tasks|;
    StoredUpdate(s.tasks, i, EMPTY);
    if s.tasks[i].id != 0 {
      assert multiset(s'.taken) == multiset(s.taken) + multiset{s.tasks[i]};
    }
  }

  lemma ShapeNext(s: Queue, a: Action)
    requires Shape(s) && Enabled(s, a) && OneProducer(s, a)
    requires !(a.Run? && s.pcs[a.t].EnqCas? && s.tasks[s.pcs[a.t].k % |s.tasks|] == s.pcs[a.t].expected)
    ensures Shape(Next(s, a))
  {
    var s' := Next(s, a);
    assert EnqueuerOk(s, s.pcs[a.t]);
    forall u | u in s'.pcs ensures EnqueuerOk(s', s'.pcs[u]) {
      assert u in s.pcs && EnqueuerOk(s, s.pcs[u]);
    }
  }

  /** Every step of the one producer and of any number of consumers keeps the invariant. */
  lemma InvNext(s: Queue, a: Action)
    requires Inv(s) && Enabled(s, a) && OneProducer(s, a)
    ensures Inv(Next(s, a))
  {
    if a.Run? && s.pcs[a.t].EnqCas? && s.tasks[s.pcs[a.t].k % |s.tasks|] == s.pcs[a.t].expected {
      InvPlaces(s, a.t);
    } else {
      ShapeNext(s, a);
      if a.Run? && s.pcs[a.t].DeqSwap? {
        TakeConserves(s, a.t);
      }
    }
  }

  predicate InDequeue(pc: Pc) { pc.DeqProbe? || pc.DeqSwap? }

  /** What the callers may observe: no two enqueues overlap; no two dequeues overlap; an enqueue is begun
      only with room for its task; a dequeue is begun only with a task stored. */
  datatype Guards = Guards(oneProducer: bool, oneConsumer: bool, room: bool, stored: bool)

  function Producers(one: bool): Guards { Guards(one, false, false, false) }

  predicate Permits(g: Guards, s: Queue, a: Action) {
    && (g.oneProducer ==> OneProducer(s, a))
    && (g.oneConsumer && a.CallDequeue? ==> forall t :: t in s.pcs ==> !InDequeue(s.pcs[t]))
    && (g.room && a.CallEnqueue? ==> |s.placed| < |s.taken| + |s.tasks|)
    && (g.stored && a.CallDequeue? ==> |s.taken| < |s.placed|)
  }

  /** Some run of callers that observe the guards leads from s0 to s. */
  ghost predicate RunTo(g: Guards, s0: Queue, s: Queue) {
    exists states: seq<Queue>, actions: seq<Action> ::
      IsQueueRun(g, states, actions) && states[0] == s0 && states[|actions|] == s
  }

  ghost predicate IsQueueRun(g: Guards, states: seq<Queue>, actions: seq<Action>) {
    && |states| == |actions| + 1
    && forall i :: 0 <= i < |actions| ==> Goes(g, states[i], actions[i], states[i + 1])
  }

  ghost predicate Goes(g: Guards, s: Queue, a: Action, s': Queue) {
    Counters(s) && Enabled(s, a) && Permits(g, s, a) && s' == Next(s, a)
  }

  lemma {:induction false} InvAlways(states: seq<Queue>, actions: seq<Action>, i: nat)
    requires IsQueueRun(Producers(true), states, actions) && Inv(states[0]) && i < |states|
    ensures Inv(states[i])
  {
    if i > 0 {
      InvAlways(states, actions, i - 1);
      assert Goes(Producers(true), states[i - 1], actions[i - 1], states[i]);
      InvNext(states[i - 1], actions[i - 1]);
    }
  }

  /** Conservation in every reachable state, across any number of wrap-arounds. */
  lemma ConservedAlways(n: nat, s0: Queue, s: Queue)
    requires Init(n, s0) && 2 <= n && RunTo(Producers(true), s0, s)
    ensures Conserved(s)
  {
    InitInv(n, s0);
    var states: seq<Queue>, actions: seq<Action> :|
      IsQueueRun(Producers(true), states, actions) && states[0] == s0 && states[|actions|] == s;
    InvAlways(states, actions, |actions|);
  }
}
