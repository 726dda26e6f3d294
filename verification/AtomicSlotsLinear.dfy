/** When the atomic slot queue is linearizable: the runs that the atomic queue explains. */
module AtomicSlotsLinear {
  import opened AtomicFifo
  import opened AtomicSlots
  import opened AtomicSlotsOrder

  /** What an observer sees: an enqueue returns with its successful compare-and-swap, a dequeue with the
      exchange that finds a task. */
  function LabelOf(s: Queue, a: Action): Label<Task>
    requires Counters(s) && Enabled(s, a)
  {
    match a
    case CallEnqueue(t, x) => CallEnq(t, x)
    case CallDequeue(t) => CallDeq(t)
    case Run(t) =>
      match s.pcs[t]
      case EnqCas(_, e, _, k) => if s.tasks[k % |s.tasks|] == e then RetEnq(t) else Tau
      case DeqSwap(k) => if s.tasks[k % |s.tasks|].id != 0 then RetDeq(t, Some(s.tasks[k % |s.tasks|])) else Tau
      case _ => Tau
  }

  /** The calls and returns of a run. */
  ghost function Labels(g: Guards, states: seq<Queue>, actions: seq<Action>): (ls: seq<Label<Task>>)
    requires IsQueueRun(g, states, actions)
    ensures |ls| == |actions|
    ensures forall i :: 0 <= i < |ls| ==> Goes(g, states[i], actions[i], states[i + 1]) && ls[i] == LabelOf(states[i], actions[i])
  {
    seq(|actions|, i requires 0 <= i < |actions| => (assert Goes(g, states[i], actions[i], states[i + 1]); LabelOf(states[i], actions[i])))
  }

  function CallFor(pc: Pc): Call<Task> {
    match pc
    case Idle => Quiet
    case EnqProbe(x, _, _) => Enqueuing(x)
    case EnqCas(x, _, _, _) => Enqueuing(x)
    case DeqProbe => Dequeuing
    case DeqSwap(_) => Dequeuing
  }

  function Calls(s: Queue): map<Tid, Call<Task>> { map t | t in s.pcs :: CallFor(s.pcs[t]) }

  // Runs that take the tasks in the order in which they were placed.

  function Abs(s: Queue): Fifo<Task>
    requires FirstOut(s)
  {
    Fifo(s.placed[|s.taken|..], s.placed, s.taken, Calls(s))
  }

  /** An effect and its return. */
  lemma Single(f: Fifo<Task>, t: Tid, l: Label<Task>, b: Fifo<Task>)
    requires Pending(f, t) && Visible(Effect(f, t), l, b)
    ensures Moves(f, [t], l, b)
  {
    assert Moves(Effect(f, t), [], l, b);
  }

  /** A compare-and-swap of thread t that places its task. */
  predicate Places(s: Queue, t: Tid, s': Queue) {
    && t in s.pcs && InEnqueue(s.pcs[t]) && s'.pcs == s.pcs[t := Idle]
    && s'.placed == s.placed + [s.pcs[t].task] && s'.taken == s.taken
  }

  /** An exchange of thread t that finds the task x. */
  predicate Takes(s: Queue, t: Tid, x: Task, s': Queue) {
    && t in s.pcs && InDequeue(s.pcs[t]) && s'.pcs == s.pcs[t := Idle]
    && s'.placed == s.placed && s'.taken == s.taken + [x]
  }

  /** Any other access. */
  predicate Probes(s: Queue, t: Tid, s': Queue) {
    Calls(s') == Calls(s) && s'.placed == s.placed && s'.taken == s.taken && s'.pcs.Keys == s.pcs.Keys
    && forall u :: u in s.pcs && InEnqueue(s.pcs[u]) ==> InEnqueue(s'.pcs[u]) && s'.pcs[u].task == s.pcs[u].task
  }

  lemma Cases(s: Queue, a: Action)
    requires Counters(s) && Enabled(s, a)
    ensures var s', l := Next(s, a), LabelOf(s, a);
      match l
      case RetEnq(t) => t == a.t && Places(s, t, s')
      case RetDeq(t, r) => t == a.t && r.Some? && Takes(s, t, r.value, s')
      case Tau => Probes(s, a.t, s')
      case _ => true
  {
  }

  lemma FirstOutPlaces(s: Queue, t: Tid, s': Queue)
    requires FirstOut(s) && FirstOut(s') && Places(s, t, s')
    ensures Step(Abs(s), RetEnq(t), Abs(s'))
  {
    var f, f' := Abs(s), Abs(s');
    assert f'.q == f.q + [s.pcs[t].task];
    assert f'.calls == Effect(f, t).calls[t := Quiet];
    Single(f, t, RetEnq(t), f');
  }

  lemma FirstOutTakes(s: Queue, t: Tid, x: Task, s': Queue)
    requires FirstOut(s) && FirstOut(s') && Takes(s, t, x, s')
    ensures Step(Abs(s), RetDeq(t, Some(x)), Abs(s'))
  {
    var f, f' := Abs(s), Abs(s');
    assert s'.placed[|s.taken|] == s'.taken[|s.taken|] == x;
    assert f'.q == f.q[1..] && f.q[0] == x;
    assert f'.calls == Effect(f, t).calls[t := Quiet];
    Single(f, t, RetDeq(t, Some(x)), f');
  }

  /** A step that keeps the order is a step of the atomic queue: its effect is the compare-and-swap or the
      exchange. */
  lemma FirstOutStep(s: Queue, a: Action)
    requires Counters(s) && Enabled(s, a) && FirstOut(s) && FirstOut(Next(s, a))
    ensures Step(Abs(s), LabelOf(s, a), Abs(Next(s, a)))
  {
    var s', l := Next(s, a), LabelOf(s, a);
    Cases(s, a);
    if l.RetEnq? {
      FirstOutPlaces(s, a.t, s');
    } else if l.RetDeq? {
      FirstOutTakes(s, a.t, l.result.value, s');
    } else {
      assert !a.Run? ==> Abs(s').calls == Abs(s).calls[a.t := CallFor(s'.pcs[a.t])];
      assert Moves(Abs(s), [], l, Abs(s'));
    }
  }

  lemma FirstOutIsLinear(g: Guards, n: nat, states: seq<Queue>, actions: seq<Action>)
    requires IsQueueRun(g, states, actions) && Init(n, states[0]) && forall i :: 0 <= i < |states| ==> FirstOut(states[i])
    ensures Explained(Labels(g, states, actions))
  {
    var ls := Labels(g, states, actions);
    var fs := seq(|states|, i requires 0 <= i < |states| => Abs(states[i]));
    forall i | 0 <= i < |ls| ensures Step(fs[i], ls[i], fs[i + 1]) {
      assert Goes(g, states[i], actions[i], states[i + 1]);
      FirstOutStep(states[i], actions[i]);
    }
    assert IsRun(fs, ls);
  }

  // A single slot needs room for each task and nothing else. A task that is overwritten is never
  // delivered; it was placed while the enqueues that overtake it were running. In the explanation those
  // enqueues take effect just before it, so what will be delivered decides the order: `fin` is what has
  // been delivered at the end of the run.

  function Content(s: Queue): seq<Task> { if s.tasks == [EMPTY] then [] else s.tasks }

  /** The task of a running enqueue is new. */
  predicate Placing(s: Queue, t: Tid) { t in s.pcs && InEnqueue(s.pcs[t]) }

  ghost predicate NewTasks(s: Queue) {
    && (forall t :: Placing(s, t) ==> s.pcs[t].task.id != 0 && s.pcs[t].task !in s.placed)
    && (forall t, u :: Placing(s, t) && Placing(s, u) && s.pcs[t].task == s.pcs[u].task ==> t == u)
  }

  predicate Distinct<T(==)>(xs: seq<T>) { forall i, j :: 0 <= i < j < |xs| ==> xs[i] != xs[j] }

  ghost predicate OneSlot(s: Queue) {
    && Counters(s) && |s.tasks| == 1 && NewTasks(s) && Distinct(s.placed) && Distinct(s.taken)
    && (forall x :: x in s.placed ==> x.id != 0)
    && (forall x :: x in s.taken ==> x in s.placed)
    && (s.tasks[0] == EMPTY || (s.tasks[0] in s.placed && s.tasks[0] !in s.taken))
  }

  lemma NewTasksNext(s: Queue, a: Action)
    requires NewTasks(s) && Counters(s) && Enabled(s, a)
    ensures NewTasks(Next(s, a))
  {
    var s' := Next(s, a);
    forall t | Placing(s', t) ensures s'.pcs[t].task.id != 0 && s'.pcs[t].task !in s'.placed {
      if t != a.t || !a.CallEnqueue? { assert Placing(s, t); }
      if t != a.t && Placing(s, a.t) { assert s.pcs[t].task != s.pcs[a.t].task; }
    }
    forall t, u | Placing(s', t) && Placing(s', u) && s'.pcs[t].task == s'.pcs[u].task ensures t == u {
      if t != a.t || !a.CallEnqueue? { assert Placing(s, t); }
      if u != a.t || !a.CallEnqueue? { assert Placing(s, u); }
    }
  }

  lemma OneSlotNext(s: Queue, a: Action)
    requires OneSlot(s) && Enabled(s, a)
    ensures OneSlot(Next(s, a))
  {
    NewTasksNext(s, a);
    if Placing(s, a.t) { assert s.pcs[a.t].task !in s.placed; }
  }

  lemma {:induction false} OneSlotAlways(g: Guards, states: seq<Queue>, actions: seq<Action>, i: nat)
    requires IsQueueRun(g, states, actions) && Init(1, states[0]) && i < |states|
    ensures OneSlot(states[i])
  {
    if i > 0 {
      OneSlotAlways(g, states, actions, i - 1);
      assert Goes(g, states[i - 1], actions[i - 1], states[i]);
      OneSlotNext(states[i - 1], actions[i - 1]);
    }
  }

  function Final(states: seq<Queue>): seq<Task>
    requires states != []
  {
    states[|states| - 1].taken
  }

  lemma {:induction false} TakenGrows(g: Guards, states: seq<Queue>, actions: seq<Action>, i: nat)
    requires IsQueueRun(g, states, actions) && i < |states|
    ensures states[i].taken <= Final(states)
    decreases |states| - i
  {
    if i < |actions| {
      assert Goes(g, states[i], actions[i], states[i + 1]);
      TakenGrows(g, states, actions, i + 1);
    }
  }

  /** Placed, not taken, and no longer in the slot. */
  predicate Gone(s: Queue, x: Task) { x in s.placed && x !in s.taken && x !in s.tasks && x != EMPTY }

  lemma {:induction false} GoneForever(g: Guards, states: seq<Queue>, actions: seq<Action>, i: nat, x: Task)
    requires IsQueueRun(g, states, actions) && Init(1, states[0]) && i < |states| && Gone(states[i], x)
    ensures x !in Final(states)
    decreases |states| - i
  {
    if i < |actions| {
      assert Goes(g, states[i], actions[i], states[i + 1]);
      OneSlotAlways(g, states, actions, i);
      var s, a := states[i], actions[i];
      if Placing(s, a.t) { assert s.pcs[a.t].task != x; }
      GoneForever(g, states, actions, i + 1, x);
    }
  }

  /** Some placed task is never delivered. */
  predicate Lost(s: Queue, fin: seq<Task>) { exists x :: x in s.placed && x !in fin }

  /** The tasks that were handed in. */
  ghost predicate Called(s: Queue, x: Task) { x in s.placed || HandedIn(s, x) }

  ghost predicate HandedIn(s: Queue, x: Task) { exists t :: Placing(s, t) && s.pcs[t].task == x }

  lemma {:induction false} DistinctSubset<T>(xs: seq<T>, ys: seq<T>)
    requires Distinct(xs) && forall x :: x in xs ==> x in ys
    ensures |xs| <= |ys|
    ensures |xs| == |ys| ==> forall y :: y in ys ==> y in xs
  {
    if xs != [] {
      var x := xs[0];
      assert x in ys;
      var j :| 0 <= j < |ys| && ys[j] == x;
      var rest := ys[..j] + ys[j + 1..];
      forall z | z in xs[1..] ensures z in rest { assert z in xs && z != x; }
      DistinctSubset(xs[1..], rest);
      forall y | y in ys && |xs| == |ys| ensures y in xs {
        if y != x { assert y in rest; }
      }
    }
  }

  /** Once a task is placed that is never delivered, no enqueue finds room. */
  lemma NoMoreCalls(g: Guards, s: Queue, a: Action, s': Queue, fin: seq<Task>)
    requires g.room && OneSlot(s) && Goes(g, s, a, s') && s.taken <= fin && Lost(s, fin)
    ensures !a.CallEnqueue?
  {
    DistinctSubset(s.taken, s.placed);
    var x :| x in s.placed && x !in fin;
    assert x !in s.taken;
  }

  lemma {:induction false} NoNewTasks(g: Guards, states: seq<Queue>, actions: seq<Action>, i: nat, x: Task)
    requires g.room && IsQueueRun(g, states, actions) && Init(1, states[0]) && i < |states|
    requires Lost(states[i], Final(states)) && x in Final(states)
    ensures Called(states[i], x)
    decreases |states| - i
  {
    OneSlotAlways(g, states, actions, i);
    if i < |actions| {
      var s, a := states[i], actions[i];
      assert Goes(g, s, a, states[i + 1]);
      TakenGrows(g, states, actions, i);
      NoMoreCalls(g, s, a, states[i + 1], Final(states));
      var y :| y in s.placed && y !in Final(states);
      assert y in states[i + 1].placed;
      NoNewTasks(g, states, actions, i + 1, x);
      if x !in states[i + 1].placed {
        var t :| Placing(states[i + 1], t) && states[i + 1].pcs[t].task == x;
        assert Placing(s, t) && s.pcs[t].task == x;
      }
    }
  }

  // The abstraction.

  /** The placed tasks that are never delivered. */
  function Left(placed: seq<Task>, fin: seq<Task>): seq<Task> {
    if placed == [] then []
    else
      var x := placed[|placed| - 1];
      Left(placed[..|placed| - 1], fin) + if x in fin then [] else [x]
  }

  function CallIn(pc: Pc, fin: seq<Task>): Call<Task> {
    if InEnqueue(pc) && pc.task in fin then Enqueued else CallFor(pc)
  }

  function CallsIn(s: Queue, fin: seq<Task>): map<Tid, Call<Task>> { map t | t in s.pcs :: CallIn(s.pcs[t], fin) }

  /** First the tasks that will have been delivered, then those that will not. */
  function AbsLost(s: Queue, fin: seq<Task>): Fifo<Task>
    requires s.taken <= fin
  {
    Fifo(fin[|s.taken|..] + Left(s.placed, fin), fin + Left(s.placed, fin), s.taken, CallsIn(s, fin))
  }

  /** Before such a task is placed, the queue is the slot. */
  ghost predicate Plain(s: Queue) { s.placed == s.taken + Content(s) }

  ghost predicate AbsOk(s: Queue, fin: seq<Task>) {
    s.taken <= fin && (!Lost(s, fin) ==> Plain(s))
  }

  ghost function AbsSingle(s: Queue, fin: seq<Task>): Fifo<Task>
    requires AbsOk(s, fin)
  {
    if Lost(s, fin) then AbsLost(s, fin) else Abs(s)
  }

  /** After it: an enqueue whose task is delivered has taken effect already. */
  lemma LostPlaces(s: Queue, t: Tid, s': Queue, fin: seq<Task>)
    requires s.taken <= fin && Places(s, t, s')
    ensures Step(AbsLost(s, fin), RetEnq(t), AbsLost(s', fin))
  {
    var f, f', x := AbsLost(s, fin), AbsLost(s', fin), s.pcs[t].task;
    assert s'.placed[..|s'.placed| - 1] == s.placed;
    if x in fin {
      assert f'.calls == f.calls[t := Quiet];
      assert Moves(f, [], RetEnq(t), f');
    } else {
      OwnEffect(s, t, s', fin);
      Single(f, t, RetEnq(t), f');
    }
  }

  lemma LostTakes(s: Queue, t: Tid, x: Task, s': Queue, fin: seq<Task>)
    requires s.taken <= fin && s'.taken <= fin && Takes(s, t, x, s')
    ensures Step(AbsLost(s, fin), RetDeq(t, Some(x)), AbsLost(s', fin))
  {
    var f, f' := AbsLost(s, fin), AbsLost(s', fin);
    assert fin[|s.taken|] == s'.taken[|s.taken|] == x;
    assert f'.q == f.q[1..] && f.q[0] == x;
    assert f'.calls == Effect(f, t).calls[t := Quiet];
    Single(f, t, RetDeq(t, Some(x)), f');
  }

  lemma LostProbes(s: Queue, t: Tid, s': Queue, fin: seq<Task>)
    requires s.taken <= fin && Probes(s, t, s')
    ensures AbsLost(s', fin) == AbsLost(s, fin)
  {
    forall u | u in s.pcs ensures CallIn(s'.pcs[u], fin) == CallIn(s.pcs[u], fin) {
      assert Calls(s)[u] == Calls(s')[u];
    }
  }

  lemma LostStep(s: Queue, a: Action, fin: seq<Task>)
    requires OneSlot(s) && Enabled(s, a) && !a.CallEnqueue? && s.taken <= fin && Next(s, a).taken <= fin
    ensures Step(AbsLost(s, fin), LabelOf(s, a), AbsLost(Next(s, a), fin))
  {
    var s', l := Next(s, a), LabelOf(s, a);
    Cases(s, a);
    if l.RetEnq? {
      LostPlaces(s, a.t, s', fin);
    } else if l.RetDeq? {
      LostTakes(s, a.t, l.result.value, s', fin);
    } else {
      if a.Run? { LostProbes(s, a.t, s', fin); }
      assert a.CallDequeue? ==> AbsLost(s', fin).calls == AbsLost(s, fin).calls[a.t := Dequeuing];
      assert Moves(AbsLost(s, fin), [], l, AbsLost(s', fin));
    }
  }

  /** The pending enqueues of the threads ts, of the tasks vs, have taken effect in that order. */
  function AllIn(f: Fifo<Task>, vs: seq<Task>, ts: seq<Tid>): Fifo<Task> {
    Fifo(f.q + vs, f.ins + vs, f.outs, map t | t in f.calls :: if t in ts then Enqueued else f.calls[t])
  }

  lemma AllInNext(f: Fifo<Task>, vs: seq<Task>, ts: seq<Tid>)
    requires |ts| == |vs| > 0 && ts[0] in f.calls && f.calls[ts[0]] == Enqueuing(vs[0])
    ensures AllIn(Effect(f, ts[0]), vs[1..], ts[1..]) == AllIn(f, vs, ts)
  {
    var f1 := Effect(f, ts[0]);
    assert f1.q + vs[1..] == f.q + vs && f1.ins + vs[1..] == f.ins + vs;
    assert ts == [ts[0]] + ts[1..];
  }

  lemma {:induction false} EnqueueAll(f: Fifo<Task>, vs: seq<Task>, ts: seq<Tid>, rest: seq<Tid>, l: Label<Task>, b: Fifo<Task>)
    requires |ts| == |vs| && Distinct(ts)
    requires forall i :: 0 <= i < |ts| ==> ts[i] in f.calls && f.calls[ts[i]] == Enqueuing(vs[i])
    requires Moves(AllIn(f, vs, ts), rest, l, b)
    ensures Moves(f, ts + rest, l, b)
    decreases |vs|
  {
    if vs == [] {
      assert AllIn(f, vs, ts) == f;
      assert ts + rest == rest;
    } else {
      var f1 := Effect(f, ts[0]);
      AllInNext(f, vs, ts);
      EnqueueAll(f1, vs[1..], ts[1..], rest, l, b);
      assert (ts + rest)[1..] == ts[1..] + rest;
    }
  }

  // The step that places the first task that is never delivered.

  /** The threads whose enqueues hand in the tasks vs. */
  lemma {:induction false} Callers(s: Queue, vs: seq<Task>) returns (ts: seq<Tid>)
    requires NewTasks(s) && Distinct(vs) && forall v :: v in vs ==> HandedIn(s, v)
    ensures |ts| == |vs| && Distinct(ts) && forall i :: 0 <= i < |ts| ==> Placing(s, ts[i]) && s.pcs[ts[i]].task == vs[i]
  {
    if vs == [] {
      ts := [];
    } else {
      var m := |vs| - 1;
      assert vs[m] in vs;
      forall v | v in vs[..m] ensures HandedIn(s, v) { assert v in vs; }
      ts := Callers(s, vs[..m]);
      var t :| Placing(s, t) && s.pcs[t].task == vs[m];
      assert forall i :: 0 <= i < m ==> ts[i] != t by {
        assert forall i :: 0 <= i < m ==> s.pcs[ts[i]].task == vs[..m][i] == vs[i];
      }
      ts := ts + [t];
    }
  }

  lemma {:induction false} NoneLeft(placed: seq<Task>, fin: seq<Task>)
    requires forall x :: x in placed ==> x in fin
    ensures Left(placed, fin) == []
  {
    if placed != [] { NoneLeft(placed[..|placed| - 1], fin); }
  }

  lemma FirstLost(s: Queue, t: Tid, s': Queue, fin: seq<Task>)
    requires NewTasks(s) && Places(s, t, s') && Distinct(fin) && s.taken <= fin
    requires s.placed == s.taken && s.pcs[t].task !in fin
    requires forall v :: v in fin ==> Called(s', v)
    ensures Step(Abs(s), RetEnq(t), AbsLost(s', fin))
  {
    var vs := fin[|s.taken|..];
    forall v | v in vs ensures HandedIn(s, v) { StillPending(s, t, s', fin, v); }
    var ts := Callers(s, vs);
    AllInIs(s, vs, ts, fin);
    OwnEffect(s, t, s', fin);
    Single(AbsLost(s, fin), t, RetEnq(t), AbsLost(s', fin));
    EnqueueAll(Abs(s), vs, ts, [t], RetEnq(t), AbsLost(s', fin));
  }

  lemma AllInIs(s: Queue, vs: seq<Task>, ts: seq<Tid>, fin: seq<Task>)
    requires NewTasks(s) && s.taken <= fin && vs == fin[|s.taken|..] && s.taken == s.placed && |ts| == |vs|
    requires forall i :: 0 <= i < |ts| ==> Placing(s, ts[i]) && s.pcs[ts[i]].task == vs[i]
    ensures AllIn(Abs(s), vs, ts) == AbsLost(s, fin)
  {
    WhoIsIn(s, vs, ts, fin);
    assert fin == s.taken + vs;
    NoneLeft(s.placed, fin);
  }

  lemma OwnEffect(s: Queue, t: Tid, s': Queue, fin: seq<Task>)
    requires s.taken <= fin && Places(s, t, s') && s.pcs[t].task !in fin
    ensures Pending(AbsLost(s, fin), t) && Visible(Effect(AbsLost(s, fin), t), RetEnq(t), AbsLost(s', fin))
  {
    var f, f', x := AbsLost(s, fin), AbsLost(s', fin), s.pcs[t].task;
    assert s'.placed[..|s'.placed| - 1] == s.placed;
    assert f'.q == f.q + [x] && f'.ins == f.ins + [x];
    assert f'.calls == Effect(f, t).calls[t := Quiet];
  }

  lemma StillPending(s: Queue, t: Tid, s': Queue, fin: seq<Task>, v: Task)
    requires Places(s, t, s') && Distinct(fin) && s.taken <= fin
    requires s.placed == s.taken && s.pcs[t].task !in fin && v in fin[|s.taken|..] && Called(s', v)
    ensures HandedIn(s, v)
  {
    assert v !in s.taken;
    assert v !in s'.placed;
    var u :| Placing(s', u) && s'.pcs[u].task == v;
    assert Placing(s, u) && s.pcs[u].task == v;
  }

  lemma WhoIsIn(s: Queue, vs: seq<Task>, ts: seq<Tid>, fin: seq<Task>)
    requires NewTasks(s) && s.taken <= fin && vs == fin[|s.taken|..] && s.taken == s.placed && |ts| == |vs|
    requires forall i :: 0 <= i < |ts| ==> Placing(s, ts[i]) && s.pcs[ts[i]].task == vs[i]
    ensures (map t | t in Calls(s) :: if t in ts then Enqueued else Calls(s)[t]) == CallsIn(s, fin)
  {
    assert fin == s.taken + vs;
    forall t | t in s.pcs ensures t in ts <==> Placing(s, t) && s.pcs[t].task in fin {
      if Placing(s, t) && s.pcs[t].task in fin {
        var i :| 0 <= i < |vs| && vs[i] == s.pcs[t].task;
        assert Placing(s, ts[i]);
      }
    }
  }

  // Whole runs.

  /** While every placed task will be delivered, the slot is only ever filled when it is empty. */
  lemma PlainNext(g: Guards, states: seq<Queue>, actions: seq<Action>, i: nat)
    requires IsQueueRun(g, states, actions) && Init(1, states[0]) && i < |actions| && Plain(states[i])
    requires !Lost(states[i], Final(states))
    ensures states[i + 1].placed != states[i].placed ==> states[i].placed == states[i].taken
    ensures Plain(states[i + 1])
  {
    var s, a, s' := states[i], actions[i], states[i + 1];
    assert Goes(g, s, a, s');
    OneSlotAlways(g, states, actions, i);
    assert s.tasks == [s.tasks[0]] && s'.tasks == [s'.tasks[0]];
    if s'.placed != s.placed && s.tasks != [EMPTY] {
      Overwritten(g, states, actions, i);
    }
  }

  lemma Overwritten(g: Guards, states: seq<Queue>, actions: seq<Action>, i: nat)
    requires IsQueueRun(g, states, actions) && Init(1, states[0]) && i < |actions| && OneSlot(states[i])
    requires states[i + 1].placed != states[i].placed && states[i].tasks != [EMPTY]
    ensures Lost(states[i], Final(states))
  {
    var s, a, s' := states[i], actions[i], states[i + 1];
    assert Goes(g, s, a, s');
    var x := s.tasks[0];
    assert s.tasks == [x] && s'.tasks == [s.pcs[a.t].task] && Placing(s, a.t);
    assert Gone(s', x);
    GoneForever(g, states, actions, i + 1, x);
  }

  lemma {:induction false} SingleOk(g: Guards, states: seq<Queue>, actions: seq<Action>, i: nat)
    requires IsQueueRun(g, states, actions) && Init(1, states[0]) && i < |states|
    ensures AbsOk(states[i], Final(states))
  {
    TakenGrows(g, states, actions, i);
    if i == 0 {
      assert states[0].tasks == [EMPTY];
    } else {
      SingleOk(g, states, actions, i - 1);
      assert Goes(g, states[i - 1], actions[i - 1], states[i]);
      if !Lost(states[i], Final(states)) {
        assert states[i - 1].placed <= states[i].placed;
        PlainNext(g, states, actions, i - 1);
      }
    }
  }

  lemma SingleStep(g: Guards, states: seq<Queue>, actions: seq<Action>, i: nat)
    requires g.room && IsQueueRun(g, states, actions) && Init(1, states[0]) && i < |actions|
    requires AbsOk(states[i], Final(states)) && AbsOk(states[i + 1], Final(states))
    requires Counters(states[i]) && Enabled(states[i], actions[i])
    ensures Step(AbsSingle(states[i], Final(states)), LabelOf(states[i], actions[i]), AbsSingle(states[i + 1], Final(states)))
  {
    var s, a, s', fin := states[i], actions[i], states[i + 1], Final(states);
    assert Goes(g, s, a, s');
    OneSlotAlways(g, states, actions, i);
    if Lost(s, fin) {
      NoMoreCalls(g, s, a, s', fin);
      LostStep(s, a, fin);
      var x :| x in s.placed && x !in fin;
      assert x in s'.placed;
    } else if Lost(s', fin) {
      PlainNext(g, states, actions, i);
      OneSlotAlways(g, states, actions, |actions|);
      forall v | v in fin ensures Called(s', v) { NoNewTasks(g, states, actions, i + 1, v); }
      Cases(s, a);
      FirstLost(s, a.t, s', fin);
    } else {
      FirstOutStep(s, a);
    }
  }

  /** With one slot, every run of callers that find room for each task is linearizable, however many
      enqueues and dequeues overlap. */
  lemma SingleIsLinear(g: Guards, states: seq<Queue>, actions: seq<Action>)
    requires g.room && IsQueueRun(g, states, actions) && Init(1, states[0])
    ensures Explained(Labels(g, states, actions))
  {
    var ls, fin := Labels(g, states, actions), Final(states);
    forall i | 0 <= i < |states| ensures AbsOk(states[i], fin) { SingleOk(g, states, actions, i); }
    var fs := seq(|states|, i requires 0 <= i < |states| => AbsSingle(states[i], fin));
    forall i | 0 <= i < |ls| ensures Step(fs[i], ls[i], fs[i + 1]) {
      assert Goes(g, states[i], actions[i], states[i + 1]);
      SingleStep(g, states, actions, i);
    }
    assert Start(fs[0]);
    assert IsRun(fs, ls);
  }

  /** What callers have to observe with n slots. */
  predicate Sufficient(g: Guards, n: nat) { g.room && (n == 1 || g == ALL) }

  lemma Linearizable(g: Guards, n: nat, states: seq<Queue>, actions: seq<Action>)
    requires Sufficient(g, n) && IsQueueRun(g, states, actions) && Init(n, states[0])
    ensures Explained(Labels(g, states, actions))
  {
    if n == 1 {
      SingleIsLinear(g, states, actions);
    } else {
      forall i | 0 <= i < |states| ensures FirstOut(states[i]) { OrderAlways(g, n, states, actions, i); }
      FirstOutIsLinear(g, n, states, actions);
    }
  }
}
