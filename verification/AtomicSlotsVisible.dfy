/** When no run of the atomic queue explains a run of the atomic slot queue. A task that was handed in
    later is delivered, the earlier one is not, and no running dequeue can account for it. */
module AtomicSlotsVisible {
  import opened AtomicFifo
  import opened AtomicSlots
  import opened AtomicSlotsOrder
  import opened AtomicSlotsLinear

  // What any explanation knows.

  function At(s: Queue, t: Tid): Pc { if t in s.pcs then s.pcs[t] else Idle }

  function CallOf(f: Fifo<Task>, t: Tid): Call<Task> { if t in f.calls then f.calls[t] else Quiet }

  /** The dequeue of t has removed x and not returned. */
  predicate Holds(f: Fifo<Task>, t: Tid, x: Task) { CallOf(f, t) == Dequeued(Some(x)) }

  predicate Adding(f: Fifo<Task>, x: Task, c: Call<Task>) {
    (c == Enqueuing(x) && x !in f.ins) || (c == Enqueued && x in f.ins)
  }

  predicate Removing(f: Fifo<Task>, taken: seq<Task>, c: Call<Task>) {
    c == Dequeuing || (c.Dequeued? && (c.result.Some? ==> c.result.value in f.outs && c.result.value !in taken))
  }

  predicate Fits(pc: Pc, taken: seq<Task>, f: Fifo<Task>, c: Call<Task>) {
    if pc == Idle then c == Quiet else if InEnqueue(pc) then Adding(f, pc.task, c) else Removing(f, taken, c)
  }

  /** Each task is inserted once. */
  ghost predicate Sane(f: Fifo<Task>) { f.ins == f.outs + f.q && Distinct(f.ins) }

  ghost predicate Inserted(s: Queue, f: Fifo<Task>) {
    && (forall x :: x in s.placed ==> x in f.ins)
    && (forall x :: x in f.ins ==> Called(s, x))
  }

  ghost predicate Removed(s: Queue, f: Fifo<Task>) {
    && (forall x :: x in s.taken ==> x in f.outs)
    && (forall x :: x in f.outs ==> x in s.taken || exists t :: Holds(f, t, x))
    && (forall t, u, x :: Holds(f, t, x) && Holds(f, u, x) ==> t == u)
  }

  ghost predicate Linked(s: Queue, f: Fifo<Task>) {
    && Sane(f) && Inserted(s, f) && Removed(s, f)
    && forall t :: Fits(At(s, t), s.taken, f, CallOf(f, t))
  }

  lemma EffectAdds(s: Queue, f: Fifo<Task>, t: Tid)
    requires Linked(s, f) && NewTasks(s) && t in f.calls && f.calls[t].Enqueuing?
    ensures Linked(s, Effect(f, t))
  {
    var f', x := Effect(f, t), f.calls[t].v;
    assert Fits(At(s, t), s.taken, f, CallOf(f, t));
    assert Placing(s, t);
    assert forall u, y :: Holds(f, u, y) <==> Holds(f', u, y);
    forall u ensures Fits(At(s, u), s.taken, f', CallOf(f', u)) {
      assert Fits(At(s, u), s.taken, f, CallOf(f, u));
      if u != t && Placing(s, u) { assert s.pcs[u].task != x; }
    }
  }

  lemma EffectRemoves(s: Queue, f: Fifo<Task>, t: Tid)
    requires Linked(s, f) && t in f.calls && f.calls[t].Dequeuing?
    ensures Linked(s, Effect(f, t))
  {
    var f' := Effect(f, t);
    assert Fits(At(s, t), s.taken, f, CallOf(f, t));
    assert forall u, y :: u != t ==> (Holds(f, u, y) <==> Holds(f', u, y));
    if f.q != [] {
      var x := f.q[0];
      FrontIsNew(f);
      assert f'.ins == f'.outs + f'.q;
      assert Holds(f', t, x);
      forall y | y in f'.outs ensures y in s.taken || exists u :: Holds(f', u, y) {
        if y != x && y !in s.taken {
          var u :| Holds(f, u, y);
          assert Holds(f', u, y);
        }
      }
    } else {
      forall y | y in f'.outs ensures y in s.taken || exists u :: Holds(f', u, y) {
        if y !in s.taken {
          var u :| Holds(f, u, y);
          assert Holds(f', u, y);
        }
      }
    }
    forall u ensures Fits(At(s, u), s.taken, f', CallOf(f', u)) {
      assert Fits(At(s, u), s.taken, f, CallOf(f, u));
    }
  }

  lemma FrontIsNew(f: Fifo<Task>)
    requires Sane(f) && f.q != []
    ensures f.q[0] !in f.outs
  {
    assert f.ins[|f.outs|] == f.q[0];
    forall i | 0 <= i < |f.outs| ensures f.outs[i] != f.q[0] { assert f.ins[i] == f.outs[i]; }
  }

  lemma CalledStays(s: Queue, a: Action, x: Task)
    requires Counters(s) && Enabled(s, a)
    ensures Called(s, x) ==> Called(Next(s, a), x)
    ensures a.CallEnqueue? ==> !Called(s, a.task)
  {
    if x !in s.placed && Called(s, x) {
      var t :| Placing(s, t) && s.pcs[t].task == x;
      assert Placing(Next(s, a), t) || x in Next(s, a).placed;
    }
  }

  lemma InsertedNext(s: Queue, a: Action, f: Fifo<Task>, b: Fifo<Task>)
    requires Linked(s, f) && Counters(s) && Enabled(s, a) && Visible(f, LabelOf(s, a), b)
    ensures Inserted(Next(s, a), b)
  {
    Cases(s, a);
    assert Fits(At(s, a.t), s.taken, f, CallOf(f, a.t));
    forall x | x in b.ins ensures Called(Next(s, a), x) { CalledStays(s, a, x); }
  }

  /** The answer of the one dequeue that returns is removed, all others stay. */
  lemma HoldersStay(s: Queue, a: Action, f: Fifo<Task>, b: Fifo<Task>)
    requires Linked(s, f) && Counters(s) && Enabled(s, a) && Visible(f, LabelOf(s, a), b)
    ensures forall t, x :: Holds(b, t, x) <==> Holds(f, t, x) && !(t == a.t && LabelOf(s, a) == RetDeq(t, Some(x)))
  {
    assert Fits(At(s, a.t), s.taken, f, CallOf(f, a.t));
    Cases(s, a);
  }

  lemma RemovedNext(s: Queue, a: Action, f: Fifo<Task>, b: Fifo<Task>)
    requires Linked(s, f) && Counters(s) && Enabled(s, a) && Visible(f, LabelOf(s, a), b)
    ensures Removed(Next(s, a), b)
  {
    Cases(s, a);
    HoldersStay(s, a, f, b);
    assert Fits(At(s, a.t), s.taken, f, CallOf(f, a.t));
    forall x | x in b.outs ensures x in Next(s, a).taken || exists t :: Holds(b, t, x) {
      if x !in s.taken {
        var t :| Holds(f, t, x);
        if LabelOf(s, a).RetDeq? && t == a.t { assert LabelOf(s, a) == RetDeq(t, Some(x)); } else { assert Holds(b, t, x); }
      }
    }
  }

  lemma FitsNext(s: Queue, a: Action, f: Fifo<Task>, b: Fifo<Task>, u: Tid)
    requires Linked(s, f) && NewTasks(s) && Counters(s) && Enabled(s, a) && Visible(f, LabelOf(s, a), b)
    ensures Fits(At(Next(s, a), u), Next(s, a).taken, b, CallOf(b, u))
  {
    assert Fits(At(s, u), s.taken, f, CallOf(f, u));
    assert Fits(At(s, a.t), s.taken, f, CallOf(f, a.t));
    if a.CallEnqueue? { CalledStays(s, a, a.task); }
    if u != a.t && LabelOf(s, a).RetDeq? && CallOf(f, u).Dequeued? && CallOf(f, u).result.Some? {
      var x := CallOf(f, u).result.value;
      assert Holds(f, u, x);
      assert Holds(f, a.t, LabelOf(s, a).result.value);
    }
  }

  lemma VisibleLinked(s: Queue, a: Action, f: Fifo<Task>, b: Fifo<Task>)
    requires Linked(s, f) && NewTasks(s) && Counters(s) && Enabled(s, a) && Visible(f, LabelOf(s, a), b)
    ensures Linked(Next(s, a), b)
  {
    InsertedNext(s, a, f, b);
    RemovedNext(s, a, f, b);
    forall u ensures Fits(At(Next(s, a), u), Next(s, a).taken, b, CallOf(b, u)) { FitsNext(s, a, f, b, u); }
  }

  lemma {:induction false} MovesLinked(s: Queue, a: Action, f: Fifo<Task>, ts: seq<Tid>, b: Fifo<Task>)
    requires Linked(s, f) && NewTasks(s) && Counters(s) && Enabled(s, a) && Moves(f, ts, LabelOf(s, a), b)
    ensures Linked(Next(s, a), b)
    decreases |ts|
  {
    if ts == [] {
      VisibleLinked(s, a, f, b);
    } else {
      if f.calls[ts[0]].Enqueuing? { EffectAdds(s, f, ts[0]); } else { EffectRemoves(s, f, ts[0]); }
      MovesLinked(s, a, Effect(f, ts[0]), ts[1..], b);
    }
  }

  ghost predicate Explains(g: Guards, states: seq<Queue>, actions: seq<Action>, fs: seq<Fifo<Task>>) {
    IsQueueRun(g, states, actions) && IsRun(fs, Labels(g, states, actions))
  }

  lemma {:induction false} LinkedAlways(g: Guards, n: nat, states: seq<Queue>, actions: seq<Action>, fs: seq<Fifo<Task>>, i: nat)
    requires Explains(g, states, actions, fs) && Init(n, states[0]) && i < |states|
    ensures NewTasks(states[i]) && Linked(states[i], fs[i])
  {
    if i == 0 {
      assert Start(fs[0]);
      assert forall t, x :: !Holds(fs[0], t, x);
    } else {
      LinkedAlways(g, n, states, actions, fs, i - 1);
      var s, a, ls := states[i - 1], actions[i - 1], Labels(g, states, actions);
      assert Goes(g, s, a, states[i]);
      assert Step(fs[i - 1], ls[i - 1], fs[i]);
      var ts :| Moves(fs[i - 1], ts, ls[i - 1], fs[i]);
      NewTasksNext(s, a);
      MovesLinked(s, a, fs[i - 1], ts, fs[i]);
    }
  }

  // The order of insertion.

  lemma {:induction false} MovesGrow<T>(f: Fifo<T>, ts: seq<Tid>, l: Label<T>, b: Fifo<T>)
    requires Moves(f, ts, l, b)
    ensures f.ins <= b.ins
    decreases |ts|
  {
    if ts != [] { MovesGrow(Effect(f, ts[0]), ts[1..], l, b); }
  }

  lemma {:induction false} InsGrows<T(!new)>(fs: seq<Fifo<T>>, ls: seq<Label<T>>, i: nat, k: nat)
    requires IsRun(fs, ls) && i <= k < |fs|
    ensures fs[i].ins <= fs[k].ins
  {
    if i < k {
      InsGrows(fs, ls, i, k - 1);
      assert Step(fs[k - 1], ls[k - 1], fs[k]);
      var ts :| Moves(fs[k - 1], ts, ls[k - 1], fs[k]);
      MovesGrow(fs[k - 1], ts, ls[k - 1], fs[k]);
    }
  }

  /** The enqueue of x has returned, that of y has not been called. */
  ghost predicate Precedes(s: Queue, x: Task, y: Task) { x in s.placed && !Called(s, y) }

  /** Then y is removed after x, so if y was delivered and x was not, some running dequeue has x. */
  lemma SomebodyHolds(g: Guards, n: nat, states: seq<Queue>, actions: seq<Action>, fs: seq<Fifo<Task>>, i: nat, k: nat, x: Task, y: Task) returns (t: Tid)
    requires Explains(g, states, actions, fs) && Init(n, states[0]) && i <= k < |states|
    requires Precedes(states[i], x, y) && y in states[k].taken && x !in states[k].taken
    ensures Holds(fs[k], t, x) && InDequeue(At(states[k], t))
  {
    LinkedAlways(g, n, states, actions, fs, i);
    LinkedAlways(g, n, states, actions, fs, k);
    InsGrows(fs, Labels(g, states, actions), i, k);
    FrontFirst(fs[i].ins, fs[k].ins, fs[k].outs, x, y);
    t :| Holds(fs[k], t, x);
    assert Fits(At(states[k], t), states[k].taken, fs[k], CallOf(fs[k], t));
  }

  lemma FrontFirst<T>(early: seq<T>, ins: seq<T>, outs: seq<T>, x: T, y: T)
    requires early <= ins && outs <= ins && x in early && y !in early && y in outs
    ensures x in outs
  {
    var j :| 0 <= j < |outs| && outs[j] == y;
    assert ins[j] == y;
    assert |early| <= j;
    var i :| 0 <= i < |early| && early[i] == x;
    assert outs[i] == ins[i] == x;
  }

  // Runs whose explanations are all alike.

  ghost predicate Leads(g: Guards, s0: Queue, states: seq<Queue>, actions: seq<Action>, s: Queue) {
    IsQueueRun(g, states, actions) && states[0] == s0 && states[|actions|] == s
  }

  /** A run leads to s, and in every explanation of it the dequeue of w has removed x by then. */
  ghost predicate Held(g: Guards, s0: Queue, s: Queue, w: Tid, x: Task) {
    exists states: seq<Queue>, actions: seq<Action> :: Leads(g, s0, states, actions, s) && AlwaysHolds(g, states, actions, w, x)
  }

  ghost predicate AlwaysHolds(g: Guards, states: seq<Queue>, actions: seq<Action>, w: Tid, x: Task) {
    forall fs: seq<Fifo<Task>> :: Explains(g, states, actions, fs) ==> Holds(fs[|actions|], w, x)
  }

  /** A run has no explanation. */
  ghost predicate Fails(g: Guards, s0: Queue) {
    exists states: seq<Queue>, actions: seq<Action> ::
      IsQueueRun(g, states, actions) && states[0] == s0 && !Explained(Labels(g, states, actions))
  }

  lemma Extended(g: Guards, s0: Queue, states: seq<Queue>, actions: seq<Action>, s: Queue, a: Action)
    requires Leads(g, s0, states, actions, s) && Counters(s) && Enabled(s, a) && Permits(g, s, a)
    ensures Leads(g, s0, states + [Next(s, a)], actions + [a], Next(s, a))
    ensures Labels(g, states + [Next(s, a)], actions + [a]) == Labels(g, states, actions) + [LabelOf(s, a)]
  {
    var states', actions' := states + [Next(s, a)], actions + [a];
    forall i | 0 <= i < |actions'| ensures Goes(g, states'[i], actions'[i], states'[i + 1]) {
      if i < |actions| { assert Goes(g, states[i], actions[i], states[i + 1]); }
    }
    var ls, ls' := Labels(g, states, actions), Labels(g, states', actions');
    forall i | 0 <= i < |actions'| ensures ls'[i] == (ls + [LabelOf(s, a)])[i] {
      assert Goes(g, states'[i], actions'[i], states'[i + 1]) && ls'[i] == LabelOf(states'[i], actions'[i]);
      if i < |actions| { assert Goes(g, states[i], actions[i], states[i + 1]) && ls[i] == LabelOf(states[i], actions[i]); }
    }
  }

  lemma {:induction false} MovesKeepHolder(f: Fifo<Task>, ts: seq<Tid>, l: Label<Task>, b: Fifo<Task>, w: Tid, x: Task)
    requires Moves(f, ts, l, b) && Holds(f, w, x) && !Concerns(l, w)
    ensures Holds(b, w, x)
    decreases |ts|
  {
    if ts != [] { MovesKeepHolder(Effect(f, ts[0]), ts[1..], l, b, w, x); }
  }

  /** While w does not move it keeps what it has removed. */
  lemma HeldStep(g: Guards, s0: Queue, s: Queue, a: Action, w: Tid, x: Task) returns (s': Queue)
    requires Held(g, s0, s, w, x) && Counters(s) && Enabled(s, a) && Permits(g, s, a) && a.t != w
    ensures s' == Next(s, a) && Held(g, s0, s', w, x)
  {
    s' := Next(s, a);
    var states: seq<Queue>, actions: seq<Action> :| Leads(g, s0, states, actions, s) && AlwaysHolds(g, states, actions, w, x);
    var states', actions' := states + [s'], actions + [a];
    Extended(g, s0, states, actions, s, a);
    forall fs: seq<Fifo<Task>> | Explains(g, states', actions', fs) ensures Holds(fs[|actions'|], w, x) {
      var m, ls' := |actions|, Labels(g, states', actions');
      LastStep(fs, Labels(g, states, actions), LabelOf(s, a));
      assert Explains(g, states, actions, fs[..m + 1]);
      var ts :| Moves(fs[m], ts, LabelOf(s, a), fs[m + 1]);
      MovesKeepHolder(fs[m], ts, LabelOf(s, a), fs[m + 1], w, x);
    }
    assert AlwaysHolds(g, states', actions', w, x);
  }

  lemma LastStep<T(!new)>(fs: seq<Fifo<T>>, ls: seq<Label<T>>, l: Label<T>)
    requires IsRun(fs, ls + [l])
    ensures IsRun(fs[..|ls| + 1], ls) && Step(fs[|ls|], l, fs[|ls| + 1])
  {
    var gs, k := fs[..|ls| + 1], ls + [l];
    assert Step(fs[|ls|], k[|ls|], fs[|ls| + 1]);
    forall i | 0 <= i < |ls| ensures Step(gs[i], ls[i], gs[i + 1]) {
      assert Step(fs[i], k[i], fs[i + 1]);
    }
  }

  lemma NotHeld(s: Queue, f: Fifo<Task>, w: Tid, x: Task)
    ensures Linked(s, f) && x in s.taken ==> !Holds(f, w, x)
  {
    if Linked(s, f) { assert Fits(At(s, w), s.taken, f, CallOf(f, w)); }
  }

  /** What w has removed, nobody else delivers. */
  lemma HeldFails(g: Guards, n: nat, s0: Queue, s: Queue, w: Tid, x: Task)
    requires Init(n, s0) && Held(g, s0, s, w, x) && x in s.taken
    ensures Fails(g, s0)
  {
    var states: seq<Queue>, actions: seq<Action> :| Leads(g, s0, states, actions, s) && AlwaysHolds(g, states, actions, w, x);
    var ls := Labels(g, states, actions);
    forall fs: seq<Fifo<Task>> ensures !IsRun(fs, ls) {
      if IsRun(fs, ls) {
        NotHeld(s, fs[|actions|], w, x);
        assert Explains(g, states, actions, fs);
        LinkedAlways(g, n, states, actions, fs, |actions|);
      }
    }
    assert !Explained(ls);
  }

  // The inversion.

  /** A run leads from s0 to s; the enqueue of x returned before that of y was called, and y has been
      delivered while x has not. */
  ghost predicate Inverted(g: Guards, s0: Queue, s: Queue, x: Task, y: Task) {
    y in s.taken && x !in s.taken && exists r :: RunTo(g, s0, r) && RunTo(g, r, s) && Precedes(r, x, y)
  }

  lemma Joined(g: Guards, s0: Queue, r: Queue, s: Queue) returns (states: seq<Queue>, actions: seq<Action>, i: nat)
    requires RunTo(g, s0, r) && RunTo(g, r, s)
    ensures Leads(g, s0, states, actions, s) && i <= |actions| && states[i] == r
  {
    var states1: seq<Queue>, actions1: seq<Action> :| IsQueueRun(g, states1, actions1) && states1[0] == s0 && states1[|actions1|] == r;
    var states2: seq<Queue>, actions2: seq<Action> :| IsQueueRun(g, states2, actions2) && states2[0] == r && states2[|actions2|] == s;
    i := |actions1|;
    states, actions := states1[..i] + states2, actions1 + actions2;
    forall k | 0 <= k < |actions| ensures Goes(g, states[k], actions[k], states[k + 1]) {
      if k < i {
        assert Goes(g, states1[k], actions1[k], states1[k + 1]);
      } else {
        assert Goes(g, states2[k - i], actions2[k - i], states2[k - i + 1]);
      }
    }
  }

  /** The one running dequeue must have the earlier task. */
  lemma InvertedHolds(g: Guards, n: nat, s0: Queue, s: Queue, x: Task, y: Task, w: Tid)
    requires Init(n, s0) && Inverted(g, s0, s, x, y) && forall t :: t in s.pcs && InDequeue(s.pcs[t]) ==> t == w
    ensures Held(g, s0, s, w, x)
  {
    var r :| RunTo(g, s0, r) && RunTo(g, r, s) && Precedes(r, x, y);
    var states, actions, i := Joined(g, s0, r, s);
    forall fs: seq<Fifo<Task>> | Explains(g, states, actions, fs) ensures Holds(fs[|actions|], w, x) {
      var t := SomebodyHolds(g, n, states, actions, fs, i, |actions|, x, y);
    }
    assert AlwaysHolds(g, states, actions, w, x);
  }

  /** With no dequeue running, an inversion has no explanation. */
  lemma InvertedFails(g: Guards, n: nat, s0: Queue, s: Queue, x: Task, y: Task)
    requires Init(n, s0) && Inverted(g, s0, s, x, y) && forall t :: t in s.pcs ==> !InDequeue(s.pcs[t])
    ensures Fails(g, s0)
  {
    var r :| RunTo(g, s0, r) && RunTo(g, r, s) && Precedes(r, x, y);
    var states, actions, i := Joined(g, s0, r, s);
    forall fs: seq<Fifo<Task>> ensures !IsRun(fs, Labels(g, states, actions)) {
      if IsRun(fs, Labels(g, states, actions)) {
        var t := SomebodyHolds(g, n, states, actions, fs, i, |actions|, x, y);
      }
    }
    assert !Explained(Labels(g, states, actions));
  }

  lemma JoinedIsRun(g: Guards, s0: Queue, s: Queue, x: Task, y: Task)
    requires Inverted(g, s0, s, x, y)
    ensures RunTo(g, s0, s)
  {
    var r :| RunTo(g, s0, r) && RunTo(g, r, s) && Precedes(r, x, y);
    var states, actions, i := Joined(g, s0, r, s);
    assert IsQueueRun(g, states, actions) && states[0] == s0 && states[|actions|] == s;
  }

  /** An inversion is not the order of placement either. */
  lemma InvertedNotFirstOut(g: Guards, s0: Queue, s: Queue, x: Task, y: Task)
    requires Inverted(g, s0, s, x, y)
    ensures RunTo(g, s0, s) && !FirstOut(s)
  {
    JoinedIsRun(g, s0, s, x, y);
    var r :| RunTo(g, s0, r) && RunTo(g, r, s) && Precedes(r, x, y);
    var states: seq<Queue>, actions: seq<Action> :| IsQueueRun(g, states, actions) && states[0] == r && states[|actions|] == s;
    PlacedGrows(g, states, actions, |actions|);
    if FirstOut(s) { FrontFirst(r.placed, s.placed, s.taken, x, y); }
  }

  lemma {:induction false} PlacedGrows(g: Guards, states: seq<Queue>, actions: seq<Action>, i: nat)
    requires IsQueueRun(g, states, actions) && i < |states|
    ensures states[0].placed <= states[i].placed
  {
    if i > 0 {
      PlacedGrows(g, states, actions, i - 1);
      assert Goes(g, states[i - 1], actions[i - 1], states[i]);
    }
  }
}
