/** The reference object: a FIFO queue whose operations take effect at one instant.

    A thread calls an operation, the operation takes effect once between the call and the
    return, and the return carries the result fixed by that effect. The three concurrent
    queues of this project are shown to take only steps that this machine can take with the
    same calls, returns and results, which is what linearizability means. */
module AtomicFifo {
  type Tid = nat

  datatype Option<+T> = None | Some(value: T)

  /** Where a thread stands in its current operation. `Dequeued(None)` is the answer "empty". */
  datatype Call<T> =
    | Quiet
    | Enqueuing(v: T)
    | Enqueued
    | Dequeuing
    | Dequeued(result: Option<T>)

  /** `q` is the queue, oldest element first; `ins` and `outs` record, in the order of the
      effects, every element ever inserted and ever removed. */
  datatype Fifo<T> = Fifo(q: seq<T>, ins: seq<T>, outs: seq<T>, calls: map<Tid, Call<T>>)

  /** What an observer sees of a step. */
  datatype Label<T> =
    | Tau
    | CallEnq(t: Tid, v: T)
    | CallDeq(t: Tid)
    | RetEnq(t: Tid)
    | RetDeq(t: Tid, result: Option<T>)

  /** The call or return is one of thread t. */
  predicate Concerns<T>(l: Label<T>, t: Tid) {
    match l
    case Tau => false
    case CallEnq(u, _) => u == t
    case CallDeq(u) => u == t
    case RetEnq(u) => u == t
    case RetDeq(u, _) => u == t
  }

  predicate Pending<T(==)>(a: Fifo<T>, t: Tid) {
    t in a.calls && (a.calls[t].Enqueuing? || a.calls[t].Dequeuing?)
  }

  /** The effect of the pending operation of thread t. */
  function Effect<T>(a: Fifo<T>, t: Tid): Fifo<T>
    requires t in a.calls && (a.calls[t].Enqueuing? || a.calls[t].Dequeuing?)
  {
    match a.calls[t]
    case Enqueuing(v) => Fifo(a.q + [v], a.ins + [v], a.outs, a.calls[t := Enqueued])
    case Dequeuing =>
      if a.q == [] then a.(calls := a.calls[t := Dequeued(None)])
      else Fifo(a.q[1..], a.ins, a.outs + [a.q[0]], a.calls[t := Dequeued(Some(a.q[0]))])
  }

  /** A call or a return, or nothing. */
  ghost predicate Visible<T>(a: Fifo<T>, l: Label<T>, b: Fifo<T>) {
    match l
    case Tau => b == a
    case CallEnq(t, v) => t in a.calls && a.calls[t] == Quiet && b == a.(calls := a.calls[t := Enqueuing(v)])
    case CallDeq(t) => t in a.calls && a.calls[t] == Quiet && b == a.(calls := a.calls[t := Dequeuing])
    case RetEnq(t) => t in a.calls && a.calls[t] == Enqueued && b == a.(calls := a.calls[t := Quiet])
    case RetDeq(t, r) => t in a.calls && a.calls[t] == Dequeued(r) && b == a.(calls := a.calls[t := Quiet])
  }

  /** The pending operations of the threads `ts` take effect in that order, then `l` happens. */
  ghost predicate Moves<T>(a: Fifo<T>, ts: seq<Tid>, l: Label<T>, b: Fifo<T>)
    decreases |ts|
  {
    if ts == [] then Visible(a, l, b)
    else Pending(a, ts[0]) && Moves(Effect(a, ts[0]), ts[1..], l, b)
  }

  ghost predicate Step<T(!new)>(a: Fifo<T>, l: Label<T>, b: Fifo<T>) {
    exists ts: seq<Tid> :: Moves(a, ts, l, b)
  }

  ghost predicate Start<T>(a: Fifo<T>) {
    a.q == [] && a.ins == [] && a.outs == [] && forall t :: t in a.calls ==> a.calls[t] == Quiet
  }

  ghost predicate IsRun<T(!new)>(states: seq<Fifo<T>>, labels: seq<Label<T>>) {
    && |states| == |labels| + 1
    && Start(states[0])
    && forall i :: 0 <= i < |labels| ==> Step(states[i], labels[i], states[i + 1])
  }

  /** Linearizable: some run of the atomic queue shows the same calls, returns and results. */
  ghost predicate Explained<T(!new)>(labels: seq<Label<T>>) {
    exists states: seq<Fifo<T>> :: IsRun(states, labels)
  }

  lemma {:induction false} MovesKeepOrder<T>(a: Fifo<T>, ts: seq<Tid>, l: Label<T>, b: Fifo<T>)
    requires a.ins == a.outs + a.q && Moves(a, ts, l, b)
    ensures b.ins == b.outs + b.q
    decreases |ts|
  {
    if ts != [] {
      MovesKeepOrder(Effect(a, ts[0]), ts[1..], l, b);
    }
  }

  /** First in, first out: at every instant of every run the removed elements are a prefix of
      the inserted ones, and what is left is the queue. */
  lemma {:induction false} FirstInFirstOut<T(!new)>(states: seq<Fifo<T>>, labels: seq<Label<T>>, i: nat)
    requires IsRun(states, labels) && i < |states|
    ensures states[i].ins == states[i].outs + states[i].q
  {
    if i > 0 {
      FirstInFirstOut(states, labels, i - 1);
      assert Step(states[i - 1], labels[i - 1], states[i]);
      var ts :| Moves(states[i - 1], ts, labels[i - 1], states[i]);
      MovesKeepOrder(states[i - 1], ts, labels[i - 1], states[i]);
    }
  }
}
