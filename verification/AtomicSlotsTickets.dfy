/** The tickets of the atomic slot queue, in every run of any number of producers and consumers: each
    add-and-fetch gets the next one, and none is held or used twice. */
module AtomicSlotsTickets {
  import opened AtomicFifo
  import opened AtomicSlots
  import opened Counting

  /** The two counters work alike: `rear` for enqueues, `front` for dequeues. */
  datatype Side = Rear | Front

  function Counter(s: Queue, side: Side): int { if side.Rear? then s.rear else s.front }

  /** The thread is about to take a ticket. */
  predicate AtProbe(pc: Pc, side: Side) { if side.Rear? then pc.EnqProbe? else pc.DeqProbe? }

  /** The ticket of a thread that is about to use it on its slot. */
  function Held(pc: Pc, side: Side): Option<nat> {
    if side.Rear? && pc.EnqCas? then Some(pc.k) else if side.Front? && pc.DeqSwap? then Some(pc.k) else None
  }

  predicate Takes(s: Queue, a: Action, side: Side) { a.Run? && a.t in s.pcs && AtProbe(s.pcs[a.t], side) }

  predicate Uses(s: Queue, a: Action, side: Side) { a.Run? && a.t in s.pcs && Held(s.pcs[a.t], side).Some? }

  /** The tickets taken in the first n steps. */
  function Issued(states: seq<Queue>, actions: seq<Action>, side: Side, n: nat): nat
    requires n <= |actions| < |states|
  {
    if n == 0 then 0 else Issued(states, actions, side, n - 1) + One(Takes(states[n - 1], actions[n - 1], side))
  }

  lemma CounterNext(s: Queue, a: Action, side: Side)
    requires Counters(s) && Enabled(s, a)
    ensures Counter(Next(s, a), side) == Counter(s, side) + One(Takes(s, a, side))
    ensures Takes(s, a, side) ==> Held(Next(s, a).pcs[a.t], side) == Some(Counter(s, side) + 1)
    ensures Uses(s, a, side) ==> Held(Next(s, a).pcs[a.t], side) == None
  {
  }

  /** The counter is the number of tickets issued less one. */
  lemma {:induction false} CounterCounts(g: Guards, n: nat, states: seq<Queue>, actions: seq<Action>, side: Side, i: nat)
    requires IsQueueRun(g, states, actions) && Init(n, states[0]) && i < |states|
    ensures Counter(states[i], side) + 1 == Issued(states, actions, side, i)
  {
    if i > 0 {
      CounterCounts(g, n, states, actions, side, i - 1);
      assert Goes(g, states[i - 1], actions[i - 1], states[i]);
      CounterNext(states[i - 1], actions[i - 1], side);
    }
  }

  /** Each add-and-fetch gets the ticket whose number is that of the tickets issued before it. */
  lemma TicketIsNext(g: Guards, n: nat, states: seq<Queue>, actions: seq<Action>, side: Side, i: nat)
    requires IsQueueRun(g, states, actions) && Init(n, states[0]) && i < |actions| && Takes(states[i], actions[i], side)
    ensures actions[i].t in states[i + 1].pcs
    ensures Held(states[i + 1].pcs[actions[i].t], side) == Some(Issued(states, actions, side, i))
  {
    CounterCounts(g, n, states, actions, side, i);
    assert Goes(g, states[i], actions[i], states[i + 1]);
    CounterNext(states[i], actions[i], side);
  }

  lemma {:induction false} CounterGrows(g: Guards, states: seq<Queue>, actions: seq<Action>, side: Side, i: nat, j: nat)
    requires IsQueueRun(g, states, actions) && i <= j < |states|
    ensures Counter(states[i], side) <= Counter(states[j], side)
  {
    if i < j {
      CounterGrows(g, states, actions, side, i, j - 1);
      assert Goes(g, states[j - 1], actions[j - 1], states[j]);
      CounterNext(states[j - 1], actions[j - 1], side);
    }
  }

  /** No ticket is held by two threads, and every held one has been issued. */
  ghost predicate HeldOnce(s: Queue, side: Side) {
    && (forall t, k :: t in s.pcs && Held(s.pcs[t], side) == Some(k) ==> k <= Counter(s, side))
    && (forall t, u, k :: t in s.pcs && u in s.pcs && Held(s.pcs[t], side) == Some(k) == Held(s.pcs[u], side) ==> t == u)
  }

  lemma HeldNext(s: Queue, a: Action, side: Side)
    requires Counters(s) && Enabled(s, a) && HeldOnce(s, side)
    ensures HeldOnce(Next(s, a), side)
  {
    var s' := Next(s, a);
    CounterNext(s, a, side);
    OthersHold(s, a, side);
    forall t, u, k | t in s'.pcs && u in s'.pcs && Held(s'.pcs[t], side) == Some(k) == Held(s'.pcs[u], side) ensures t == u {
      if t != a.t { assert Held(s.pcs[t], side) == Some(k); }
      if u != a.t { assert Held(s.pcs[u], side) == Some(k); }
    }
  }

  lemma OthersHold(s: Queue, a: Action, side: Side)
    requires Counters(s) && Enabled(s, a)
    ensures Next(s, a).pcs.Keys == s.pcs.Keys
    ensures forall t :: t in s.pcs && t != a.t ==> Next(s, a).pcs[t] == s.pcs[t]
    ensures !Takes(s, a, side) ==> Held(Next(s, a).pcs[a.t], side) == None
  {
  }

  lemma {:induction false} HeldAlways(g: Guards, n: nat, states: seq<Queue>, actions: seq<Action>, side: Side, i: nat)
    requires IsQueueRun(g, states, actions) && Init(n, states[0]) && i < |states|
    ensures HeldOnce(states[i], side)
  {
    if i > 0 {
      HeldAlways(g, n, states, actions, side, i - 1);
      assert Goes(g, states[i - 1], actions[i - 1], states[i]);
      HeldNext(states[i - 1], actions[i - 1], side);
    }
  }

  /** Ticket k has been issued and nobody holds it. */
  ghost predicate Spent(s: Queue, side: Side, k: nat) {
    k <= Counter(s, side) && forall t :: t in s.pcs ==> Held(s.pcs[t], side) != Some(k)
  }

  lemma SpentNext(s: Queue, a: Action, side: Side, k: nat)
    requires Counters(s) && Enabled(s, a) && HeldOnce(s, side)
    requires Spent(s, side, k) || (Uses(s, a, side) && Held(s.pcs[a.t], side) == Some(k))
    ensures Spent(Next(s, a), side, k)
  {
    CounterNext(s, a, side);
    OthersHold(s, a, side);
  }

  lemma {:induction false} SpentForever(g: Guards, n: nat, states: seq<Queue>, actions: seq<Action>, side: Side, i: nat, j: nat, k: nat)
    requires IsQueueRun(g, states, actions) && Init(n, states[0]) && i < j < |states|
    requires Uses(states[i], actions[i], side) && Held(states[i].pcs[actions[i].t], side) == Some(k)
    ensures Spent(states[j], side, k)
  {
    assert Goes(g, states[j - 1], actions[j - 1], states[j]);
    HeldAlways(g, n, states, actions, side, j - 1);
    if j - 1 > i { SpentForever(g, n, states, actions, side, i, j - 1, k); }
    SpentNext(states[j - 1], actions[j - 1], side, k);
  }

  /** No ticket is used on its slot twice, by whatever threads. */
  lemma UsedOnce(g: Guards, n: nat, states: seq<Queue>, actions: seq<Action>, side: Side, i: nat, j: nat)
    requires IsQueueRun(g, states, actions) && Init(n, states[0]) && i < j < |actions|
    requires Uses(states[i], actions[i], side) && Uses(states[j], actions[j], side)
    ensures Held(states[i].pcs[actions[i].t], side) != Held(states[j].pcs[actions[j].t], side)
  {
    SpentForever(g, n, states, actions, side, i, j, Held(states[i].pcs[actions[i].t], side).value);
  }
}
