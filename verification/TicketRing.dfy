/** The ticket ring as a state machine: any number of threads, one shared-memory access a step.

    An enqueue takes a ticket by add-and-fetch on `tail` and stores into slot `ticket % N`.
    A dequeue takes a ticket by add-and-fetch on `head`, spins until its slot is not zero,
    reads the slot again and clears it. N is the number of slots. */
module TicketRing {
  import opened AtomicFifo
  import Slots

  /** The early "empty" test at the head of a dequeue: absent, `head == tail`, or
      `tail - N > 0 && head == tail`. C leaves open which side of the equality is loaded first. */
  datatype Gate = Ungated | WhenEqual(tailFirst: bool) | WhenLappedAndEqual(tailFirst: bool) {
    predicate TailFirst() { !Ungated? && tailFirst }
    function Compare(): Pc { if TailFirst() then GateTailFirst else GateHead }
    function Start(): Pc {
      match this
      case Ungated => DeqTake
      case WhenEqual(_) => Compare()
      case WhenLappedAndEqual(_) => GateLapped
    }
  }

  /** What a thread does next, with the local variables it still needs. */
  datatype Pc =
    | Idle
    | EnqTake(v: int)
    | EnqStore(k: nat, v: int)
    | GateLapped
    | GateHead
    | GateTail(h: int)
    | GateTailFirst
    | GateHeadLast(x: int)
    | DeqTake
    | DeqSpin(k: nat)
    | DeqRead(k: nat)
    | DeqZero(k: nat, e: int)

  /** History of one enqueue ticket: the element, the thread, whether the store has happened. */
  datatype EnqTicket = EnqTicket(v: int, owner: Tid, stored: bool)

  /** History of one dequeue ticket: the thread and, once the slot is cleared, the result. */
  datatype DeqTicket = DeqTicket(owner: Tid, result: Option<int>)

  /** The ring (`slots`, `head`, `tail`), the threads, and the history: the tickets issued so
      far and, for each slot, the enqueue ticket whose element it holds. */
  datatype Ring = Ring(slots: seq<int>, head: int, tail: int, pcs: map<Tid, Pc>,
                       enq: seq<EnqTicket>, deq: seq<DeqTicket>, origin: seq<Option<nat>>)
  {
    function N(): nat { |slots| }
  }

  datatype Action = CallEnqueue(t: Tid, v: int) | CallDequeue(t: Tid) | Run(t: Tid)

  /** Slots all zero, both counters at -1, no thread inside an operation. */
  predicate Init(s: Ring) {
    && 0 < s.N() && s.slots == seq(s.N(), _ => 0) && s.head == -1 && s.tail == -1
    && (forall t :: t in s.pcs ==> s.pcs[t] == Idle)
    && s.enq == [] && s.deq == [] && s.origin == seq(s.N(), _ => None)
  }

  predicate DeqHolds(pc: Pc, k: nat) {
    match pc
    case DeqSpin(j) => j == k
    case DeqRead(j) => j == k
    case DeqZero(j, _) => j == k
    case _ => false
  }

  /** A thread that holds a ticket is the ticket's recorded owner. */
  ghost predicate HoldsTicket(s: Ring, t: Tid, pc: Pc) {
    match pc
    case EnqStore(k, v) => k < |s.enq| && s.enq[k] == EnqTicket(v, t, false)
    case GateTail(h) => h <= s.head
    case GateHeadLast(x) => x <= s.tail
    case DeqSpin(k) => k < |s.deq| && s.deq[k] == DeqTicket(t, None)
    case DeqRead(k) => k < |s.deq| && s.deq[k] == DeqTicket(t, None)
    case DeqZero(k, _) => k < |s.deq| && s.deq[k] == DeqTicket(t, None)
    case _ => true
  }

  /** Every issued ticket belongs to exactly one thread until that thread is finished with it.
      This needs no hypothesis about lapping. */
  ghost predicate Owned(s: Ring) {
    && 0 < s.N() && |s.origin| == s.N()
    && s.tail == |s.enq| - 1 && s.head == |s.deq| - 1
    && (forall t :: t in s.pcs ==> HoldsTicket(s, t, s.pcs[t]))
    && (forall k :: 0 <= k < |s.enq| && !s.enq[k].stored ==>
          s.enq[k].owner in s.pcs && s.pcs[s.enq[k].owner] == EnqStore(k, s.enq[k].v))
    && (forall k :: 0 <= k < |s.deq| && s.deq[k].result.None? ==>
          s.deq[k].owner in s.pcs && DeqHolds(s.pcs[s.deq[k].owner], k))
  }

  predicate Enabled(s: Ring, a: Action) {
    a.t in s.pcs && (s.pcs[a.t] == Idle <==> !a.Run?)
  }

  /** One step. */
  ghost function Next(g: Gate, s: Ring, a: Action): Ring
    requires Owned(s) && Enabled(s, a)
  {
    match a
    case CallEnqueue(t, v) => s.(pcs := s.pcs[t := EnqTake(v)])
    case CallDequeue(t) =>
      s.(pcs := s.pcs[t := g.Start()])
    case Run(t) =>
      match s.pcs[t]
      case EnqTake(v) =>
        s.(tail := s.tail + 1, enq := s.enq + [EnqTicket(v, t, false)], pcs := s.pcs[t := EnqStore(s.tail + 1, v)])
      case EnqStore(k, v) =>
        s.(slots := s.slots[k % s.N() := v], pcs := s.pcs[t := Idle],
           enq := s.enq[k := s.enq[k].(stored := true)], origin := s.origin[k % s.N() := Some(k)])
      case GateLapped => s.(pcs := s.pcs[t := if s.tail - s.N() > 0 then g.Compare() else DeqTake])
      case GateHead => s.(pcs := s.pcs[t := GateTail(s.head)])
      case GateTail(h) => s.(pcs := s.pcs[t := if h == s.tail then Idle else DeqTake])
      case GateTailFirst => s.(pcs := s.pcs[t := GateHeadLast(s.tail)])
      case GateHeadLast(x) => s.(pcs := s.pcs[t := if s.head == x then Idle else DeqTake])
      case DeqTake =>
        s.(head := s.head + 1, deq := s.deq + [DeqTicket(t, None)], pcs := s.pcs[t := DeqSpin(s.head + 1)])
      case DeqSpin(k) => if s.slots[k % s.N()] == 0 then s else s.(pcs := s.pcs[t := DeqRead(k)])
      case DeqRead(k) => s.(pcs := s.pcs[t := DeqZero(k, s.slots[k % s.N()])])
      case DeqZero(k, e) =>
        s.(slots := s.slots[k % s.N() := 0], pcs := s.pcs[t := Idle],
           deq := s.deq[k := DeqTicket(t, Some(e))], origin := s.origin[k % s.N() := None])
  }

  /** The call or return that the step shows. A dequeue that the gate turns away returns "empty". */
  ghost function LabelOf(s: Ring, a: Action): Label<int>
    requires Enabled(s, a)
  {
    match a
    case CallEnqueue(t, v) => CallEnq(t, v)
    case CallDequeue(t) => CallDeq(t)
    case Run(t) =>
      match s.pcs[t]
      case EnqStore(_, _) => RetEnq(t)
      case GateTail(h) => if h == s.tail then RetDeq(t, None) else Tau
      case GateHeadLast(x) => if s.head == x then RetDeq(t, None) else Tau
      case DeqZero(_, e) => RetDeq(t, Some(e))
      case _ => Tau
  }

  predicate Done(s: Ring, k: int) {
    0 <= k < |s.deq| && s.deq[k].result.Some?
  }

  /** The element of enqueue ticket k is in its slot and not yet removed. */
  predicate Live(s: Ring, k: int) {
    0 <= k < |s.enq| && s.enq[k].stored && !Done(s, k)
  }

  /** The no-lapping hypothesis on one step: a ticket k >= N, of either kind, is issued only
      after dequeue ticket k - N has cleared its slot. */
  predicate NoLap(s: Ring, a: Action)
    requires a.t in s.pcs
  {
    a.Run? ==>
      match s.pcs[a.t]
      case EnqTake(_) => s.N() <= |s.enq| ==> Done(s, |s.enq| - s.N())
      case DeqTake => s.N() <= |s.deq| ==> Done(s, |s.deq| - s.N())
      case _ => true
  }

  predicate SameSlot(n: nat, j: nat, k: nat)
    requires 0 < n
  {
    j % n == k % n
  }

  /** A dequeuer past its spin has found the element of its own ticket. */
  ghost predicate HasFound(s: Ring, pc: Pc) {
    match pc
    case DeqRead(k) => Live(s, k) && s.enq[k].v != 0
    case DeqZero(k, e) => Live(s, k) && e == s.enq[k].v != 0
    case _ => true
  }

  /** Slot i holds the element of one live ticket that maps to it, or zero. */
  ghost predicate SlotOk(s: Ring, i: nat)
    requires i < s.N() == |s.origin|
  {
    match s.origin[i]
    case None => s.slots[i] == 0
    case Some(k) => Live(s, k) && k % s.N() == i && s.slots[i] == s.enq[k].v
  }

  /** An issued ticket has its slot to itself: earlier tickets of the slot are finished. */
  ghost predicate SlotFree(s: Ring)
    requires 0 < s.N()
  {
    forall j: nat, k: nat :: j < k && (k < |s.enq| || k < |s.deq|) && SameSlot(s.N(), j, k) ==> Done(s, j)
  }

  /** Ticket matching: dequeue ticket k has returned the element of enqueue ticket k, never zero. */
  ghost predicate TicketsMatch(s: Ring) {
    forall k :: Done(s, k) ==> k < |s.enq| && s.enq[k].stored && s.enq[k].v != 0 && s.deq[k].result == Some(s.enq[k].v)
  }

  /** The slots hold exactly the live elements. */
  ghost predicate SlotsHoldLive(s: Ring)
    requires 0 < s.N() == |s.origin|
  {
    && (forall k: nat :: Live(s, k) ==> s.origin[k % s.N()] == Some(k))
    && (forall i :: 0 <= i < s.N() ==> SlotOk(s, i))
  }

  /** What no lapping keeps true. */
  ghost predicate Matched(s: Ring) {
    && Owned(s)
    && SlotFree(s)
    && TicketsMatch(s)
    && (forall t :: t in s.pcs ==> HasFound(s, s.pcs[t]))
    && SlotsHoldLive(s)
  }

  /** The step neither takes a ticket nor writes a slot. */
  predicate OnlyLoads(s: Ring, a: Action)
    requires a.t in s.pcs
  {
    a.Run? ==> !s.pcs[a.t].EnqTake? && !s.pcs[a.t].DeqTake? && !s.pcs[a.t].EnqStore? && !s.pcs[a.t].DeqZero?
  }

  lemma QuietStep(g: Gate, s: Ring, a: Action)
    requires Owned(s) && Enabled(s, a) && OnlyLoads(s, a)
    ensures var pc := Next(g, s, a).pcs[a.t];
      && Next(g, s, a) == s.(pcs := s.pcs[a.t := pc]) && HoldsTicket(s, a.t, pc)
      && !pc.EnqStore? && !s.pcs[a.t].EnqStore? && forall k :: DeqHolds(pc, k) <==> DeqHolds(s.pcs[a.t], k)
  {
    assert HoldsTicket(s, a.t, s.pcs[a.t]);
    assert s.pcs == s.pcs[a.t := s.pcs[a.t]];
  }

  lemma OwnedNext(g: Gate, s: Ring, a: Action)
    requires Owned(s) && Enabled(s, a)
    ensures Owned(Next(g, s, a))
  {
    if OnlyLoads(s, a) {
      QuietStep(g, s, a);
    } else {
      OwnedWrites(g, s, a);
    }
  }

  lemma OwnedWrites(g: Gate, s: Ring, a: Action)
    requires Owned(s) && Enabled(s, a) && !OnlyLoads(s, a)
    ensures Owned(Next(g, s, a))
  {
    assert HoldsTicket(s, a.t, s.pcs[a.t]);
  }

  /** The earlier tickets of the slot of a new ticket k are all finished. */
  lemma EarlierDone(s: Ring, j: nat, k: nat)
    requires Matched(s) && j < k && SameSlot(s.N(), j, k)
    requires k - s.N() < |s.enq| || k - s.N() < |s.deq|
    requires s.N() <= k ==> Done(s, k - s.N())
    ensures Done(s, j)
  {
    Slots.LapApart(j, k, s.N());
    if j < k - s.N() {
      assert SameSlot(s.N(), j, k - s.N());
    }
  }

  /** The element in the slot of an unfinished ticket k can only be that of enqueue ticket k. */
  lemma OnlyOwnElement(s: Ring, k: nat)
    requires Matched(s) && !Done(s, k) && (k < |s.enq| || k < |s.deq|)
    ensures s.origin[k % s.N()] == None || s.origin[k % s.N()] == Some(k)
  {
    assert SlotOk(s, k % s.N());
    match s.origin[k % s.N()]
    case None =>
    case Some(j) =>
      if j < k {
        assert SameSlot(s.N(), j, k);
      } else if k < j {
        assert SameSlot(s.N(), k, j);
      }
  }

  /** Taking a ticket changes no slot and no other ticket. */
  lemma MatchedTake(g: Gate, s: Ring, a: Action)
    requires Matched(s) && Enabled(s, a) && NoLap(s, a)
    requires a.Run? && (s.pcs[a.t].EnqTake? || s.pcs[a.t].DeqTake?)
    ensures Matched(Next(g, s, a))
  {
    var s' := Next(g, s, a);
    OwnedNext(g, s, a);
    assert SlotFree(s') by {
      forall j: nat, k: nat | j < k && (k < |s'.enq| || k < |s'.deq|) && SameSlot(s'.N(), j, k)
        ensures Done(s', j)
      {
        if k >= |s.enq| && k >= |s.deq| {
          EarlierDone(s, j, k);
        }
      }
    }
    forall k ensures Done(s', k) <==> Done(s, k) {}
    forall k ensures Live(s', k) <==> Live(s, k) {}
    forall i | 0 <= i < s.N() ensures SlotOk(s', i) { assert SlotOk(s, i); }
    forall t | t in s'.pcs ensures HasFound(s', s'.pcs[t]) { assert t in s.pcs && HasFound(s, s.pcs[t]); }
  }

  lemma MatchedStore(g: Gate, s: Ring, a: Action)
    requires Matched(s) && Enabled(s, a) && a.Run? && s.pcs[a.t].EnqStore?
    ensures Matched(Next(g, s, a))
  {
    var s', k := Next(g, s, a), s.pcs[a.t].k;
    OwnedNext(g, s, a);
    OnlyOwnElement(s, k);
    assert SlotOk(s, k % s.N()) && HoldsTicket(s, a.t, s.pcs[a.t]);
    forall j ensures Done(s', j) <==> Done(s, j) {}
    assert !Live(s, k) && !Done(s, k);
    forall j ensures Live(s', j) <==> j == k || Live(s, j) {}
    forall i | 0 <= i < s.N() ensures SlotOk(s', i) { assert SlotOk(s, i); }
    forall t | t in s'.pcs ensures HasFound(s', s'.pcs[t]) { assert t in s.pcs && HasFound(s, s.pcs[t]); }
  }

  lemma MatchedClear(g: Gate, s: Ring, a: Action)
    requires Matched(s) && Enabled(s, a) && a.Run? && s.pcs[a.t].DeqZero?
    ensures Matched(Next(g, s, a))
  {
    var s', k := Next(g, s, a), s.pcs[a.t].k;
    OwnedNext(g, s, a);
    assert HasFound(s, s.pcs[a.t]);
    forall j ensures Done(s', j) <==> j == k || Done(s, j) {}
    forall j ensures Live(s', j) <==> j != k && Live(s, j) {}
    forall i | 0 <= i < s.N() ensures SlotOk(s', i) { assert SlotOk(s, i); }
    forall t | t in s'.pcs ensures HasFound(s', s'.pcs[t]) { assert t in s.pcs && HasFound(s, s.pcs[t]); }
  }

  /** Steps that only read shared memory. */
  lemma MatchedQuiet(g: Gate, s: Ring, a: Action)
    requires Matched(s) && Enabled(s, a) && OnlyLoads(s, a)
    ensures Matched(Next(g, s, a))
  {
    var s' := Next(g, s, a);
    OwnedNext(g, s, a);
    QuietStep(g, s, a);
    FoundQuiet(g, s, a);
    forall k ensures Live(s', k) <==> Live(s, k) {}
    forall i | 0 <= i < s.N() ensures SlotOk(s', i) { assert SlotOk(s, i); }
    forall t | t in s'.pcs ensures HasFound(s', s'.pcs[t]) { assert t in s.pcs && HasFound(s, s.pcs[t]); }
  }

  /** What a spin or a second read finds is the element of the reader's own ticket. */
  lemma FoundQuiet(g: Gate, s: Ring, a: Action)
    requires Matched(s) && Enabled(s, a) && OnlyLoads(s, a)
    ensures HasFound(s, Next(g, s, a).pcs[a.t])
  {
    assert HasFound(s, s.pcs[a.t]) && HoldsTicket(s, a.t, s.pcs[a.t]);
    if a.Run? && (s.pcs[a.t].DeqSpin? || s.pcs[a.t].DeqRead?) {
      OnlyOwnElement(s, s.pcs[a.t].k);
      assert SlotOk(s, s.pcs[a.t].k % s.N());
    }
  }

  /** No step that keeps the hypothesis breaks the matching of tickets. */
  lemma MatchedNext(g: Gate, s: Ring, a: Action)
    requires Matched(s) && Enabled(s, a) && NoLap(s, a)
    ensures Matched(Next(g, s, a))
  {
    if a.Run? {
      match s.pcs[a.t]
      case EnqTake(_) => MatchedTake(g, s, a);
      case DeqTake => MatchedTake(g, s, a);
      case EnqStore(_, _) => MatchedStore(g, s, a);
      case DeqZero(_, _) => MatchedClear(g, s, a);
      case _ => MatchedQuiet(g, s, a);
    } else {
      MatchedQuiet(g, s, a);
    }
  }

  lemma InitMatched(s: Ring)
    requires Init(s)
    ensures Matched(s)
  {
  }
}
