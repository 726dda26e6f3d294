/** The ring's C functions, executed one shared-memory access at a time on the real fields. */
module RingCode {
  import opened AtomicFifo
  import opened TicketRing
  import Slots

  class XTaskQueue {
    const gate: Gate
    var data: array<int>
    var head: int
    var tail: int
    var pcs: map<Tid, Pc>  // each thread's program point and locals
    ghost var ring: Ring

    ghost predicate Valid()
      reads this, data
    {
      && ring.slots == data[..] && ring.head == head && ring.tail == tail && ring.pcs == pcs
      && Owned(ring)
    }

    /** InitXTaskQueue: both counters to -1, then every slot to zero. */
    constructor (n: nat, gate: Gate, threads: set<Tid>)
      requires 0 < n
      ensures Valid() && fresh(data) && this.gate == gate
      ensures Init(ring) && ring.N() == n && ring.pcs.Keys == threads
    {
      this.gate := gate;
      head, tail := -1, -1;
      data := new int[n];
      pcs := map t | t in threads :: Idle;
      new;
      for i := 0 to n
        invariant data.Length == n && forall k :: 0 <= k < i ==> data[k] == 0
        invariant head == -1 && tail == -1 && fresh(data) && pcs == map t | t in threads :: Idle
      {
        data[i] := 0;
      }
      ring := Ring(data[..], -1, -1, pcs, [], [], seq(n, _ => None));
      assert ring.slots == seq(n, _ => 0);
    }

    /** A thread enters EnqueueToQ or DequeueFromQ. */
    method Call(a: Action)
      requires Valid() && !a.Run? && Enabled(ring, a)
      modifies this
      ensures Valid() && data == old(data) && ring == Next(gate, old(ring), a)
    {
      match a {
      case CallEnqueue(t, v) => pcs := pcs[t := EnqTake(v)];
      case CallDequeue(t) =>
        pcs := pcs[t := gate.Start()];
      }
      ring := Next(gate, ring, a);
      OwnedNext(gate, old(ring), a);
    }

    /** EnqueueToQ: the add-and-fetch, then the store. */
    method EnqueueStep(t: Tid)
      requires Valid() && t in pcs && (pcs[t].EnqTake? || pcs[t].EnqStore?)
      modifies this, data
      ensures Valid() && data == old(data) && ring == Next(gate, old(ring), Run(t))
    {
      match pcs[t] {
      case EnqTake(v) =>
        tail := tail + 1;
        pcs := pcs[t := EnqStore(tail, v)];
      case EnqStore(k, v) =>
        assert HoldsTicket(ring, t, pcs[t]);
        data[k % data.Length] := v;
        pcs := pcs[t := Idle];
      }
      ring := Next(gate, ring, Run(t));
      OwnedNext(gate, old(ring), Run(t));
    }

    /** DequeueFromQ: the gate's loads, the add-and-fetch, one turn of the spin, the second read,
        the clearing of the slot. */
    method DequeueStep(t: Tid)
      requires Valid() && t in pcs && pcs[t] != Idle && !pcs[t].EnqTake? && !pcs[t].EnqStore?
      modifies this, data
      ensures Valid() && data == old(data) && ring == Next(gate, old(ring), Run(t))
    {
      assert HoldsTicket(ring, t, pcs[t]);
      match pcs[t] {
      case GateLapped => pcs := pcs[t := if tail - data.Length > 0 then gate.Compare() else DeqTake];
      case GateHead => pcs := pcs[t := GateTail(head)];
      case GateTail(h) => pcs := pcs[t := if h == tail then Idle else DeqTake];
      case GateTailFirst => pcs := pcs[t := GateHeadLast(tail)];
      case GateHeadLast(x) => pcs := pcs[t := if head == x then Idle else DeqTake];
      case DeqTake =>
        head := head + 1;
        pcs := pcs[t := DeqSpin(head)];
      case DeqSpin(k) =>
        if data[k % data.Length] != 0 {
          pcs := pcs[t := DeqRead(k)];
        }
      case DeqRead(k) => pcs := pcs[t := DeqZero(k, data[k % data.Length])];
      case DeqZero(k, e) =>
        data[k % data.Length] := 0;
        pcs := pcs[t := Idle];
      }
      ring := Next(gate, ring, Run(t));
      OwnedNext(gate, old(ring), Run(t));
    }
  }

  /** InitQueues of squeuemultiple.c: numQueues rings, each with its own array of MAX_SIZE / numQueues slots. */
  method InitQueues(maxSize: nat, numQueues: nat, tailFirst: bool, threads: set<Tid>) returns (queues: seq<XTaskQueue>)
    requires 0 < numQueues <= maxSize
    ensures |queues| == numQueues
    ensures forall j :: 0 <= j < numQueues ==> fresh(queues[j]) && Ready(queues[j], maxSize / numQueues, tailFirst, threads)
    ensures forall i, j :: 0 <= i < j < numQueues ==> queues[i] != queues[j] && queues[i].data != queues[j].data
  {
    Slots.DivPositive(maxSize, numQueues);
    queues := [];
    for i := 0 to numQueues
      invariant |queues| == i
      invariant forall j :: 0 <= j < i ==> fresh(queues[j]) && fresh(queues[j].data) && Ready(queues[j], maxSize / numQueues, tailFirst, threads)
      invariant forall j, k :: 0 <= j < k < i ==> queues[j] != queues[k] && queues[j].data != queues[k].data
    {
      var queue := new XTaskQueue(maxSize / numQueues, WhenLappedAndEqual(tailFirst), threads);
      queues := queues + [queue];
    }
  }

  /** A ring of n slots as it is initialised, with squeuemultiple.c's gate. */
  ghost predicate Ready(queue: XTaskQueue, n: nat, tailFirst: bool, threads: set<Tid>)
    reads queue, queue.data
  {
    queue.Valid() && queue.gate == WhenLappedAndEqual(tailFirst) && Init(queue.ring) && queue.ring.N() == n && queue.ring.pcs.Keys == threads
  }
}
