/** queue_put and queue_get, executed one shared-memory access at a time on the root's fields. Node
    addresses index the memory `next`, the field of every node. */
module SemiBlockingCode {
  import opened AtomicFifo
  import opened SemiBlocking

  class QueueRoot {
    var inQueue: Link
    var outQueue: Link
    var lock: Option<Tid>
    var next: map<Node, Link>
    var pcs: map<Tid, Pc>  // each thread's program point and locals
    var pushes: nat        // history: successful puts
    var writes: nat        // history: writes to inQueue
    ghost var queue: Queue

    ghost predicate Valid()
      reads this
    {
      Mirrors(queue) && Inv(queue)
    }

    /** The fields are those of q. */
    ghost predicate Mirrors(q: Queue)
      reads this
    {
      && q.inq == inQueue && q.outq == outQueue && q.lock == lock
      && q.next == next && q.pcs == pcs && q.pushes == pushes && q.writes == writes
    }

    /** ALLOC_QUEUE_ROOT. */
    constructor (memory: map<Node, Link>, threads: set<Tid>)
      ensures Valid() && Init(queue) && queue.next == memory && queue.pcs.Keys == threads
    {
      inQueue, outQueue, lock, next := None, None, None, memory;
      pcs, pushes, writes := map t | t in threads :: Idle, 0, 0;
      queue := Queue(None, None, None, memory, map t | t in threads :: Idle, [], [], [],
                     map n | n in memory :: Free, [], [], 0, 0);
    }

    /** The machine takes the step that the fields have taken. */
    ghost method Follow(a: Action)
      requires Inv(queue) && Enabled(queue, a) && Mirrors(Next(queue, a))
      modifies this`queue
      ensures Valid() && queue == Next(old(queue), a)
    {
      InvNext(queue, a);
      queue := Next(queue, a);
    }

    /** A call, or a caller writing a node of its own as INIT_QUEUE_HEAD does. */
    method Call(a: Action)
      requires Valid() && !a.Run? && Enabled(queue, a)
      modifies this
      ensures Valid() && queue == Next(old(queue), a)
    {
      match a {
        case CallPut(t, n) => pcs := pcs[t := PutRead(n)];
        case CallGet(t) => pcs := pcs[t := GetLock];
        case Scribble(n, x) => next := next[n := x];
      }
      Follow(a);
    }

    /** queue_put: read `in_queue`, then link the node to what was read. */
    method PutPrepare(t: Tid)
      requires Valid() && t in pcs && (pcs[t].PutRead? || pcs[t].PutLink?)
      modifies this
      ensures Valid() && queue == Next(old(queue), Run(t))
    {
      match pcs[t] {
        case PutRead(n) => pcs := pcs[t := PutLink(n, inQueue, writes)];
        case PutLink(n, seen, w) =>
          next := next[n := seen];
          pcs := pcs[t := PutCas(n, seen, w)];
      }
      Follow(Run(t));
    }

    /** queue_put: the compare-and-swap; on failure start over. */
    method PutSwap(t: Tid)
      requires Valid() && t in pcs && pcs[t].PutCas?
      modifies this
      ensures Valid() && queue == Next(old(queue), Run(t))
    {
      var n := pcs[t].n;
      if inQueue == pcs[t].seen {
        inQueue, pushes, writes := Some(n), pushes + 1, writes + 1;
        pcs := pcs[t := Idle];
      } else {
        pcs := pcs[t := PutRead(n)];
      }
      Follow(Run(t));
    }

    /** queue_get: take the lock. */
    method GetLocks(t: Tid)
      requires Valid() && t in pcs && pcs[t].GetLock? && lock == None
      modifies this
      ensures Valid() && queue == Next(old(queue), Run(t))
    {
      lock := Some(t);
      pcs := pcs[t := GetTestOut];
      Follow(Run(t));
    }

    /** queue_get: the test of `out_queue` and the read of `in_queue`. */
    method GetLooks(t: Tid)
      requires Valid() && t in pcs && (pcs[t].GetTestOut? || pcs[t].GetReadIn?)
      modifies this
      ensures Valid() && queue == Next(old(queue), Run(t))
    {
      assert GetterOk(queue, pcs[t]);
      if pcs[t].GetTestOut? {
        pcs := pcs[t := if outQueue == None then GetReadIn(false) else GetReadOut(false)];
      } else {
        pcs := pcs[t := if inQueue == None then GetReadOut(true) else GetCas(inQueue.value, pushes)];
      }
      Follow(Run(t));
    }

    /** queue_get: the compare-and-swap that detaches the stack; on failure read again. */
    method GetDetaches(t: Tid)
      requires Valid() && t in pcs && pcs[t].GetCas?
      modifies this
      ensures Valid() && queue == Next(old(queue), Run(t))
    {
      var h := pcs[t].h;
      if inQueue == Some(h) {
        inQueue, writes := None, writes + 1;
        pcs := pcs[t := RevNext(h)];
      } else {
        pcs := pcs[t := GetReadIn(true)];
      }
      Follow(Run(t));
    }

    /** queue_get, reversal loop: `next = head->next`, and the load of `out_queue`. */
    method ReverseLoads(t: Tid)
      requires Valid() && t in pcs && (pcs[t].RevNext? || pcs[t].RevLoadOut?)
      modifies this
      ensures Valid() && queue == Next(old(queue), Run(t))
    {
      assert GetterOk(queue, pcs[t]);
      match pcs[t] {
        case RevNext(h) => pcs := pcs[t := RevLoadOut(h, next[h])];
        case RevLoadOut(h, nx) => pcs := pcs[t := RevLink(h, nx, outQueue)];
      }
      Follow(Run(t));
    }

    /** queue_get, reversal loop: the store to `head->next`. */
    method ReverseLinks(t: Tid)
      requires Valid() && t in pcs && pcs[t].RevLink?
      modifies this
      ensures Valid() && queue == Next(old(queue), Run(t))
    {
      assert GetterOk(queue, pcs[t]);
      next := next[pcs[t].h := pcs[t].o];
      pcs := pcs[t := RevSetOut(pcs[t].h, pcs[t].nx)];
      Follow(Run(t));
    }

    /** queue_get, reversal loop: the store to `out_queue`, and on to the next node if there is one. */
    method ReverseStores(t: Tid)
      requires Valid() && t in pcs && pcs[t].RevSetOut?
      modifies this
      ensures Valid() && queue == Next(old(queue), Run(t))
    {
      assert GetterOk(queue, pcs[t]);
      outQueue := Some(pcs[t].h);
      pcs := pcs[t := if pcs[t].nx == None then GetReadOut(false) else RevNext(pcs[t].nx.value)];
      Follow(Run(t));
    }

    /** queue_get: the read of `out_queue` and of its first node's `next`. */
    method PopLoads(t: Tid)
      requires Valid() && t in pcs && (pcs[t].GetReadOut? || pcs[t].GetLoadNext?)
      modifies this
      ensures Valid() && queue == Next(old(queue), Run(t))
    {
      assert GetterOk(queue, pcs[t]);
      match pcs[t] {
        case GetReadOut(_) => pcs := pcs[t := if outQueue == None then GetUnlock(None) else GetLoadNext(outQueue.value)];
        case GetLoadNext(h) => pcs := pcs[t := GetSetOut(h, next[h])];
      }
      Follow(Run(t));
    }

    /** queue_get: the store to `out_queue` that pops the node. */
    method PopStores(t: Tid)
      requires Valid() && t in pcs && pcs[t].GetSetOut?
      modifies this
      ensures Valid() && queue == Next(old(queue), Run(t))
    {
      assert GetterOk(queue, pcs[t]);
      outQueue := pcs[t].nx;
      pcs := pcs[t := GetUnlock(Some(pcs[t].h))];
      Follow(Run(t));
    }

    /** queue_get: release the lock and return. */
    method GetUnlocks(t: Tid)
      requires Valid() && t in pcs && pcs[t].GetUnlock?
      modifies this
      ensures Valid() && queue == Next(old(queue), Run(t))
    {
      lock := None;
      pcs := pcs[t := Idle];
      Follow(Run(t));
    }
  }
}
