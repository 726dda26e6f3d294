/** enqueue_blocking and dequeue_blocking, executed one shared access at a time on the real fields. */
module BoundedBufferCode {
  import opened AtomicFifo
  import opened BoundedBuffer

  class BlockingQueue {
    var tasks: array<Task>
    var rear: int
    var front: int
    var lock: Option<Tid>
    var taskSem: nat
    var spacesSem: nat
    var pcs: map<Tid, Pc>  // each thread's program point and locals
    ghost var buffer: Buffer

    ghost predicate Valid()
      reads this, tasks
    {
      Mirrors(buffer) && Inv(buffer)
    }

    /** The fields are those of b. */
    ghost predicate Mirrors(b: Buffer)
      reads this, tasks
    {
      && b.tasks == tasks[..] && b.rear == rear && b.front == front && b.lock == lock
      && b.taskSem == taskSem && b.spacesSem == spacesSem && b.pcs == pcs
    }

    /** create_queue_blocking(QUEUE_SIZE). */
    constructor (size: nat, threads: set<Tid>)
      requires 0 < size
      ensures Valid() && fresh(tasks) && Init(size, buffer) && pcs.Keys == threads
    {
      tasks := new Task[size];
      rear, front, lock, taskSem, spacesSem := 0, 0, None, 0, size;
      pcs := map t | t in threads :: Idle;
      new;
      buffer := Buffer(tasks[..], 0, 0, None, 0, size, pcs, [], []);
      InitInv(size, buffer);
    }

    /** The machine takes the step that the fields have taken. */
    ghost method Follow(a: Action)
      requires Inv(buffer) && Enabled(buffer, a) && Mirrors(Next(buffer, a))
      modifies this`buffer
      ensures Valid() && buffer == Next(old(buffer), a)
    {
      InvNext(buffer, a);
      buffer := Next(buffer, a);
    }

    method Call(a: Action)
      requires Valid() && !a.Run? && Enabled(buffer, a)
      modifies this
      ensures Valid() && tasks == old(tasks) && buffer == Next(old(buffer), a)
    {
      match a {
        case CallEnqueue(t, v) => pcs := pcs[t := EnqWait(v)];
        case CallDequeue(t) => pcs := pcs[t := DeqWait];
      }
      Follow(a);
    }

    /** enqueue_blocking: wait for a space, lock, advance `rear` and store, unlock, post a task. */
    method EnqueueStep(t: Tid)
      requires Valid() && t in pcs && Enabled(buffer, Run(t)) && AtEnqueue(pcs[t])
      modifies this, tasks
      ensures Valid() && tasks == old(tasks) && buffer == Next(old(buffer), Run(t))
    {
      KnowsCounters(buffer, t);
      match pcs[t] {
        case EnqWait(v) => spacesSem, pcs := spacesSem - 1, pcs[t := EnqLock(v)];
        case EnqLock(v) => lock, pcs := Some(t), pcs[t := EnqLoad(v)];
        case EnqLoad(v) => pcs := pcs[t := EnqInc(v, rear + 1)];
        case EnqInc(v, k) => rear, pcs := k, pcs[t := EnqStore(v, k)];
        case EnqStore(v, k) =>
          tasks[k % tasks.Length] := v;
          pcs := pcs[t := EnqUnlock];
        case EnqUnlock => lock, pcs := None, pcs[t := EnqPost];
        case EnqPost => taskSem, pcs := taskSem + 1, pcs[t := Idle];
      }
      Follow(Run(t));
    }

    /** dequeue_blocking: wait for a task, lock, advance `front` and read, unlock, post a space. */
    method DequeueStep(t: Tid)
      requires Valid() && t in pcs && Enabled(buffer, Run(t)) && !AtEnqueue(pcs[t])
      modifies this
      ensures Valid() && tasks == old(tasks) && buffer == Next(old(buffer), Run(t))
    {
      match pcs[t] {
        case DeqWait => taskSem, pcs := taskSem - 1, pcs[t := DeqLock];
        case DeqLock => lock, pcs := Some(t), pcs[t := DeqLoad];
        case DeqLoad => pcs := pcs[t := DeqInc(front + 1)];
        case DeqInc(k) => front, pcs := k, pcs[t := DeqRead(k)];
        case DeqRead(k) => pcs := pcs[t := DeqUnlock(tasks[k % tasks.Length])];
        case DeqUnlock(v) => lock, pcs := None, pcs[t := DeqPost(v)];
        case DeqPost(_) => spacesSem, pcs := spacesSem + 1, pcs[t := Idle];
      }
      Follow(Run(t));
    }
  }

  predicate AtEnqueue(pc: Pc) {
    || pc.EnqWait? || pc.EnqLock? || pc.EnqLoad? || pc.EnqInc? || pc.EnqStore? || pc.EnqUnlock? || pc.EnqPost?
  }
}
