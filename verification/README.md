# Verified model of the queues and their benchmarks

The repository holds several small concurrent queues in C and programs that measure them. This
project models each queue as a state machine in which every atomic builtin, plain load or store,
lock or semaphore operation is one step, for any number of threads, and proves what each protocol
promises. Linearizability is stated once for all of them, against a reference object: an atomic FIFO
queue (`AtomicFifo`) whose operations take effect at one instant between call and return.

| file | what it models |
|---|---|
| `AtomicFifo`, `AtomicBalance` | the reference object, that it is first in, first out, and which answers it cannot give |
| `TicketRing`, `RingRefinement`, `RingLimits`, `RingCode` | the ticket ring of xtaskqueue.c, squeue.c and squeuemultiple.c, with or without the early "empty" gate |
| `RingAlone` | a whole dequeue that meets nobody |
| `RingGate`, `RingMisled` | the ring with the gate is linearizable, and exactly when |
| `RingExact`, `RingLaps` | exactly when the ring keeps its promise, in any state, and runs in which it does not |
| `RingBenchmark`, `RingProducers` | the LATENCY run: P producers and P consumers on one ring |
| `RoundRobin`, `RoundRobinProgress`, `RoundRobinLimit` | the LATENCY run with one producer that deals to Q rings |
| `SemiBlocking`, `SemiBlockingRefinement`, `SemiBlockingCode`, `SemiBlockingCalls`, `SemiBlockingProgress`, `SemiBlockingAlone`, `SemiBlockingWhole` | semiblockingqueue.c: lock-free puts, a locked getter that reverses the stack in place |
| `AtomicSlots`, `AtomicSlotsTickets`, `AtomicSlotsLimits`, `AtomicSlotsOrder`, `AtomicSlotsLinear`, `AtomicSlotsVisible`, `AtomicSlotsDisorder`, `AtomicSlotsCode` | queue_atomic.c: probing by fetch-and-add with compare-and-swap or exchange |
| `BoundedBuffer`, `BoundedBufferRefinement`, `BoundedBufferProgress`, `BoundedBufferCode` | blockingqueue.c: two semaphores, a mutex and a ring |
| `LocalRing`, `MpiProtocol`, `MpiCode` | the MPI request loop and the ring inside each process |
| `LinkedQueue` | lockfreequeue.c used by one thread, with every allocation and free |
| `RandInterval`, `SortTicks` | the rejection sampler and the exchange sort of the measuring programs |
| `Slots`, `Sums`, `Counting` | arithmetic of slots, sums and counts over threads |

A `..Code` file holds the class with the fields of the C structure. Each of its methods performs the
accesses of one C statement on those fields and is proved to be exactly a step of the state machine;
the theorems are then about the machine, over all its runs. Counters in the machines that the C
structures lack (`ins`, `outs`, `enq`, `deq`, `origin`, `placed`, `taken`, `pushes`, `writes`, `place`)
are history: no step depends on them, except that a call may demand a node or a task that is the
caller's to give.

Where the code does not meet a promise on all inputs, the exact condition is proved both ways:

- The missing full check of the ring: in any state `RingExact.NoLapIsExact`, and by what becomes of the
  elements of the tickets `RingExact.EnqueueHarmIsExact` and `RingExact.DequeueHarmIsExact`, of which a
  caller sees that an element is delivered twice (`RingExact.DeliversTwice`). When isQueueFull would be the
  condition is `RingLimits.FullIsExact`; with a dequeuer inside it is not (`RingLaps.NotFullYetWrong`).
- The early "empty" gate, whose comparison C may load `tail` first: `RingMisled.GateIsExact`.
- A number of queues that does not divide the number of samples: `RoundRobinLimit.DividesIsExact`.
- Overlapping enqueues or a single slot: `AtomicSlotsLimits.ConservationIsExact`.
- Callers of the slot queue that do not take turns: `AtomicSlotsDisorder.LinearizableIsExact` by calls and
  returns, and `AtomicSlotsDisorder.OrderIsExact` by the order of placement, which callers cannot see.
- A ring too small for the MPI run: `LocalRing.CapacityIsExact`.
- queue_free with more than one element: `LinkedQueue.ListQueue.Release`.
- An interval wider than RAND_MAX: `RandInterval.NeverAccepts`.
- A median whose sum wraps: `SortTicks.MeanIsExact`.

No-lapping is a hypothesis of the ring theorems, as the code has no full check: a ticket k >= N, of
either kind, is issued only after dequeue ticket k - N has cleared its slot. It is the weakest such
hypothesis for the matching of tickets (`RingExact.NeverLapsIsExact`), not for what callers see. The
LATENCY harnesses are proved to satisfy it.

## Model

| member | source | states |
|---|---|---|
| `AtomicFifo.FirstInFirstOut` | QueueBenchmarks/xtaskqueue.c:65-105 | the reference object of the linearizability theorems is first in, first out: at every instant of every run, the elements removed are a prefix of those inserted and the rest is the queue |
| `TicketRing.OwnedNext` | QueueBenchmarks/xtaskqueue.c:65-105 | with no hypothesis at all, every step keeps each issued ticket with exactly one thread until that thread is finished with it |
| `TicketRing.EarlierDone` | QueueBenchmarks/xtaskqueue.c:70-70 | a new ticket has its slot to itself: under no lapping all earlier tickets of that slot have been served and cleared |
| `TicketRing.OnlyOwnElement` | QueueBenchmarks/xtaskqueue.c:89-96 | the slot of an unserved ticket k is empty or holds the element of enqueue ticket k, never another one |
| `TicketRing.MatchedTake` | QueueBenchmarks/xtaskqueue.c:68-68 | issuing a ticket of either kind under no lapping keeps the ticket-matching invariant |
| `TicketRing.MatchedStore` | QueueBenchmarks/xtaskqueue.c:70-70 | the store of an enqueue keeps the invariant: it never hits a live element |
| `TicketRing.MatchedClear` | QueueBenchmarks/xtaskqueue.c:99-103 | the clearing of the slot keeps the invariant: it removes the element just delivered and no other |
| `TicketRing.MatchedNext` | QueueBenchmarks/xtaskqueue.c:65-105 | ticket matching: no step under no lapping breaks that dequeue ticket k returns exactly the element of enqueue ticket k, that slots hold exactly the live elements, and that each issued ticket has its slot to itself |
| `RingRefinement.ServesWaiting` | QueueBenchmarks/xtaskqueue.c:68-68 | an enqueue ticket that a dequeuer already waits for inserts and removes in the atomic queue at one instant, the enqueuer first and the dequeuer of the same ticket second |
| `RingRefinement.Inserts` | QueueBenchmarks/squeue.c:99-99 | an enqueue ticket ahead of the dequeuers appends its element to the atomic queue |
| `RingRefinement.TakesDequeueTicket` | QueueBenchmarks/xtaskqueue.c:89-89 | a dequeue ticket removes the front of the atomic queue at once if its element has been inserted, and otherwise changes nothing yet |
| `RingRefinement.TurnedAway` | QueueBenchmarks/squeue.c:121-121 | a dequeue that the gate turns away returns "empty", and the atomic queue is empty at the last load of the gate, unless the gate loaded `tail` first and `tail` has moved since |
| `RingRefinement.EmptyUnlessMisled` | QueueBenchmarks/squeue.c:151-154 | for both orders in which C may load the operands of `head == tail`: when the gate turns a dequeue away, the queue is empty if and only if `tail` is still what the gate loaded |
| `RingRefinement.HeadFirstNeverMisled` | QueueBenchmarks/squeue.c:151-154 | a gate that loads `head` first is never misled, in any run |
| `RingRefinement.Simulation` | QueueBenchmarks/xtaskqueue.c:65-105 | every step of every thread, gated or not, is a step of the atomic queue with the same call or return, on every state that matches, unless it laps or is a misled gate |
| `RingRefinement.MatchedAlways` | QueueBenchmarks/xtaskqueue.c:20-105 | ticket matching holds in every state of every run from InitXTaskQueue that does not lap, for any number of slots and threads |
| `RingGate.JustifiedIsLinearizable` | QueueBenchmarks/squeue.c:91-154 | linearizability by what the gate answers: every run that does not lap, in which each dequeue answered "empty" met an empty queue at some instant of its call, is explained by a run of the atomic FIFO queue with the same calls, returns and results, including dequeuers that took their ticket first |
| `RingGate.ApartJustified` | QueueBenchmarks/squeue.c:151-154 | if no dequeue is called while another one is running, each answer "empty" met an empty queue inside its call, whichever counter the gate loads first |
| `RingGate.SingleSlotJustified` | QueueBenchmarks/squeue.c:151-154 | with a single slot likewise, however many dequeues overlap |
| `RingGate.AnswersByLoads` | QueueBenchmarks/squeue.c:151-154 | in every run, lapping or not, the comparison answers "empty" exactly if what its second access loads equals what its first access in the same call loaded from the other counter; otherwise the dequeue goes on to its ticket |
| `RingGate.Linearizable` | SQueue/squeue.c:91-130 | linearizability: every run that does not lap, in either order of the gate's loads, without a gate, with one that loads `head` first, with a single slot, or if dequeues do not overlap |
| `RingLimits.SlotStable` | QueueBenchmarks/xtaskqueue.c:93-99 | from the last read of the spin to the clearing of the slot, the slot holds the element of the dequeuer's own ticket, and what the second read got is that element |
| `RingLimits.SpinEnds` | QueueBenchmarks/xtaskqueue.c:93-94 | a spinning dequeuer gets through exactly when the element of its ticket is stored and is not zero |
| `RingLimits.ZeroNeverDelivered` | QueueBenchmarks/xtaskqueue.c:93-94 | why elements must not be zero: the dequeue of the ticket of a zero element never finishes, in any run that does not lap |
| `RingLimits.EnqueueAloneIs` | QueueBenchmarks/xtaskqueue.c:65-75 | a whole enqueue that nobody disturbs, step by step, comes to: one ticket, one slot, nothing else changed |
| `RingLimits.DequeueAloneIs` | QueueBenchmarks/xtaskqueue.c:85-96 | a whole ungated dequeue that nobody disturbs arrives at the clearing with the content of the next slot |
| `RingAlone.DequeueAlone` | QueueBenchmarks/squeue.c:117-154 | a whole dequeue that nobody disturbs, in every state of the ring, for every gate and either order of its loads: if head equals tail (and, for the gate that tests it, tail - MAX_SIZE > 0) it answers "empty" and leaves everything as it was; otherwise it takes ticket head + 1 and either delivers and clears its slot or, the slot being zero, spins and changes nothing more |
| `RingLimits.WholeEnqueueIsExact` | QueueBenchmarks/xtaskqueue.c:65-75 | the exact condition for a whole enqueue, whatever the other threads are in the middle of: it keeps the matching if and only if the dequeue ticket one lap earlier has cleared its slot |
| `RingLimits.FullIsExact` | QueueBenchmarks/xtaskqueue.c:128-134 | when isQueueFull decides it: in any matched state, whatever the other threads are in the middle of, a whole enqueue keeps the matching exactly if isQueueFull was false, if and only if the dequeue ticket one lap earlier has not been taken or has cleared its slot |
| `RingLimits.FullLosesOldest` | QueueBenchmarks/squeue.c:93-102 | on a full ring, whatever the other threads are in the middle of, the oldest element is lost: after one more enqueue the next dequeue is about to deliver the newest element instead |
| `RingExact.NoLapIsExact` | QueueBenchmarks/xtaskqueue.c:68-89 | the exact condition in every state, with any number of threads inside operations: a step keeps the matching of tickets if and only if it does not lap |
| `RingExact.NeverLapsIsExact` | QueueBenchmarks/xtaskqueue.c:20-105 | and for every run: all its states match if and only if none of its steps laps |
| `RingExact.LappedEnqueueBreaks` | QueueBenchmarks/xtaskqueue.c:65-75 | a lapping enqueue, once its two accesses and at most one step of the ticket a lap earlier are done, has destroyed an unread element |
| `RingExact.EnqueueHarmIsExact` | QueueBenchmarks/xtaskqueue.c:65-75 | exactly when an enqueue does harm to elements: in any state, after its two accesses and at most one step of ticket k - N, an unread element is out of its slot or a result is not that of its ticket if and only if dequeue ticket k - N had not finished |
| `RingExact.DequeueHarmIsExact` | QueueBenchmarks/xtaskqueue.c:85-96 | exactly when a dequeue does: in any state, its first three accesses bring it to return the element of another ticket if and only if dequeue ticket k - N has not finished and the element of that ticket, not zero, has been issued |
| `RingExact.DeliversTwice` | QueueBenchmarks/xtaskqueue.c:85-103 | what a caller sees of that harm: after at most two accesses more, by the dequeuer of ticket k - N, both dequeues return the same element, while no enqueue has taken ticket k |
| `RingLaps.CatchUp` | QueueBenchmarks/xtaskqueue.c:65-75 | an idle thread can enqueue up to any ticket that a dequeuer already waits for, without a lap |
| `RingLaps.LappedDequeueBreaks` | QueueBenchmarks/xtaskqueue.c:85-96 | a lapping dequeue ticket whose earlier element is still to come does its harm later: some continuation, which does not lap before, brings it to return a wrong element |
| `RingLaps.NotFullYetWrong` | QueueBenchmarks/xtaskqueue.c:128-134 | isQueueFull is no guard while a dequeuer is inside: with a dequeuer past its spin and N elements behind it isQueueFull is false, and yet one more enqueue makes that dequeuer return its element |
| `RingLaps.NotFullIsNotEnough` | QueueBenchmarks/xtaskqueue.c:128-134 | such a state is reached from the start without a lap, for every number of slots |
| `RingMisled.TailFirstMisleads` | QueueBenchmarks/squeue.c:151-154 | from any state between operations with one element in a ring of two slots or more, a run without a lap brings a gate that loads `tail` first to turn a dequeue away as "empty" although the queue is empty at no instant of the call, as the labels of the run show |
| `RingMisled.StartOfTrouble` | QueueBenchmarks/squeue.c:91-154 | such a state is reached from the start without a lap, for every number of slots and for either form of the gate, the one that first tests `tail - MAX_SIZE > 0` included |
| `AtomicBalance.EmptyUnexplained` | QueueBenchmarks/squeue.c:121-121 | the reference object answers "empty" to no dequeue during which at least as many enqueues have returned as dequeues were called |
| `RingMisled.UnexplainedPath` | QueueBenchmarks/squeue.c:151-154 | from the start, a run without a lap whose calls and returns no run of the atomic queue shows, for every number of slots from two on and both forms of a gate that loads `tail` first |
| `RingMisled.GateIsExact` | QueueBenchmarks/squeue.c:91-154 | the exact condition for the gate: all runs that do not lap are linearizable if and only if the ring has no gate that loads `tail` first, or no dequeue is called while another one is running, or there is a single slot |
| `RingCode.XTaskQueue.constructor` | QueueBenchmarks/xtaskqueue.c:20-28 | initialisation leaves the fields in the initial state of the ring machine |
| `RingCode.XTaskQueue.Call` | QueueBenchmarks/squeue.c:151-154 | the entry into an enqueue or a dequeue, with the gate of the variant, moves the ring machine |
| `RingCode.XTaskQueue.EnqueueStep` | QueueBenchmarks/xtaskqueue.c:65-75 | each access of an enqueue to the real fields is exactly a step of the ring machine |
| `RingCode.XTaskQueue.DequeueStep` | QueueBenchmarks/squeue.c:117-141 | each access of a dequeue to the real fields, gate and spin included, is exactly a step of the ring machine |
| `RingCode.InitQueues` | QueueBenchmarks/squeuemultiple.c:34-53 | Q rings of MAX_SIZE / Q zeroed slots each, no two sharing a ring or an array |
| `RingBenchmark.Latency` | QueueBenchmarks/sqmain.c:361-361 | what main sets up, for any number of samples and threads: MAX_SIZE is NUM_SAMPLES, and each of P threads does as many operations as fit, P * m <= NUM_SAMPLES < P * (m + 1), so the harness theorems cover it |
| `RingBenchmark.TicketsBounded` | QueueBenchmarks/sqmain.c:273-280 | in every counted state the tickets taken are at most P * m, and less while somebody is about to take one |
| `RingBenchmark.CountedStep` | QueueBenchmarks/sqmain.c:384-387 | one step of one thread changes the total of tickets of its own side by what that thread took, whatever the number of threads |
| `RingBenchmark.NeverLapsHere` | QueueBenchmarks/sqmain.c:361-405 | the harness discharges the no-lapping hypothesis of the ring theorems for every P and every schedule |
| `RingBenchmark.InvNext` | QueueBenchmarks/sqmain.c:245-298 | the invariant of the whole harness, matching included, survives every step of every thread |
| `RingBenchmark.AllEnqueued` | QueueBenchmarks/sqmain.c:361-405 | once the producers are finished all P * m elements have their tickets and are stored |
| `RingBenchmark.InvAlways` | QueueBenchmarks/sqmain.c:1884-1912 | the invariant of the whole harness holds in every state of every run, so the ring theorems apply to all of them |
| `RingBenchmark.NeverStuck` | QueueBenchmarks/sqmain.c:245-298 | no schedule is stuck: while any thread has work left, some thread can take a step that is not a turn of a spin |
| `RingBenchmark.MeasureDecreases` | QueueBenchmarks/squeue.c:91-154 | every step that is not a turn of a spin decreases the work left over all threads |
| `RingBenchmark.EffectiveBounded` | QueueBenchmarks/squeue.c:91-154 | in every run, steps taken and work left add up to at most 18 * P * m |
| `RingBenchmark.EveryRun` | QueueBenchmarks/sqmain.c:1884-1912 | every schedule: no ticket reaches MAX_SIZE, the empty gate never gets past its first test, and apart from spinning the run has at most 18 * P * m steps |
| `RingBenchmark.FinalState` | QueueBenchmarks/sqmain.c:1904-1912 | at the end head equals tail, every slot is zero, and the results in ticket order are the elements enqueued, hence also as a multiset |
| `RingProducers.InOrderNext` | QueueBenchmarks/sqmain.c:384-387 | every step keeps that the tickets of a producer carry 1, 2, .. in the order of its loop |
| `RingProducers.InOrderAlways` | QueueBenchmarks/sqmain.c:361-405 | in every state of every run each producer has issued the tickets of 1, 2, .. up to where its loop stands |
| `RingProducers.FinalElements` | QueueBenchmarks/sqmain.c:361-405 | at the end of any run the results are an interleaving of the producers' sequences 1 .. NUM_SAMPLES / P, one of each producer, each in order |
| `RoundRobin.DealtFits` | QueueBenchmarks/squeuemultiple.c:36-36 | when Q divides NUM_SAMPLES no ring is ever dealt more elements than it has slots |
| `RoundRobin.ProducerMoves` | QueueBenchmarks/sqmain.c:708-711 | every access of the producer keeps all Q rings matched and each ring's elements the ones dealt to it |
| `RoundRobin.ConsumerMoves` | QueueBenchmarks/sqmain.c:801-807 | every access of consumer j keeps that invariant; its gate never turns it away |
| `RoundRobin.InvAlways` | QueueBenchmarks/squeuemultiple.c:88-141 | when Q divides NUM_SAMPLES that invariant holds in every state of every run from InitQueues |
| `RoundRobin.RoundRobinResults` | QueueBenchmarks/squeuemultiple.c:114-141 | under every interleaving the k-th dequeue of consumer j, once finished, has returned j + 1 + k * Q, and k is below the number of slots, so no slot is used twice |
| `RoundRobin.CardsPartition` | QueueBenchmarks/sqmain.c:711-711 | the consumers' streams partition 1 .. NUM_SAMPLES: each number belongs to exactly one consumer at exactly one position |
| `RoundRobin.NeverStuck` | QueueBenchmarks/sqmain.c:801-807 | while anybody has work left, somebody can take a step that is not a turn of a spin |
| `RoundRobin.FinalState` | QueueBenchmarks/sqmain.c:801-807 | when nobody has work left consumer j has received all its M elements, in order |
| `RoundRobinProgress.MeasureDecreases` | QueueBenchmarks/squeuemultiple.c:88-141 | every access that is not a turn of a spin lowers the work left over all Q rings and the producer, whether Q divides or not |
| `RoundRobinProgress.EffectiveAndLeft` | QueueBenchmarks/sqmain.c:708-807 | in every run, moves that are not turns of a spin and work left add up to at most 18 * NUM_SAMPLES |
| `RoundRobinProgress.EffectiveBounded` | QueueBenchmarks/sqmain.c:708-807 | so apart from spinning every run of the round robin has at most 18 * NUM_SAMPLES moves |
| `RoundRobinLimit.ProducerFirst` | QueueBenchmarks/sqmain.c:708-711 | when Q does not divide NUM_SAMPLES: a run in which the producer laps the first slot of ring 0 |
| `RoundRobinLimit.SomeWrongCard` | QueueBenchmarks/squeuemultiple.c:95-99 | when Q does not divide NUM_SAMPLES: a run in which consumer 0 is about to deliver, for its first dequeue, an element that is not 1 |
| `RoundRobinLimit.NoWrongCard` | QueueBenchmarks/squeuemultiple.c:114-141 | when Q divides NUM_SAMPLES no run ever brings a consumer to deliver a wrong element |
| `RoundRobinLimit.DividesIsExact` | QueueBenchmarks/squeuemultiple.c:34-53 | the exact condition: some interleaving hands a consumer a wrong element if and only if Q does not divide NUM_SAMPLES |
| `SemiBlocking.InvPutLink` | SimpleQueueImpl/semiblockingqueue.c:52-52 | the store to new->next disturbs no list, as the node belongs to the pending put |
| `SemiBlocking.InvPutCas` | SimpleQueueImpl/semiblockingqueue.c:53-55 | a successful compare-and-swap of a put keeps the lists well shaped even if the same top node was popped and put again since the read (no ABA damage) |
| `SemiBlocking.InvGetCas` | SimpleQueueImpl/semiblockingqueue.c:66-70 | the detaching compare-and-swap hands the whole stack, as it is at that instant, to the getter |
| `SemiBlocking.InvRevLink` | SimpleQueueImpl/semiblockingqueue.c:73-74 | the in-place store to head->next cuts the node off the detached list and disturbs nothing else |
| `SemiBlocking.InvRevSetOut` | SimpleQueueImpl/semiblockingqueue.c:75-76 | one turn of the reversal moves the first detached node to the front of the out list |
| `SemiBlocking.InvGetSetOut` | SimpleQueueImpl/semiblockingqueue.c:83-86 | the pop takes exactly the first node off the out list and gives it to the caller |
| `SemiBlocking.InvNext` | SimpleQueueImpl/semiblockingqueue.c:47-90 | shape invariant: under every step of any number of putters and getters, and writes of callers to nodes of their own, the in list, out list and detached list have no cycle and are disjoint from each other, from nodes of pending puts and from returned nodes |
| `SemiBlockingRefinement.ReversalKeepsContent` | SimpleQueueImpl/semiblockingqueue.c:70-79 | locking, detaching and reversing move nodes between the lists but leave the abstract queue as it was |
| `SemiBlockingRefinement.Simulation` | SimpleQueueImpl/semiblockingqueue.c:47-90 | every step leaves the abstract queue alone, appends one node (the successful compare-and-swap of a put), removes the front node (the pop), or answers "empty" (the read of a NULL in_queue) |
| `SemiBlockingRefinement.InvAlways` | SimpleQueueImpl/semiblockingqueue.c:29-90 | the shape invariant holds in every state of every run from ALLOC_QUEUE_ROOT |
| `SemiBlockingRefinement.Linearizable` | SimpleQueueImpl/semiblockingqueue.c:47-90 | linearizability on every run: nodes come out in the order of the putters' compare-and-swaps |
| `SemiBlockingRefinement.NullReadMeansEmpty` | SimpleQueueImpl/semiblockingqueue.c:66-69 | a get about to see a NULL in_queue with an empty out list sees an empty queue at that very read, inside the call |
| `SemiBlockingRefinement.NeverNullAgain` | SimpleQueueImpl/semiblockingqueue.c:65-81 | one access of a call that has read a node from in_queue: it finds a node again, retries, reverses, or goes on to a non-empty out list |
| `SemiBlockingRefinement.NonEmptyDelivers` | SimpleQueueImpl/semiblockingqueue.c:83-89 | one access of a call with a non-empty out list: it goes on to pop the front node of that list |
| `SemiBlockingRefinement.FailureMeansProgress` | SimpleQueueImpl/semiblockingqueue.c:53-70 | a failed compare-and-swap of a getter means that some put has succeeded since its read; one of a putter, that in_queue was written since |
| `SemiBlockingRefinement.NodesDisjoint` | SimpleQueueImpl/semiblockingqueue.c:47-90 | a queued node is queued once and belongs to no caller and no pending put |
| `SemiBlockingCalls.OnlyReturnsNode` | SimpleQueueImpl/semiblockingqueue.c:65-89 | over whole runs: once a call has read a node from in_queue, whatever the others do and however often its compare-and-swap fails, it returns a node and not NULL |
| `SemiBlockingCalls.ReturnHasInstant` | SimpleQueueImpl/semiblockingqueue.c:59-90 | every call that returns has an instant inside it that justifies the result: for NULL, the whole queue was empty at that instant; for a node, it was the front node of the queue and that step took it off |
| `SemiBlockingProgress.LockNeverBlocks` | SimpleQueueImpl/semiblockingqueue.c:62-62 | while any call is unfinished some thread can go on: the caller itself, or, if it waits for the lock, the holder of the lock |
| `SemiBlockingProgress.HolderAdvances` | SimpleQueueImpl/semiblockingqueue.c:62-89 | each access of the holder of the lock, a failing compare-and-swap included, lowers the accesses it still needs |
| `SemiBlockingProgress.OthersDelay` | SimpleQueueImpl/semiblockingqueue.c:47-57 | nobody else adds to them but a put that succeeds, and that at most six |
| `SemiBlockingProgress.HolderBounded` | SimpleQueueImpl/semiblockingqueue.c:59-90 | over whole runs: while a thread holds the lock, the accesses it has made and those it still needs are at most those it needed first and six for each put that has succeeded meanwhile, so the lock is given back |
| `SemiBlockingProgress.PutterAdvances` | SimpleQueueImpl/semiblockingqueue.c:50-55 | each access of a put, a failing compare-and-swap included, lowers the accesses it still needs |
| `SemiBlockingProgress.OthersDelayPut` | SimpleQueueImpl/semiblockingqueue.c:50-70 | nobody else adds to them but a write of in_queue, and that at most three |
| `SemiBlockingProgress.PutterBounded` | SimpleQueueImpl/semiblockingqueue.c:47-57 | over whole runs: all through a put, the accesses it has made and those it still needs are at most those it needed first and three for each write of in_queue meanwhile |
| `SemiBlockingAlone.PutAlone` | SimpleQueueImpl/semiblockingqueue.c:47-57 | from every reachable state, a put that meets nobody returns with its third access, the node behind all others |
| `SemiBlockingAlone.GetAlone` | SimpleQueueImpl/semiblockingqueue.c:59-90 | from every reachable state with the lock free, a get takes the lock with its first access and, if it meets nobody, returns after a bounded number of accesses: NULL from an empty queue, and otherwise the oldest node, which is gone from the queue |
| `SemiBlockingWhole.ListsMove` | SimpleQueueImpl/semiblockingqueue.c:72-77 | one turn of the reversal loop keeps both lists and the queue they stand for |
| `SemiBlockingWhole.QuietRoot.constructor` | SimpleQueueImpl/semiblockingqueue.c:29-40 | every state of the machine in which no stack is being reversed is a root as the whole functions expect it, with the same queue |
| `SemiBlockingWhole.QuietRoot.Put` | SimpleQueueImpl/semiblockingqueue.c:47-57 | queue_put as a whole, with nobody else running: the node is behind all others |
| `SemiBlockingWhole.QuietRoot.Get` | SimpleQueueImpl/semiblockingqueue.c:59-90 | queue_get as a whole, with nobody else running: NULL from an empty queue, otherwise the front node, wherever it was |
| `SemiBlockingWhole.QuietRoot.Refill` | SimpleQueueImpl/semiblockingqueue.c:70-78 | the detaching and the in-place reversal, with its loop, leave the queue as it was and the out list not empty |
| `SemiBlockingCode.QueueRoot.constructor` | SimpleQueueImpl/semiblockingqueue.c:29-40 | the allocated root is the initial state of the machine |
| `SemiBlockingCode.QueueRoot.Call` | SimpleQueueImpl/semiblockingqueue.c:42-45 | a call, or a caller writing a node of its own, is the step of the machine |
| `SemiBlockingCode.QueueRoot.PutPrepare` | SimpleQueueImpl/semiblockingqueue.c:51-52 | the read of in_queue and the store to new->next on the real fields are the steps of the machine |
| `SemiBlockingCode.QueueRoot.PutSwap` | SimpleQueueImpl/semiblockingqueue.c:53-55 | the compare-and-swap of a put, either outcome, is the step of the machine |
| `SemiBlockingCode.QueueRoot.GetLocks` | SimpleQueueImpl/semiblockingqueue.c:62-62 | taking the lock is the step of the machine |
| `SemiBlockingCode.QueueRoot.GetLooks` | SimpleQueueImpl/semiblockingqueue.c:64-69 | the test of out_queue and the read of in_queue are the steps of the machine |
| `SemiBlockingCode.QueueRoot.GetDetaches` | SimpleQueueImpl/semiblockingqueue.c:70-70 | the detaching compare-and-swap, either outcome, is the step of the machine |
| `SemiBlockingCode.QueueRoot.ReverseLoads` | SimpleQueueImpl/semiblockingqueue.c:73-74 | the two loads of the reversal loop are the steps of the machine, on allocated nodes only |
| `SemiBlockingCode.QueueRoot.ReverseLinks` | SimpleQueueImpl/semiblockingqueue.c:74-74 | the store to head->next is the step of the machine |
| `SemiBlockingCode.QueueRoot.ReverseStores` | SimpleQueueImpl/semiblockingqueue.c:75-76 | the store to out_queue and the loop test are the step of the machine |
| `SemiBlockingCode.QueueRoot.PopLoads` | SimpleQueueImpl/semiblockingqueue.c:83-85 | the loads of the pop are the steps of the machine, on an allocated node only |
| `SemiBlockingCode.QueueRoot.PopStores` | SimpleQueueImpl/semiblockingqueue.c:85-85 | the store of the pop is the step of the machine |
| `SemiBlockingCode.QueueRoot.GetUnlocks` | SimpleQueueImpl/semiblockingqueue.c:88-89 | unlocking and returning is the step of the machine |
| `AtomicSlots.SwapsOnlyEmpty` | SimpleQueueImpl/queue_atomic.c:34-38 | although a failed compare-and-swap overwrites the expected value, with one producer and two slots one only ever succeeds on an empty slot |
| `AtomicSlots.InvPlaces` | SimpleQueueImpl/queue_atomic.c:38-42 | a successful compare-and-swap keeps conservation and what the producer knows |
| `AtomicSlots.TakeConserves` | SimpleQueueImpl/queue_atomic.c:54-63 | an exchange of a dequeue keeps conservation, whether it finds a task or not |
| `AtomicSlots.InvNext` | SimpleQueueImpl/queue_atomic.c:32-67 | every step of one producer and any number of consumers keeps the invariant |
| `AtomicSlots.InvAlways` | SimpleQueueImpl/queue_atomic.c:32-67 | the invariant holds in every state of every run with one producer |
| `AtomicSlots.ConservedAlways` | SimpleQueueImpl/queue_atomic.c:32-67 | conservation in every reachable state, across any number of wrap-arounds: each placed task is in exactly one slot or was returned by exactly one dequeue, and nothing else is or was |
| `AtomicSlotsTickets.CounterCounts` | SimpleQueueImpl/queue_atomic.c:37-56 | in every run of any number of producers and consumers, each counter plus one is the number of add-and-fetches made on it |
| `AtomicSlotsTickets.TicketIsNext` | SimpleQueueImpl/queue_atomic.c:37-56 | each add-and-fetch, of an enqueue or a dequeue, before or after a miss, gets the ticket whose number is that of the tickets issued before |
| `AtomicSlotsTickets.CounterGrows` | SimpleQueueImpl/queue_atomic.c:37-56 | neither counter ever goes back |
| `AtomicSlotsTickets.HeldAlways` | SimpleQueueImpl/queue_atomic.c:37-56 | in every state of every run no ticket is held by two threads |
| `AtomicSlotsTickets.UsedOnce` | SimpleQueueImpl/queue_atomic.c:38-57 | in every run no ticket is used on its slot twice, by the same thread or another |
| `AtomicSlotsLimits.OneSlotLoses` | SimpleQueueImpl/queue_atomic.c:38-38 | with a single slot a run exists in which the second enqueue overwrites the first task |
| `AtomicSlotsLimits.TwoProducersLose` | SimpleQueueImpl/queue_atomic.c:34-42 | with two producers and any number of slots a run exists in which one overwrites a task that was never taken |
| `AtomicSlotsLimits.ConservationIsExact` | SimpleQueueImpl/queue_atomic.c:32-67 | the exact condition: all runs conserve the tasks if and only if enqueues do not overlap and there are at least two slots |
| `AtomicSlotsLimits.Overtaken` | SimpleQueueImpl/queue_atomic.c:54-63 | not first in, first out even with one producer: a dequeuer that probed too early takes the second task while the first stays |
| `AtomicSlotsOrder.WindowPlaces` | SimpleQueueImpl/queue_atomic.c:37-42 | under the guards a compare-and-swap succeeds at the first probe, in the slot right behind the stored tasks |
| `AtomicSlotsOrder.WindowTakes` | SimpleQueueImpl/queue_atomic.c:56-63 | under the guards an exchange finds the oldest stored task at the first probe |
| `AtomicSlotsOrder.OrderNext` | SimpleQueueImpl/queue_atomic.c:32-67 | every step of callers that observe the guards keeps the stored tasks in consecutive slots, in order, and the taken ones a prefix of the placed ones |
| `AtomicSlotsOrder.SingleNext` | SimpleQueueImpl/queue_atomic.c:32-67 | the same for a single slot, where one producer with room suffices |
| `AtomicSlotsOrder.FirstOutAlways` | SimpleQueueImpl/queue_atomic.c:32-67 | in every reachable state, across any number of wrap-arounds, tasks are taken in the order in which they were placed, for callers that observe the guards |
| `AtomicSlotsLinear.FirstOutIsLinear` | SimpleQueueImpl/queue_atomic.c:32-67 | every run that takes the tasks in the order in which they were placed is explained by a run of the atomic FIFO queue with the same calls, returns and results |
| `AtomicSlotsLinear.SingleIsLinear` | SimpleQueueImpl/queue_atomic.c:32-67 | with a single slot every run of callers that find room is explained likewise, however many enqueues and dequeues overlap, although tasks may be overwritten and may be taken in another order than they were placed in |
| `AtomicSlotsVisible.SomebodyHolds` | SimpleQueueImpl/queue_atomic.c:32-67 | what every explanation of a run has to show: if the enqueue of x returned before that of y was called, and y has been delivered and x has not, some dequeue that is still running has removed x |
| `AtomicSlotsVisible.InvertedFails` | SimpleQueueImpl/queue_atomic.c:32-67 | so with no dequeue running such an inversion has no explanation |
| `AtomicSlotsDisorder.ProducersOverlap` | SimpleQueueImpl/queue_atomic.c:37-42 | with overlapping enqueues and two slots or more, all other guards observed, a run exists in which a task is delivered, another one that was placed before the first was even handed in is not, and no dequeue is running |
| `AtomicSlotsDisorder.ProducersOverlapSingle` | SimpleQueueImpl/queue_atomic.c:37-42 | with overlapping enqueues and a single slot, tasks may be taken in another order than that of the compare-and-swaps that placed them |
| `AtomicSlotsDisorder.ConsumersOverlap` | SimpleQueueImpl/queue_atomic.c:56-63 | with overlapping dequeues and two slots or more, the second task is delivered before the first, which only a dequeue still running can account for |
| `AtomicSlotsDisorder.ConsumersOverlapFails` | SimpleQueueImpl/queue_atomic.c:56-63 | and the first task is then delivered by another dequeue, called later, so the run has no explanation |
| `AtomicSlotsDisorder.BegunTooEarly` | SimpleQueueImpl/queue_atomic.c:54-63 | with a dequeue begun on an empty queue and two slots or more, the second task is delivered, the first, enqueued and returned before the second was handed in, is not, and nobody is running |
| `AtomicSlotsDisorder.BegunOnFull` | SimpleQueueImpl/queue_atomic.c:35-43 | with an enqueue begun on a full queue and two slots or more, likewise: what the failed compare-and-swap left to expect makes the task land out of turn |
| `AtomicSlotsDisorder.BegunOnFullSingle` | SimpleQueueImpl/queue_atomic.c:35-43 | with an enqueue begun on a full queue of a single slot, likewise |
| `AtomicSlotsDisorder.LinearizableIsExact` | SimpleQueueImpl/queue_atomic.c:32-67 | the exact condition for first in, first out by calls and returns, for every choice of guards and every number of slots: all runs are linearizable if and only if enqueues are begun only with room and, with two slots or more, neither enqueues nor dequeues overlap and dequeues are begun only with a task stored |
| `AtomicSlotsDisorder.OrderIsExact` | SimpleQueueImpl/queue_atomic.c:32-67 | the exact condition for the order of placement, from compare-and-swap to exchange, which callers cannot see: the same, but with one slot enqueues must not overlap either |
| `AtomicSlotsCode.HitsIffRoom` | SimpleQueueImpl/queue_atomic.c:34-43 | on distinct tasks in two slots or more, an enqueue alone ever finds what it expects if and only if its first slot is empty or two cyclically adjacent slots are, and then within one lap of probes |
| `AtomicSlotsCode.HitMeans` | SimpleQueueImpl/queue_atomic.c:34-38 | on distinct tasks in two slots or more, a probe finds what it expects exactly when its slot is empty and it is the first probe or the one before was found empty too |
| `AtomicSlotsCode.HitSingle` | SimpleQueueImpl/queue_atomic.c:34-38 | in a single slot the second probe of an enqueue always succeeds and overwrites what the first has found |
| `AtomicSlotsCode.FindsIffAny` | SimpleQueueImpl/queue_atomic.c:54-63 | a dequeue alone ever finds a task if and only if some slot holds one, and then within one lap of probes |
| `AtomicSlotsCode.AtomicQueue.constructor` | SimpleQueueImpl/queue_atomic.c:8-21 | the fields start in the initial state of the machine |
| `AtomicSlotsCode.AtomicQueue.Call` | SimpleQueueImpl/queue_atomic.c:34-34 | entering an enqueue or a dequeue is the step of the machine |
| `AtomicSlotsCode.AtomicQueue.EnqueueStep` | SimpleQueueImpl/queue_atomic.c:37-42 | the add-and-fetch and the compare-and-swap on the real slots, failure writing back the expected value, are the steps of the machine |
| `AtomicSlotsCode.AtomicQueue.DequeueStep` | SimpleQueueImpl/queue_atomic.c:54-63 | the add-and-fetch and the exchange on the real slots are the steps of the machine |
| `AtomicSlotsCode.AtomicQueue.ProbeAlone` | SimpleQueueImpl/queue_atomic.c:35-43 | one turn of the loop alone either places its element at the hit or leaves everything but the counter and the expected value alone |
| `AtomicSlotsCode.AtomicQueue.EnqueueAlone` | SimpleQueueImpl/queue_atomic.c:32-47 | the whole loop alone, on any slots: it stores at the first probe that finds what it expects and changes no other slot; until then it goes on and changes none; on distinct tasks in two slots or more it ends within N probes if there is room, and after any number of turns is still in its loop if there is none |
| `AtomicSlotsCode.AtomicQueue.TakeAlone` | SimpleQueueImpl/queue_atomic.c:56-57 | one turn of the loop of a dequeue alone: it empties the slot at the next place of front and has what was in it |
| `AtomicSlotsCode.AtomicQueue.DequeueAlone` | SimpleQueueImpl/queue_atomic.c:49-67 | the whole loop alone: it returns the first task at or after the next place of front, empties that slot and changes no other, and leaves front there; it ends within one lap if any slot holds a task, and otherwise goes on and changes nothing but front |
| `BoundedBuffer.BalancedNext` | SimpleQueueImpl/blockingqueue.c:28-54 | the counting invariant of both semaphores survives every step of any number of threads |
| `BoundedBuffer.StoreHitsNoUnread` | SimpleQueueImpl/blockingqueue.c:33-33 | the store of an enqueue never hits the slot of an unread task |
| `BoundedBuffer.ReadFindsOldest` | SimpleQueueImpl/blockingqueue.c:46-46 | the read of a dequeue finds the oldest unread task, never an empty slot |
| `BoundedBuffer.OrderedNext` | SimpleQueueImpl/blockingqueue.c:33-46 | every step keeps the unread tasks in their slots and the tasks read a prefix of the tasks stored |
| `BoundedBuffer.MutexNext` | SimpleQueueImpl/blockingqueue.c:31-34 | every step keeps that exactly the lock's holder is between lock and unlock and the plain increments of rear and front lose nothing |
| `BoundedBuffer.InvNext` | SimpleQueueImpl/blockingqueue.c:28-54 | all of this together is kept by every step |
| `BoundedBufferRefinement.Simulation` | SimpleQueueImpl/blockingqueue.c:28-54 | every step is a step of the atomic FIFO queue: an enqueue takes effect at its store, a dequeue at its read |
| `BoundedBufferRefinement.InvAlways` | SimpleQueueImpl/blockingqueue.c:4-54 | the invariant holds in every state of every run from create_queue_blocking |
| `BoundedBufferRefinement.Linearizable` | SimpleQueueImpl/blockingqueue.c:28-54 | linearizability on every run of any number of producers and consumers |
| `BoundedBufferRefinement.StuckExactly` | SimpleQueueImpl/blockingqueue.c:30-51 | the threads are stuck if and only if all unfinished calls are enqueues waiting on a full buffer or all are dequeues waiting on an empty one; never a mix, never at the mutex |
| `BoundedBufferRefinement.MutexNeverBlocks` | SimpleQueueImpl/blockingqueue.c:31-50 | while any unfinished call is past its semaphore, some thread can step |
| `BoundedBufferProgress.EachAccessCounts` | SimpleQueueImpl/blockingqueue.c:28-54 | each access of a thread is one of those its call still needs, a call begins with seven of them, and no access moves another thread |
| `BoundedBufferProgress.CallAdvances` | SimpleQueueImpl/blockingqueue.c:28-54 | in every run, all through a call, the accesses made and those still needed add up to those needed at first |
| `BoundedBufferProgress.CallTakesSeven` | SimpleQueueImpl/blockingqueue.c:28-54 | in every run, whatever the others do, a call has returned exactly when its thread has made seven accesses |
| `BoundedBufferProgress.EnqueueAlone` | SimpleQueueImpl/blockingqueue.c:28-38 | with a space and the mutex free, an enqueue that meets nobody is done after seven accesses: the task is in the slot behind the last one, a space is used, a task is posted, nothing else is changed |
| `BoundedBufferProgress.DequeueAlone` | SimpleQueueImpl/blockingqueue.c:40-54 | with a task and the mutex free, a dequeue that meets nobody returns the oldest task with its seventh access, a task is used, a space is posted, nothing else is changed |
| `BoundedBufferCode.BlockingQueue.constructor` | SimpleQueueImpl/blockingqueue.c:4-17 | the fields start in the initial state of the machine |
| `BoundedBufferCode.BlockingQueue.Call` | SimpleQueueImpl/blockingqueue.c:28-30 | entering a call is the step of the machine |
| `BoundedBufferCode.BlockingQueue.EnqueueStep` | SimpleQueueImpl/blockingqueue.c:28-38 | each access of an enqueue to the real fields is the step of the machine and keeps the invariant |
| `BoundedBufferCode.BlockingQueue.DequeueStep` | SimpleQueueImpl/blockingqueue.c:40-54 | each access of a dequeue to the real fields is the step of the machine and keeps the invariant |
| `LocalRing.PrefilledHolds` | mpi_queue/main.c:122-125 | within the capacity, the loop before the barrier leaves exactly 1 .. m in the ring, in order |
| `LocalRing.DequeueHolds` | mpi_queue/xtaskqueue.c:85-106 | a dequeue from a ring that holds lo + 1 .. m comes back, with lo + 1, or with -1 exactly when the ring is empty |
| `LocalRing.CapacityIsExact` | mpi_queue/xtaskqueue.c:65-106 | the exact capacity bound: after the loop that enqueues 1 .. m, m dequeues deliver 1 .. m in order if and only if m is at most MAX_SIZE |
| `MpiProtocol.ServeKeeps` | mpi_queue/main.c:84-84 | receiving a request, from whichever worker, keeps the protocol invariant |
| `MpiProtocol.TakeKeeps` | mpi_queue/main.c:86-86 | the server's next dequeue never spins for ever and returns the number of replies sent so far plus one |
| `MpiProtocol.ReplyKeeps` | mpi_queue/main.c:88-89 | sending the reply keeps the invariant; the counter stays the number of replies sent to all workers |
| `MpiProtocol.WorkKeeps` | mpi_queue/main.c:97-106 | a step of a worker keeps the invariant; its results ring never overflows |
| `MpiProtocol.InvNext` | mpi_queue/main.c:77-107 | the protocol invariant survives every step, whatever the order of delivery |
| `MpiProtocol.NeverStuck` | mpi_queue/main.c:81-106 | no reachable state that is not final is stuck |
| `MpiProtocol.NobodyPassedOver` | mpi_queue/main.c:81-106 | until it has finished, every worker can go on itself, or the server can receive its request next, or the server is busy and can go on |
| `MpiProtocol.AllSent` | mpi_queue/main.c:81-91 | when all workers have finished the server has stopped |
| `MpiProtocol.MeasureStep` | mpi_queue/main.c:81-106 | every step takes exactly one off the work left over all workers |
| `MpiProtocol.RunKeeps` | mpi_queue/main.c:77-125 | in every state of every run the invariant holds, and steps taken and work left add up to 6 * NUM_SAMPLES for each worker |
| `MpiProtocol.EveryRun` | mpi_queue/main.c:77-107 | every run, for every world size within the capacity: the j-th dequeue of the server returns j, never -1; each worker has at most one message out and it carries the worker's count; the run can go on exactly until 6 * NUM_SAMPLES steps for each worker, where it is final |
| `MpiProtocol.FinalResults` | mpi_queue/main.c:97-106 | at the end each worker's results ring holds 1 .. NUM_SAMPLES in order and the server's ring is empty |
| `MpiCode.LocalQueue.constructor` | mpi_queue/xtaskqueue.c:20-28 | the loop that zeroes the slots gives the fresh ring |
| `MpiCode.LocalQueue.EnqueueToQ` | mpi_queue/xtaskqueue.c:65-75 | the real fields follow the ring of values |
| `MpiCode.LocalQueue.DequeueFromQ` | mpi_queue/xtaskqueue.c:85-106 | the real fields follow the ring of values, -1 on an empty queue included; where the slot is zero the call has taken its ticket and spins for any number of turns |
| `MpiCode.LocalQueue.IsQueueEmpty` | mpi_queue/xtaskqueue.c:116-119 | true exactly when a dequeue answers -1 without taking a ticket; in the ring of the MPI run, when it holds nothing |
| `MpiCode.LocalQueue.IsQueueFull` | mpi_queue/xtaskqueue.c:129-135 | true exactly when one more enqueue would leave more elements than slots; in the ring of the MPI run, when it holds MAX_SIZE elements |
| `MpiCode.Prefill` | mpi_queue/main.c:122-125 | the loop before the barrier |
| `MpiCode.Server.Turn` | mpi_queue/main.c:84-89 | one turn of the server's loop: the reply is the request, the number dequeued is the turn's own number |
| `MpiCode.WorkerLoop` | mpi_queue/main.c:94-107 | whatever the worker receives: it sends 0 and then the successor of each reply, stores those successors in order, and goes on exactly while its count is below NUM_SAMPLES and there is a message |
| `MpiCode.EchoedWorker` | mpi_queue/main.c:94-107 | on the echo of what it sends, the worker's loop ends with count NUM_SAMPLES, having sent as many messages, and with 1 .. NUM_SAMPLES in its ring |
| `LinkedQueue.PushedChain` | SimpleQueueImpl/lockfreequeue.c:84-104 | linking a node and its cell behind the tail gives a chain again, with one more link and nothing else live |
| `LinkedQueue.PoppedOnly` | SimpleQueueImpl/lockfreequeue.c:161-166 | taking the only element frees the old dummy and one cell, and what is left is a chain of just the new dummy |
| `LinkedQueue.PoppedFirst` | SimpleQueueImpl/lockfreequeue.c:171-176 | taking one of several frees that element's node and cell, and what is left is a chain |
| `LinkedQueue.ListQueue.constructor` | SimpleQueueImpl/lockfreequeue.c:51-75 | the empty queue: one node, one cell |
| `LinkedQueue.ListQueue.LiveCount` | SimpleQueueImpl/lockfreequeue.c:51-183 | between operations exactly 1 + length nodes and 1 + length cells are allocated |
| `LinkedQueue.ListQueue.Push` | SimpleQueueImpl/lockfreequeue.c:77-115 | qpush appends its value, with addresses from malloc that may have been freed before |
| `LinkedQueue.ListQueue.LinkBehind` | SimpleQueueImpl/lockfreequeue.c:84-115 | the loop of qpush takes exactly one turn; helping branch and retries are dead; every access is to an allocated object |
| `LinkedQueue.ListQueue.Pop` | SimpleQueueImpl/lockfreequeue.c:117-183 | qpop returns NULL on an empty queue and leaves it empty, otherwise it removes and returns the oldest value |
| `LinkedQueue.ListQueue.TakeFirst` | SimpleQueueImpl/lockfreequeue.c:125-183 | the loop of qpop takes exactly one turn; the refill for a zero count, the helping branch and the retries are dead; every access and every free is of an allocated object |
| `LinkedQueue.ListQueue.FreeEnds` | SimpleQueueImpl/lockfreequeue.c:191-201 | the frees of queue_free are of allocated objects, each once |
| `LinkedQueue.ListQueue.Release` | SimpleQueueImpl/lockfreequeue.c:185-202 | queue_free releases everything if and only if at most one element remains; otherwise length - 1 nodes and cells stay allocated |
| `RandInterval.Sample` | QueueBenchmarks/sqmain.c:1680-1694 | the call returns at the first draw below RAND_MAX - RAND_MAX % range, with the value of the interval whose offset o from min has o * (RAND_MAX / range) <= draw < (o + 1) * (RAND_MAX / range); it divides by zero exactly when min is the successor of max modulo 2^32; it is still drawing exactly when no draw was below |
| `RandInterval.WholeRounds` | QueueBenchmarks/sqmain.c:1683-1684 | the limit accepts all whole rounds of `range` draws that fit below RAND_MAX, and what it rejects is less than one more round |
| `RandInterval.GivesMeans` | QueueBenchmarks/sqmain.c:1689-1693 | the draws for which the code returns v are those of its bucket, counted in steps of RAND_MAX / range from min |
| `RandInterval.Bucket` | QueueBenchmarks/sqmain.c:1693-1693 | no accepted draw falls outside the interval |
| `RandInterval.Equidistributed` | QueueBenchmarks/sqmain.c:1682-1693 | each value of the interval is the result of exactly RAND_MAX / range accepted draws, the consecutive ones of its bucket |
| `RandInterval.MostAccepted` | QueueBenchmarks/sqmain.c:1684-1691 | the limit is more than half of RAND_MAX, so at least half of the RAND_MAX + 1 possible draws are accepted |
| `RandInterval.NeverAccepts` | QueueBenchmarks/sqmain.c:1689-1691 | the exact condition: some draw is accepted if and only if the interval has at most RAND_MAX values; otherwise the loop never ends |
| `RandInterval.DividesByZero` | QueueBenchmarks/sqmain.c:1682-1683 | the caller's condition for the division by zero: min is the successor of max modulo 2^32; with min at most max, only the interval of all 32-bit values |
| `SortTicks.Exchanged` | stlqueue/src/stlqueue.cpp:54-59 | one exchange keeps the samples, the sorted part, and the least so far at position i |
| `SortTicks.Sort` | stlqueue/src/stlqueue.cpp:48-63 | for every length the array ends sorted and a permutation of its input |
| `SortTicks.CountsOfPermutation` | stlqueue/src/stlqueue.cpp:48-63 | how many samples are below or above a value does not depend on their order |
| `SortTicks.RankUnique` | stlqueue/src/stlqueue.cpp:111-115 | at most one value has a given rank among the samples, so the positions read are well defined |
| `SortTicks.SortedByRank` | stlqueue/src/stlqueue.cpp:96-115 | in any sorted permutation of the samples, position p holds the sample of rank p |
| `SortTicks.Extremes` | stlqueue/src/stlqueue.cpp:111-115 | the samples of the first and the last rank are exactly the minimum and the maximum |
| `SortTicks.MeanIsExact` | stlqueue/src/stlqueue.cpp:133-136 | the mean of the two middle samples, computed with a sum that wraps, lies between them if and only if the sum does not wrap |
| `SortTicks.Summarise` | stlqueue/src/stlqueue.cpp:96-141 | the minimum, the maximum and the median read from the sorted array are those of the original samples; unless the sum of the two middle ones wraps, at most half of the samples lie on either side of the median |

## Left out

Assumptions of the model:

- Memory is sequentially consistent; the relaxed orderings of queue_atomic.c and the absence of fences elsewhere are not modelled, and the padding bytes that the 24-byte compare-and-swap also compares are not there.
- Counters do not pass INT_MAX and malloc does not fail.
- The slots of queue_atomic.c start out equal to EmptyTask, although the code takes them from malloc; each task has a non-zero id and is enqueued once; the size passed equals QUEUE_SIZE, which the index uses.
- The blocking queue is created with size == QUEUE_SIZE > 0, as main.c does; its index uses QUEUE_SIZE and not its capacity.
- Callers of queue_put put only nodes they own, and write only to those.
- MPI sends are buffered and the messages of one worker keep their order.

Members that are weaker than the code, or of another form:

- RingCode.XTaskQueue.DequeueStep: one turn of the spin is one step; that a spin ends is RingLimits.SpinEnds and the harness theorems.
- MpiCode.LocalQueue.DequeueFromQ: the spin is given a number of turns; with nobody else to fill the slot it ends at once or never.
- MpiCode.WorkerLoop: what it receives is a parameter; that it is the echo, as MpiCode.EchoedWorker asks, is MpiProtocol.EveryRun.
- SemiBlockingCode.QueueRoot.Call: nodes are addresses in a memory map, not objects of a class, so that any of them may be put again.
- LinkedQueue.ListQueue.Push: memory is a map from addresses to nodes and cells, so that use after free shows as a missing key; the value returned by malloc is a parameter.
- RoundRobin.RoundRobinResults: for 0 < Q <= NUM_SAMPLES; with more queues than samples the rings would have no slot.
- RandInterval.Sample: the results of rand() are a parameter, and the call may outlast them.
- SortTicks.Summarise: the division by 2.0 is exact, where a double rounds from 2^53 on; the subtraction of the timer overhead is not modelled.
- AtomicSlotsCode.AtomicQueue.EnqueueAlone: the loop is given a number of turns, any number.
- AtomicSlotsCode.AtomicQueue.DequeueAlone: likewise.
- SemiBlockingWhole.QuietRoot.Put: whole functions on the fields are given for the semi-blocking queue and the slot queue only; those of the ring and of the blocking queue are their accesses in the order of the machine.

Not modelled:

- The THROUGHPUT loops: they are bounded by time and may lap the rings.
- Concurrent use of lockfreequeue.c, which its own comments mark "FIX THIS": its helping branch stores a node where a cell is expected.
- basicqueue.c and the ck, liblfds, liburcu and boost queues: library code that is not part of this model.
- locks.c, whose locks are local to each thread, and queue.c, the ring of blockingqueue.c without its synchronisation.
- Timers, CPU pinning, argument parsing, printing and files; averages in floating point; qsort with cmpfunc.
- Disposal of the array queues, and ClearQueue.
