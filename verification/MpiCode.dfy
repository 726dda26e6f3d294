/** The MPI program's queue and the bodies of its two loops on the real fields. */
module MpiCode {
  import opened AtomicFifo
  import opened LocalRing
  import opened MpiProtocol

  class LocalQueue {
    var data: array<int>
    var head: int
    var tail: int

    ghost predicate Valid()
      reads this
    {
      0 < data.Length && -1 <= head <= tail
    }

    ghost function Contents(): Ring
      reads this, data
    {
      Ring(data[..], head, tail)
    }

    /** InitXTaskQueue. */
    constructor (maxSize: nat)
      requires 0 < maxSize
      ensures Valid() && fresh(data) && Contents() == Fresh(maxSize)
    {
      head, tail := -1, -1;
      data := new int[maxSize];
      new;
      for i := 0 to maxSize
        invariant head == -1 && tail == -1 && data.Length == maxSize && fresh(data)
        invariant forall k :: 0 <= k < i ==> data[k] == 0
      {
        data[i] := 0;
      }
    }

    method EnqueueToQ(elem: int)
      requires Valid()
      modifies this, data
      ensures Valid() && data == old(data) && Contents() == Enqueue(old(Contents()), elem)
    {
      tail := tail + 1;
      data[tail % data.Length] := elem;
    }

    /** With nobody else to fill the slot the spin ends at once or never; it is given `turns` turns. The
        result is None as long as the call spins. */
    method DequeueFromQ(turns: nat) returns (elem: Option<int>)
      requires Valid()
      modifies this, data
      ensures Valid() && data == old(data)
      ensures elem.Some? <==> old(Returns(Contents()))
      ensures old(Returns(Contents())) ==> (elem.value, Contents()) == Dequeue(old(Contents()))
      ensures !old(Returns(Contents())) ==> head == old(head) + 1 && tail == old(tail) && data[..] == old(data[..])
    {
      if head == tail {
        return Some(-1);
      }
      head := head + 1;
      var target := head % data.Length;
      var i := 0;
      while data[target] == 0 && i < turns
        invariant i == 0 || data[target] == 0
      {
        i := i + 1;
      }
      if data[target] == 0 {
        return None;
      }
      elem := Some(data[target]);
      data[target] := 0;
    }

    /** True exactly when a dequeue says -1 without taking a ticket. */
    method IsQueueEmpty() returns (b: bool)
      requires Valid()
      ensures b <==> Returns(Contents()) && Dequeue(Contents()) == (-1, Contents())
      ensures forall lo: nat, m: nat :: Holds(Contents(), lo, m) ==> (b <==> lo == m)
    {
      b := head == tail;
    }

    /** True exactly when one more enqueue would leave more elements than there are slots. */
    method IsQueueFull() returns (b: bool)
      requires Valid()
      ensures var r := Enqueue(Contents(), 1); b <==> r.tail - r.head > |r.slots|
      ensures forall lo: nat, m: nat :: Holds(Contents(), lo, m) ==> (b <==> m - lo == data.Length)
    {
      b := tail - data.Length >= head;
    }
  }

  /** main's loop that fills the incoming queue before the barrier. */
  method Prefill(incoming: LocalQueue, total: nat)
    requires incoming.Valid() && incoming.Contents() == Fresh(incoming.data.Length)
    modifies incoming, incoming.data
    ensures incoming.Valid() && incoming.data == old(incoming.data)
    ensures incoming.Contents() == Prefilled(incoming.data.Length, total)
  {
    for i := 0 to total
      invariant incoming.Valid() && incoming.data == old(incoming.data)
      invariant incoming.Contents() == Prefilled(incoming.data.Length, i)
    {
      incoming.EnqueueToQ(i + 1);
    }
  }

  /** The server's locals. */
  class Server {
    const c: Config
    const incoming: LocalQueue
    var count: int
    var counter: int

    constructor (c: Config, incoming: LocalQueue)
      ensures this.c == c && this.incoming == incoming && counter == 0
    {
      this.c, this.incoming := c, incoming;
      count, counter := 0, 0;
    }

    /** One turn of the server's loop between its receive and its send: the request comes back
        unchanged, and the number dequeued is the number of this request. */
    method Turn(request: int) returns (ret: int, reply: int)
      requires incoming.Valid() && 0 <= counter < c.Total() && Holds(incoming.Contents(), counter, c.Total())
      modifies this, incoming, incoming.data
      ensures incoming.Valid() && incoming.data == old(incoming.data)
      ensures reply == request && counter == old(counter) + 1 && ret == counter
      ensures Holds(incoming.Contents(), counter, c.Total())
    {
      count := request;
      DequeueHolds(incoming.Contents(), counter, c.Total());
      var elem := incoming.DequeueFromQ(0);
      ret := elem.value;
      reply := count;
      counter := counter + 1;
    }
  }

  /** The results ring after the numbers that follow the replies have been enqueued. */
  function Stored(r: Ring, replies: seq<int>): (r': Ring)
    requires LocalRing.Ok(r)
    ensures LocalRing.Ok(r') && |r'.slots| == |r.slots|
  {
    if replies == [] then r
    else Enqueue(Stored(r, replies[..|replies| - 1]), replies[|replies| - 1] + 1)
  }

  /** What a worker has sent, and what its count is, after the given replies. */
  predicate Rounds(sent: seq<int>, replies: seq<int>, count: int) {
    && |sent| == |replies|
    && (forall i :: 0 <= i < |sent| ==> sent[i] == if i == 0 then 0 else replies[i - 1] + 1)
    && count == if replies == [] then 0 else replies[|replies| - 1] + 1
  }

  /** A worker's loop: `replies` is what it receives, one message a round, whatever it is; when there is no
      further message it waits. `sent` is what it sends. */
  method WorkerLoop(samples: nat, results: LocalQueue, replies: seq<int>) returns (count: int, sent: seq<int>)
    requires results.Valid()
    modifies results, results.data
    ensures results.Valid() && |sent| <= |replies| && Rounds(sent, replies[..|sent|], count)
    ensures results.Contents() == Stored(old(results.Contents()), replies[..|sent|])
    ensures (forall i :: 0 <= i < |sent| ==> sent[i] < samples) && (samples <= count || |sent| == |replies|)
  {
    count, sent := 0, [];
    while count < samples && |sent| < |replies|
      invariant results.Valid() && results.data == old(results.data)
      invariant |sent| <= |replies| && Rounds(sent, replies[..|sent|], count)
      invariant results.Contents() == Stored(old(results.Contents()), replies[..|sent|])
      invariant forall i :: 0 <= i < |sent| ==> sent[i] < samples
      decreases |replies| - |sent|
    {
      sent := sent + [count];
      count := replies[|sent| - 1];
      count := count + 1;
      assert replies[..|sent|][..|sent| - 1] == replies[..|sent| - 1];
      results.EnqueueToQ(count);
    }
  }

  /** Replies that are the echo of what was sent: the worker counts its rounds. */
  lemma {:induction false} EchoedCount(sent: seq<int>, count: int)
    requires Rounds(sent, sent, count)
    ensures count == |sent| && forall i :: 0 <= i < |sent| ==> sent[i] == i
    decreases |sent|
  {
    if sent != [] {
      var k := |sent| - 1;
      EchoedCount(sent[..k], if k == 0 then 0 else sent[k - 1] + 1);
      assert forall i :: 0 <= i < k ==> sent[..k][i] == i;
    }
  }

  /** And its ring, within the capacity, holds 1, 2, .. . */
  lemma {:induction false} EchoedResults(n: nat, replies: seq<int>)
    requires 0 < n && |replies| <= n && forall i :: 0 <= i < |replies| ==> replies[i] == i
    ensures Holds(Stored(Fresh(n), replies), 0, |replies|)
    decreases |replies|
  {
    if replies != [] {
      var k := |replies| - 1;
      EchoedResults(n, replies[..k]);
      EnqueueHolds(Stored(Fresh(n), replies[..k]), 0, k);
    }
  }

  /** A worker whose replies are the echo, at least NUM_SAMPLES of them: it ends with that count, and with
      1 .. NUM_SAMPLES in its ring. */
  lemma EchoedWorker(samples: nat, n: nat, sent: seq<int>, replies: seq<int>, count: int)
    requires 0 < n && samples <= n && samples <= |replies| && |sent| <= |replies| && replies[..|sent|] == sent
    requires Rounds(sent, replies[..|sent|], count) && (samples <= count || |sent| == |replies|)
    requires forall i :: 0 <= i < |sent| ==> sent[i] < samples
    ensures count == samples == |sent| && Holds(Stored(Fresh(n), replies[..|sent|]), 0, samples)
  {
    EchoedCount(sent, count);
    assert sent != [] ==> sent[|sent| - 1] == |sent| - 1;
    EchoedResults(n, sent);
  }
}
