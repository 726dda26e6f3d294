/** The MPI request loop: each worker sends its count to the server and waits for the echo; the
    server takes a number off its own ring for every request, from whichever worker it receives one.
    Messages are buffered; those of one worker keep their order, otherwise delivery is free. */
module MpiProtocol {
  import opened LocalRing
  import opened Sums

  /** NUM_SAMPLES, world_size - 1 and MAX_SIZE. */
  datatype Config = Config(samples: nat, workers: nat, maxSize: nat) {
    function Total(): nat { samples * workers }
    predicate Ok() { 0 < maxSize && Total() <= maxSize }
  }

  datatype ServerPc =
    | Receive
    | Take(src: nat, count: int)
    | Reply(src: nat, count: int)
    | Stopped

  datatype WorkerPc = Send | Wait | Store | Finished

  /** A worker process, with the messages under way from it and to it. */
  datatype Worker = Worker(pc: WorkerPc, count: int, results: Ring, requests: seq<int>, replies: seq<int>)

  /** The server process and the workers; `taken` records what the server's dequeues returned. */
  datatype World = World(server: ServerPc, counter: int, incoming: Ring, taken: seq<int>, workers: seq<Worker>)

  datatype Action = Serve(w: nat) | Proceed | Work(w: nat)

  /** The loop tests of server and worker. */
  function ServerTest(c: Config, counter: int): ServerPc { if counter < c.Total() then Receive else Stopped }

  function WorkerTest(c: Config, count: int): WorkerPc { if count < c.samples then Send else Finished }

  /** All processes past the first barrier: the rings prefilled, the loops about to start. */
  ghost predicate Init(c: Config, s: World)
    requires c.Ok()
  {
    && s.server == ServerTest(c, 0) && s.counter == 0 && s.incoming == Prefilled(c.maxSize, c.Total()) && s.taken == []
    && |s.workers| == c.workers
    && forall w :: 0 <= w < c.workers ==> s.workers[w] == Worker(WorkerTest(c, 0), 0, Fresh(c.maxSize), [], [])
  }

  predicate Enabled(s: World, a: Action) {
    match a
    case Serve(w) => s.server == Receive && w < |s.workers| && s.workers[w].requests != []
    case Proceed => s.server.Reply? || (s.server.Take? && LocalRing.Ok(s.incoming) && Returns(s.incoming))
    case Work(w) =>
      w < |s.workers| && match s.workers[w].pc
        case Send => true
        case Wait => s.workers[w].replies != []
        case Store => LocalRing.Ok(s.workers[w].results)
        case Finished => false
  }

  /** One step of a worker. */
  function WorkerStep(c: Config, x: Worker): Worker
    requires x.pc.Wait? ==> x.replies != []
    requires x.pc.Store? ==> LocalRing.Ok(x.results)
  {
    match x.pc
    case Send => x.(requests := x.requests + [x.count], pc := Wait)
    case Wait => x.(count := x.replies[0] + 1, replies := x.replies[1..], pc := Store)
    case Store => x.(results := Enqueue(x.results, x.count), pc := WorkerTest(c, x.count))
    case Finished => x
  }

  function Next(c: Config, s: World, a: Action): World
    requires Enabled(s, a)
  {
    match a
    case Serve(w) =>
      var x := s.workers[w];
      s.(server := Take(w, x.requests[0]), workers := s.workers[w := x.(requests := x.requests[1..])])
    case Proceed =>
      if s.server.Take? then
        var (ret, r) := Dequeue(s.incoming);
        s.(server := Reply(s.server.src, s.server.count), incoming := r, taken := s.taken + [ret])
      else if s.server.src < |s.workers| then
        var x := s.workers[s.server.src];
        s.(server := ServerTest(c, s.counter + 1), counter := s.counter + 1,
           workers := s.workers[s.server.src := x.(replies := x.replies + [s.server.count])])
      else s
    case Work(w) => s.(workers := s.workers[w := WorkerStep(c, s.workers[w])])
  }

  // The invariant.

  /** The server has received a request of worker w and not yet answered it. */
  predicate Serving(server: ServerPc, w: nat) {
    (server.Take? || server.Reply?) && server.src == w
  }

  /** A waiting worker has exactly one message out: its request, the same number in the server's
      hands, or the reply; any other worker has none. */
  ghost predicate WorkerOk(c: Config, server: ServerPc, w: nat, x: Worker) {
    && 0 <= x.count <= c.samples
    && (match x.pc
        case Send => x.count < c.samples && x.requests == [] && x.replies == [] && !Serving(server, w)
        case Wait =>
          && x.count < c.samples
          && ((x.requests == [x.count] && x.replies == [] && !Serving(server, w))
            || (x.requests == [] && x.replies == [] && Serving(server, w) && server.count == x.count)
            || (x.requests == [] && x.replies == [x.count] && !Serving(server, w)))
        case Store => 0 < x.count && x.requests == [] && x.replies == [] && !Serving(server, w)
        case Finished => x.count == c.samples && x.requests == [] && x.replies == [] && !Serving(server, w))
    && |x.results.slots| == c.maxSize
    && Holds(x.results, 0, if x.pc.Store? then x.count - 1 else x.count)
  }

  /** Replies sent to each worker so far. */
  ghost function Sent(workers: seq<Worker>): (xs: seq<int>)
    ensures |xs| == |workers| && forall w :: 0 <= w < |xs| ==> xs[w] == workers[w].count + |workers[w].replies|
  {
    seq(|workers|, w requires 0 <= w < |workers| => workers[w].count + |workers[w].replies|)
  }

  ghost predicate ServerOk(c: Config, server: ServerPc, counter: int, incoming: Ring, taken: seq<int>) {
    && 0 <= counter && |incoming.slots| == c.maxSize
    && (server.Stopped? <==> counter == c.Total())
    && |taken| == counter + (if server.Reply? then 1 else 0) <= c.Total()
    && Holds(incoming, |taken|, c.Total())
    && (forall j :: 0 <= j < |taken| ==> taken[j] == j + 1)
    && (server.Take? || server.Reply? ==> server.src < c.workers)
  }

  ghost predicate Inv(c: Config, s: World) {
    && |s.workers| == c.workers
    && ServerOk(c, s.server, s.counter, s.incoming, s.taken)
    && (forall w :: 0 <= w < c.workers ==> WorkerOk(c, s.server, w, s.workers[w]))
    && s.counter == Sum(Sent(s.workers))
  }

  lemma InitInv(c: Config, s: World)
    requires c.Ok() && Init(c, s)
    ensures Inv(c, s)
  {
    PrefilledHolds(c.maxSize, c.Total());
    PrefilledHolds(c.maxSize, 0);
    SumConstant(Sent(s.workers), 0);
    SamplesFit(c);
  }

  /** Each worker's own ring is large enough for its results. */
  lemma SamplesFit(c: Config)
    requires c.Ok()
    ensures 0 < c.workers ==> c.samples <= c.maxSize
  {
    if 0 < c.workers {
      assert c.samples * c.workers == c.samples + c.samples * (c.workers - 1);
    }
  }

  /** While some worker still waits for replies to come, not all are sent. */
  lemma NotAllSent(c: Config, s: World, w: nat)
    requires Inv(c, s) && w < c.workers && s.workers[w].count + |s.workers[w].replies| < c.samples
    ensures s.counter < c.Total()
  {
    var xs := Sent(s.workers);
    assert forall v :: 0 <= v < |xs| ==> WorkerOk(c, s.server, v, s.workers[v]);
    SumAtMost(xs, c.samples);
    assert |xs| * c.samples == c.Total();
    assert xs[w] != c.samples;
  }

  lemma ServeKeeps(c: Config, s: World, w: nat)
    requires c.Ok() && Inv(c, s) && Enabled(s, Serve(w))
    ensures Inv(c, Next(c, s, Serve(w)))
  {
    var s' := Next(c, s, Serve(w));
    assert WorkerOk(c, s.server, w, s.workers[w]);
    assert Sent(s'.workers) == Sent(s.workers);
    forall v | 0 <= v < c.workers ensures WorkerOk(c, s'.server, v, s'.workers[v]) {
      assert WorkerOk(c, s.server, v, s.workers[v]);
    }
  }

  lemma TakeKeeps(c: Config, s: World)
    requires c.Ok() && Inv(c, s) && s.server.Take?
    ensures Enabled(s, Proceed) && Inv(c, Next(c, s, Proceed))
    ensures Next(c, s, Proceed).taken == s.taken + [s.counter + 1]
  {
    DequeueHolds(s.incoming, |s.taken|, c.Total());
    var s' := Next(c, s, Proceed);
    forall v | 0 <= v < c.workers ensures WorkerOk(c, s'.server, v, s'.workers[v]) {
      assert WorkerOk(c, s.server, v, s.workers[v]);
    }
  }

  lemma ReplyKeeps(c: Config, s: World)
    requires c.Ok() && Inv(c, s) && s.server.Reply?
    ensures Inv(c, Next(c, s, Proceed))
  {
    var s', w := Next(c, s, Proceed), s.server.src;
    assert WorkerOk(c, s.server, w, s.workers[w]);
    NotAllSent(c, s, w);
    SumUpdate(Sent(s.workers), w, s.workers[w].count + 1);
    assert Sent(s'.workers) == Sent(s.workers)[w := s.workers[w].count + 1];
    forall v | 0 <= v < c.workers ensures WorkerOk(c, s'.server, v, s'.workers[v]) {
      assert WorkerOk(c, s.server, v, s.workers[v]);
    }
  }

  lemma WorkerKeeps(c: Config, server: ServerPc, w: nat, x: Worker)
    requires c.Ok() && w < c.workers && WorkerOk(c, server, w, x)
    requires (x.pc.Wait? ==> x.replies != []) && x.pc != Finished
    ensures WorkerOk(c, server, w, WorkerStep(c, x))
    ensures var y := WorkerStep(c, x); y.count + |y.replies| == x.count + |x.replies|
  {
    if x.pc.Store? {
      SamplesFit(c);
      EnqueueHolds(x.results, 0, x.count - 1);
    }
  }

  lemma WorkKeeps(c: Config, s: World, w: nat)
    requires c.Ok() && Inv(c, s) && Enabled(s, Work(w))
    ensures Inv(c, Next(c, s, Work(w)))
  {
    var s' := Next(c, s, Work(w));
    WorkerKeeps(c, s.server, w, s.workers[w]);
    assert Sent(s'.workers) == Sent(s.workers);
  }

  /** Every step, whatever the order of delivery, keeps the invariant. */
  lemma InvNext(c: Config, s: World, a: Action)
    requires c.Ok() && Inv(c, s) && Enabled(s, a)
    ensures Inv(c, Next(c, s, a))
  {
    match a
    case Serve(w) => ServeKeeps(c, s, w);
    case Proceed => if s.server.Take? { TakeKeeps(c, s); } else { ReplyKeeps(c, s); }
    case Work(w) => WorkKeeps(c, s, w);
  }

  // Progress and termination.

  ghost predicate Final(c: Config, s: World) {
    s.server == Stopped && forall w :: 0 <= w < |s.workers| ==> s.workers[w].pc == Finished
  }

  /** No reachable state that is not final is stuck. */
  lemma NeverStuck(c: Config, s: World) returns (a: Action)
    requires c.Ok() && Inv(c, s) && !Final(c, s)
    ensures Enabled(s, a)
  {
    if s.server.Take? {
      TakeKeeps(c, s);
      a := Proceed;
    } else if s.server.Reply? {
      a := Proceed;
    } else if w: nat :| w < c.workers && s.workers[w].pc != Finished {
      assert WorkerOk(c, s.server, w, s.workers[w]);
      a := if s.server == Receive && s.workers[w].requests != [] then Serve(w) else Work(w);
      if s.server == Stopped && s.workers[w].count + |s.workers[w].replies| < c.samples {
        NotAllSent(c, s, w);
      }
    } else {
      AllSent(c, s);
      a := Proceed;
    }
  }

  /** No worker is passed over: until it has finished it can go on, or the server can receive its request
      next, or the server is busy and can go on. */
  lemma NobodyPassedOver(c: Config, s: World, w: nat)
    requires c.Ok() && Inv(c, s) && w < c.workers && s.workers[w].pc != Finished
    ensures Enabled(s, Work(w)) || (if s.server == Receive then Enabled(s, Serve(w)) else Enabled(s, Proceed))
  {
    assert WorkerOk(c, s.server, w, s.workers[w]);
    if s.server.Take? {
      TakeKeeps(c, s);
    } else if s.server == Stopped && s.workers[w].count + |s.workers[w].replies| < c.samples {
      NotAllSent(c, s, w);
    }
  }

  /** When all workers have finished, all replies are sent, so the server has stopped. */
  lemma AllSent(c: Config, s: World)
    requires c.Ok() && Inv(c, s) && forall w: nat :: w < c.workers ==> s.workers[w].pc == Finished
    ensures s.counter == c.Total() && s.server == Stopped
  {
    forall w | 0 <= w < c.workers ensures Sent(s.workers)[w] == c.samples {
      assert WorkerOk(c, s.server, w, s.workers[w]);
    }
    SumConstant(Sent(s.workers), c.samples);
  }

  /** Steps a worker's remaining rounds still take, its own and the server's. */
  function Left(c: Config, server: ServerPc, w: nat, x: Worker): int {
    6 * (c.samples - x.count) + match x.pc
      case Send => 0
      case Wait =>
        if x.requests != [] then -1
        else if x.replies != [] then -4
        else if server.Take? && server.src == w then -2
        else -3
      case Store => 1
      case Finished => 0
  }

  ghost function LeftOf(c: Config, s: World): (xs: seq<int>)
    ensures |xs| == |s.workers| && forall w :: 0 <= w < |xs| ==> xs[w] == Left(c, s.server, w, s.workers[w])
  {
    seq(|s.workers|, w requires 0 <= w < |s.workers| => Left(c, s.server, w, s.workers[w]))
  }

  ghost function Measure(c: Config, s: World): int { Sum(LeftOf(c, s)) }

  /** The worker whose round a step advances. */
  function Whose(s: World, a: Action): nat
    requires Enabled(s, a)
  {
    match a
    case Serve(w) => w
    case Proceed => s.server.src
    case Work(w) => w
  }

  /** A step advances the round of one worker and leaves those of the others where they were. */
  lemma LeftStep(c: Config, s: World, a: Action, v: nat)
    requires c.Ok() && Inv(c, s) && Enabled(s, a) && v < c.workers
    ensures |Next(c, s, a).workers| == c.workers && Whose(s, a) < c.workers
    ensures Left(c, Next(c, s, a).server, v, Next(c, s, a).workers[v])
            == Left(c, s.server, v, s.workers[v]) - if v == Whose(s, a) then 1 else 0
  {
    assert WorkerOk(c, s.server, v, s.workers[v]);
    assert WorkerOk(c, s.server, Whose(s, a), s.workers[Whose(s, a)]);
  }

  lemma MeasureStep(c: Config, s: World, a: Action)
    requires c.Ok() && Inv(c, s) && Enabled(s, a)
    ensures Measure(c, Next(c, s, a)) == Measure(c, s) - 1
  {
    var s', w := Next(c, s, a), Whose(s, a);
    InvNext(c, s, a);
    assert w < c.workers by {
      assert a.Proceed? ==> s.server.src < c.workers;
    }
    forall v | 0 <= v < c.workers
      ensures LeftOf(c, s')[v] == LeftOf(c, s)[v] - if v == w then 1 else 0
    {
      LeftStep(c, s, a, v);
    }
    assert LeftOf(c, s') == LeftOf(c, s)[w := LeftOf(c, s)[w] - 1];
    SumUpdate(LeftOf(c, s), w, LeftOf(c, s)[w] - 1);
  }

  lemma MeasureBounds(c: Config, s: World)
    requires Inv(c, s)
    ensures 0 <= Measure(c, s) && (Final(c, s) ==> Measure(c, s) == 0)
  {
    forall w | 0 <= w < c.workers ensures 0 <= LeftOf(c, s)[w] {
      assert WorkerOk(c, s.server, w, s.workers[w]);
    }
    SumAtLeastZero(LeftOf(c, s));
    if Final(c, s) {
      forall w | 0 <= w < c.workers ensures LeftOf(c, s)[w] == 0 {
        assert WorkerOk(c, s.server, w, s.workers[w]);
      }
      SumConstant(LeftOf(c, s), 0);
    }
  }

  lemma MeasureAtStart(c: Config, s: World)
    requires c.Ok() && Init(c, s)
    ensures Measure(c, s) == c.workers * (6 * c.samples)
  {
    SumConstant(LeftOf(c, s), 6 * c.samples);
  }

  ghost predicate IsWorldRun(c: Config, states: seq<World>, actions: seq<Action>)
    requires c.Ok()
  {
    && |states| == |actions| + 1 && Init(c, states[0])
    && forall i :: 0 <= i < |actions| ==> Enabled(states[i], actions[i]) && states[i + 1] == Next(c, states[i], actions[i])
  }

  lemma {:induction false} RunKeeps(c: Config, states: seq<World>, actions: seq<Action>, i: nat)
    requires c.Ok() && IsWorldRun(c, states, actions) && i < |states|
    ensures Inv(c, states[i]) && Measure(c, states[i]) + i == c.workers * (6 * c.samples)
  {
    if i == 0 {
      InitInv(c, states[0]);
      MeasureAtStart(c, states[0]);
    } else {
      RunKeeps(c, states, actions, i - 1);
      InvNext(c, states[i - 1], actions[i - 1]);
      MeasureStep(c, states[i - 1], actions[i - 1]);
    }
  }

  /** Every run, whatever the order of delivery: the server's j-th dequeue returns j, never -1; a
      waiting worker has one message out and it carries the worker's count; the run has at most
      6 * NUM_SAMPLES steps for each worker; it can go on exactly as long as it is shorter than that. */
  lemma EveryRun(c: Config, states: seq<World>, actions: seq<Action>, i: nat)
    requires c.Ok() && IsWorldRun(c, states, actions) && i < |states|
    ensures forall j :: 0 <= j < |states[i].taken| ==> states[i].taken[j] == j + 1
    ensures forall w :: 0 <= w < |states[i].workers| ==>
      var x := states[i].workers[w];
      && |x.requests| + |x.replies| <= 1
      && (forall m :: m in x.requests + x.replies ==> m == x.count)
    ensures i <= c.workers * (6 * c.samples)
    ensures (exists a :: Enabled(states[i], a)) <==> i < c.workers * (6 * c.samples)
    ensures Final(c, states[i]) <==> i == c.workers * (6 * c.samples)
  {
    var s := states[i];
    RunKeeps(c, states, actions, i);
    MeasureBounds(c, s);
    forall w | 0 <= w < |s.workers|
      ensures var x := s.workers[w];
        |x.requests| + |x.replies| <= 1 && forall m :: m in x.requests + x.replies ==> m == x.count
    {
      assert WorkerOk(c, s.server, w, s.workers[w]);
    }
    if !Final(c, s) {
      var a := NeverStuck(c, s);
      MeasureStep(c, s, a);
      InvNext(c, s, a);
      MeasureBounds(c, Next(c, s, a));
    } else {
      assert forall a :: !Enabled(s, a);
    }
  }

  /** At the end every worker's results ring holds 1 .. NUM_SAMPLES in order, and the server's ring is empty. */
  lemma FinalResults(c: Config, s: World, w: nat)
    requires c.Ok() && Inv(c, s) && Final(c, s) && w < c.workers
    ensures Holds(s.workers[w].results, 0, c.samples)
    ensures |s.taken| == c.Total() && s.incoming.head == s.incoming.tail
  {
    assert WorkerOk(c, s.server, w, s.workers[w]);
  }
}
