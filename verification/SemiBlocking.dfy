/** The semi-blocking queue as a state machine: putters push onto a stack by compare-and-swap, a
    getter holding the lock detaches the whole stack, reverses it in place into the out list and
    pops. One shared-memory access a step, any number of threads; nodes may be put again as soon as
    they have been returned. */
module SemiBlocking {
  import opened AtomicFifo

  type Node = nat
  type Link = Option<Node>  // a node pointer; None is NULL

  /** What a thread does next, with its locals. `pushes` and `writes` record the counters below at
      the thread's read of `in_queue`; `again` and `empty` what the getter has seen before. */
  datatype Pc =
    | Idle
    | PutRead(n: Node)
    | PutLink(n: Node, seen: Link, writes: nat)
    | PutCas(n: Node, seen: Link, writes: nat)
    | GetLock
    | GetTestOut
    | GetReadIn(again: bool)
    | GetCas(h: Node, pushes: nat)
    | RevNext(h: Node)
    | RevLoadOut(h: Node, nx: Link)
    | RevLink(h: Node, nx: Link, o: Link)
    | RevSetOut(h: Node, nx: Link)
    | GetReadOut(empty: bool)
    | GetLoadNext(h: Node)
    | GetSetOut(h: Node, nx: Link)
    | GetUnlock(r: Link)

  /** Who is responsible for a node. */
  datatype Place = Free | Pending(t: Tid) | In | Det | Out | Held(t: Tid)

  /** The root (`inq`, `outq`, `lock`), the `next` fields of all nodes, the threads, and history: the
      nodes of the in list, of the out list and of the detached list still to be reversed, each from
      its first node on; the place of each node; what was inserted and removed; and how often
      `in_queue` was written, by putters and in all. */
  datatype Queue = Queue(inq: Link, outq: Link, lock: Option<Tid>, next: map<Node, Link>, pcs: map<Tid, Pc>,
                         inl: seq<Node>, outl: seq<Node>, det: seq<Node>, place: map<Node, Place>,
                         ins: seq<Node>, outs: seq<Node>, pushes: nat, writes: nat)

  /** `Scribble` is a caller writing the `next` field of a node it owns, as INIT_QUEUE_HEAD does. */
  datatype Action = CallPut(t: Tid, n: Node) | CallGet(t: Tid) | Scribble(n: Node, x: Link) | Run(t: Tid)

  /** ALLOC_QUEUE_ROOT: both lists empty, the lock free; all nodes belong to the callers. */
  ghost predicate Init(s: Queue) {
    && s.inq == None && s.outq == None && s.lock == None
    && (forall t :: t in s.pcs ==> s.pcs[t] == Idle)
    && s.inl == [] && s.outl == [] && s.det == [] && s.ins == [] && s.outs == [] && s.pushes == 0 && s.writes == 0
    && s.place.Keys == s.next.Keys && forall n :: n in s.place ==> s.place[n] == Free
  }

  /** The pointer to the i-th node of l, NULL past the end. */
  function LinkAt(l: seq<Node>, i: nat): Link {
    if i < |l| then Some(l[i]) else None
  }

  /** Following `next` from p visits exactly the nodes of l and ends in NULL. */
  ghost predicate IsList(next: map<Node, Link>, p: Link, l: seq<Node>) {
    p == LinkAt(l, 0) && forall i :: 0 <= i < |l| ==> l[i] in next && next[l[i]] == LinkAt(l, i + 1)
  }

  /** All nodes of l are in the given place and no node occurs twice, so a list of them has no cycle. */
  ghost predicate Occupies(place: map<Node, Place>, l: seq<Node>, w: Place) {
    && (forall i :: 0 <= i < |l| ==> l[i] in place && place[l[i]] == w)
    && (forall i, j :: 0 <= i < j < |l| ==> l[i] != l[j])
  }

  predicate HoldsLock(pc: Pc) {
    !pc.Idle? && !pc.PutRead? && !pc.PutLink? && !pc.PutCas? && !pc.GetLock?
  }

  predicate Reversing(pc: Pc) {
    pc.RevNext? || pc.RevLoadOut? || pc.RevLink? || pc.RevSetOut?
  }

  /** A putter owns its node; what it saw is what `in_queue` still is unless somebody wrote it since. */
  ghost predicate PutterOk(s: Queue, t: Tid, pc: Pc) {
    match pc
    case PutRead(n) => n in s.place && s.place[n] == Pending(t)
    case PutLink(n, seen, w) => n in s.place && s.place[n] == Pending(t) && w <= s.writes && (w == s.writes ==> seen == s.inq)
    case PutCas(n, seen, w) =>
      && n in s.place && s.place[n] == Pending(t) && w <= s.writes && (w == s.writes ==> seen == s.inq)
      && n in s.next && s.next[n] == seen
    case GetUnlock(Some(h)) => h in s.place && s.place[h] == Held(t)
    case _ => true
  }

  /** What the thread that holds the lock knows of the lists. */
  ghost predicate GetterOk(s: Queue, pc: Pc) {
    match pc
    case GetReadIn(again) => s.outl == [] && (again ==> s.inl != [])
    case GetCas(h, p) => s.outl == [] && s.inl != [] && p <= s.pushes && (p == s.pushes ==> s.inq == Some(h))
    case RevNext(h) => s.det != [] && IsList(s.next, Some(h), s.det)
    case RevLoadOut(h, nx) => s.det != [] && IsList(s.next, Some(h), s.det) && nx == LinkAt(s.det, 1)
    case RevLink(h, nx, o) => s.det != [] && IsList(s.next, Some(h), s.det) && nx == LinkAt(s.det, 1) && o == s.outq
    case RevSetOut(h, nx) => s.det != [] && s.det[0] == h && h in s.next && s.next[h] == s.outq && IsList(s.next, nx, s.det[1..])
    case GetReadOut(empty) => empty <==> s.outl == []
    case GetLoadNext(h) => s.outl != [] && s.outl[0] == h
    case GetSetOut(h, nx) => s.outl != [] && s.outl[0] == h && nx == LinkAt(s.outl, 1)
    case _ => true
  }

  /** The shape invariant: lists without cycles, disjoint from each other, from the nodes of pending
      puts and from the callers' nodes. */
  ghost predicate Shape(s: Queue) {
    && s.place.Keys == s.next.Keys
    && IsList(s.next, s.inq, s.inl) && Occupies(s.place, s.inl, In)
    && IsList(s.next, s.outq, s.outl) && Occupies(s.place, s.outl, Out)
    && Occupies(s.place, s.det, Det)
  }

  ghost predicate LockOk(s: Queue) {
    && (forall t :: t in s.pcs ==> (HoldsLock(s.pcs[t]) <==> s.lock == Some(t)))
    && (s.lock.Some? ==> s.lock.value in s.pcs)
    && (s.det != [] ==> s.lock.Some? && Reversing(s.pcs[s.lock.value]))
  }

  ghost predicate Inv(s: Queue) {
    && Shape(s) && LockOk(s)
    && (forall t :: t in s.pcs ==> PutterOk(s, t, s.pcs[t]))
    && (forall t :: t in s.pcs ==> GetterOk(s, s.pcs[t]))
  }

  predicate Enabled(s: Queue, a: Action) {
    match a
    case CallPut(t, n) => t in s.pcs && s.pcs[t] == Idle && n in s.place && s.place[n] == Free
    case CallGet(t) => t in s.pcs && s.pcs[t] == Idle
    case Scribble(n, _) => n in s.place && s.place[n] == Free
    case Run(t) => t in s.pcs && s.pcs[t] != Idle && (s.pcs[t] == GetLock ==> s.lock == None)
  }

  /** The detaching compare-and-swap moves every node of the in list at once. */
  function Detached(place: map<Node, Place>): map<Node, Place> {
    map n | n in place :: if place[n] == In then Det else place[n]
  }

  ghost function RunPut(s: Queue, t: Tid): Queue
    requires Inv(s) && t in s.pcs && (s.pcs[t].PutRead? || s.pcs[t].PutLink? || s.pcs[t].PutCas?)
  {
    match s.pcs[t]
    case PutRead(n) => s.(pcs := s.pcs[t := PutLink(n, s.inq, s.writes)])
    case PutLink(n, seen, w) => s.(next := s.next[n := seen], pcs := s.pcs[t := PutCas(n, seen, w)])
    case PutCas(n, seen, _) =>
      if s.inq != seen then s.(pcs := s.pcs[t := PutRead(n)])
      else s.(inq := Some(n), pcs := s.pcs[t := Idle], inl := [n] + s.inl, place := s.place[n := In],
              ins := s.ins + [n], pushes := s.pushes + 1, writes := s.writes + 1)
  }

  ghost function RunGet(s: Queue, t: Tid): (s': Queue)
    requires Inv(s) && t in s.pcs && (HoldsLock(s.pcs[t]) || s.pcs[t] == GetLock)
    ensures t in s'.pcs && s'.pcs == s.pcs[t := s'.pcs[t]] && s'.ins == s.ins
    ensures !s.pcs[t].GetSetOut? ==> s'.outs == s.outs
  {
    assert GetterOk(s, s.pcs[t]) && PutterOk(s, t, s.pcs[t]);
    match s.pcs[t]
    case GetLock => s.(lock := Some(t), pcs := s.pcs[t := GetTestOut])
    case GetTestOut => s.(pcs := s.pcs[t := if s.outq == None then GetReadIn(false) else GetReadOut(false)])
    case GetReadIn(_) =>
      s.(pcs := s.pcs[t := if s.inq == None then GetReadOut(true) else GetCas(s.inq.value, s.pushes)])
    case GetCas(h, _) =>
      if s.inq != Some(h) then s.(pcs := s.pcs[t := GetReadIn(true)])
      else s.(inq := None, pcs := s.pcs[t := RevNext(h)], inl := [], det := s.inl, place := Detached(s.place),
              writes := s.writes + 1)
    case RevNext(h) => s.(pcs := s.pcs[t := RevLoadOut(h, s.next[h])])
    case RevLoadOut(h, nx) => s.(pcs := s.pcs[t := RevLink(h, nx, s.outq)])
    case RevLink(h, nx, o) => s.(next := s.next[h := o], pcs := s.pcs[t := RevSetOut(h, nx)])
    case RevSetOut(h, nx) =>
      s.(outq := Some(h), pcs := s.pcs[t := if nx == None then GetReadOut(false) else RevNext(nx.value)],
         outl := [h] + s.outl, det := s.det[1..], place := s.place[h := Out])
    case GetReadOut(_) => s.(pcs := s.pcs[t := if s.outq == None then GetUnlock(None) else GetLoadNext(s.outq.value)])
    case GetLoadNext(h) => s.(pcs := s.pcs[t := GetSetOut(h, s.next[h])])
    case GetSetOut(h, nx) =>
      s.(outq := nx, pcs := s.pcs[t := GetUnlock(Some(h))], outl := s.outl[1..], place := s.place[h := Held(t)],
         outs := s.outs + [h])
    case GetUnlock(r) =>
      s.(lock := None, pcs := s.pcs[t := Idle], place := if r == None then s.place else s.place[r.value := Free])
  }

  /** One step. */
  ghost function Next(s: Queue, a: Action): Queue
    requires Inv(s) && Enabled(s, a)
  {
    match a
    case CallPut(t, n) => s.(pcs := s.pcs[t := PutRead(n)], place := s.place[n := Pending(t)])
    case CallGet(t) => s.(pcs := s.pcs[t := GetLock])
    case Scribble(n, x) => s.(next := s.next[n := x])
    case Run(t) => if s.pcs[t].PutRead? || s.pcs[t].PutLink? || s.pcs[t].PutCas? then RunPut(s, t) else RunGet(s, t)
  }

  lemma InitInv(s: Queue)
    requires Init(s)
    ensures Inv(s)
  {
  }

  /** A node pushed in front of a list it is not in. */
  lemma Pushed(next: map<Node, Link>, place: map<Node, Place>, h: Node, p: Link, l: seq<Node>, w: Place)
    requires IsList(next, p, l) && Occupies(place, l, w)
    requires h in next && next[h] == p && h in place && place[h] != w
    ensures IsList(next, Some(h), [h] + l) && Occupies(place[h := w], [h] + l, w)
  {
    assert h !in l;
  }

  /** The first node taken off a list. */
  lemma Popped(next: map<Node, Link>, place: map<Node, Place>, p: Link, l: seq<Node>, w: Place, x: Place)
    requires IsList(next, p, l) && Occupies(place, l, w) && l != []
    ensures IsList(next, LinkAt(l, 1), l[1..]) && Occupies(place[l[0] := x], l[1..], w)
  {
  }

  /** A list is not disturbed by a node elsewhere that moves to yet another place. */
  lemma Undisturbed(place: map<Node, Place>, l: seq<Node>, w: Place, h: Node, x: Place)
    requires Occupies(place, l, w) && h in place && place[h] != w
    ensures Occupies(place[h := x], l, w)
  {
  }

  /** What a putter relies on survives any step that leaves its node alone and either leaves
      `in_queue` alone or counts the write. */
  lemma PutterKept(s: Queue, s': Queue, u: Tid, pc: Pc)
    requires PutterOk(s, u, pc)
    requires forall n :: n in s.place && s.place[n] in {Pending(u), Held(u)} ==>
               n in s'.place && s'.place[n] == s.place[n] && (n in s.next ==> n in s'.next && s'.next[n] == s.next[n])
    requires s.writes < s'.writes || (s.writes == s'.writes && s.inq == s'.inq)
    ensures PutterOk(s', u, pc)
  {
  }

  /** Writing the `next` field of a node outside a list leaves the list as it was. */
  lemma ListKept(next: map<Node, Link>, p: Link, l: seq<Node>, n: Node, x: Link)
    requires IsList(next, p, l) && n !in l
    ensures IsList(next[n := x], p, l)
  {
  }

  /** The lock protects what the getter knows: nobody else relies on the out list or the detached list. */
  lemma OthersKept(s: Queue, s': Queue, t: Tid, u: Tid)
    requires Inv(s) && t in s.pcs && u in s.pcs && t != u && u in s'.pcs && s'.pcs[u] == s.pcs[u]
    requires HoldsLock(s.pcs[t]) || s.lock == None
    requires forall n :: n in s.place && s.place[n] in {Pending(u), Held(u)} ==>
               n in s'.place && s'.place[n] == s.place[n] && (n in s.next ==> n in s'.next && s'.next[n] == s.next[n])
    requires s.writes < s'.writes || (s.writes == s'.writes && s.inq == s'.inq)
    ensures PutterOk(s', u, s'.pcs[u]) && GetterOk(s', s'.pcs[u])
  {
    assert PutterOk(s, u, s.pcs[u]);
    assert !HoldsLock(s.pcs[u]);
  }

  lemma InvCallPut(s: Queue, t: Tid, n: Node)
    requires Inv(s) && Enabled(s, CallPut(t, n))
    ensures Inv(Next(s, CallPut(t, n)))
  {
    var s' := Next(s, CallPut(t, n));
    Undisturbed(s.place, s.inl, In, n, Pending(t));
    Undisturbed(s.place, s.outl, Out, n, Pending(t));
    Undisturbed(s.place, s.det, Det, n, Pending(t));
    forall u | u in s'.pcs ensures PutterOk(s', u, s'.pcs[u]) && GetterOk(s', s'.pcs[u]) {
      assert PutterOk(s, u, s.pcs[u]) && GetterOk(s, s.pcs[u]);
      if u != t { PutterKept(s, s', u, s.pcs[u]); }
    }
  }

  lemma InvCallGet(s: Queue, t: Tid)
    requires Inv(s) && Enabled(s, CallGet(t))
    ensures Inv(Next(s, CallGet(t)))
  {
    var s' := Next(s, CallGet(t));
    forall u | u in s'.pcs ensures PutterOk(s', u, s'.pcs[u]) && GetterOk(s', s'.pcs[u]) {
      assert PutterOk(s, u, s.pcs[u]) && GetterOk(s, s.pcs[u]);
      if u != t { PutterKept(s, s', u, s.pcs[u]); }
    }
  }

  lemma InvScribble(s: Queue, n: Node, x: Link)
    requires Inv(s) && Enabled(s, Scribble(n, x))
    ensures Inv(Next(s, Scribble(n, x)))
  {
    var s' := Next(s, Scribble(n, x));
    ListKept(s.next, s.inq, s.inl, n, x);
    ListKept(s.next, s.outq, s.outl, n, x);
    assert n !in s.det;
    forall u | u in s'.pcs ensures PutterOk(s', u, s'.pcs[u]) && GetterOk(s', s'.pcs[u]) {
      assert PutterOk(s, u, s.pcs[u]) && GetterOk(s, s.pcs[u]);
      PutterKept(s, s', u, s.pcs[u]);
      GetterKept(s, s', s.pcs[u], n, x);
    }
  }

  /** What the getter relies on survives a write to the `next` field of a node outside its lists. */
  lemma GetterKept(s: Queue, s': Queue, pc: Pc, n: Node, x: Link)
    requires Shape(s) && GetterOk(s, pc) && n !in s.det && s' == s.(next := s.next[n := x], pcs := s'.pcs)
    ensures GetterOk(s', pc)
  {
  }

  lemma InvPutRead(s: Queue, t: Tid)
    requires Inv(s) && t in s.pcs && (s.pcs[t].PutRead? || (s.pcs[t].PutCas? && s.inq != s.pcs[t].seen))
    ensures Inv(RunPut(s, t))
  {
    var s' := RunPut(s, t);
    assert PutterOk(s, t, s.pcs[t]);
    assert s' == s.(pcs := s.pcs[t := s'.pcs[t]]);
    forall u | u in s'.pcs ensures PutterOk(s', u, s'.pcs[u]) && GetterOk(s', s'.pcs[u]) {
      assert PutterOk(s, u, s.pcs[u]) && GetterOk(s, s.pcs[u]);
    }
  }

  lemma InvPutLink(s: Queue, t: Tid)
    requires Inv(s) && t in s.pcs && s.pcs[t].PutLink?
    ensures Inv(RunPut(s, t))
  {
    var s', n, x := RunPut(s, t), s.pcs[t].n, s.pcs[t].seen;
    assert PutterOk(s, t, s.pcs[t]);
    ListKept(s.next, s.inq, s.inl, n, x);
    ListKept(s.next, s.outq, s.outl, n, x);
    assert n !in s.det;
    forall u | u in s'.pcs ensures PutterOk(s', u, s'.pcs[u]) && GetterOk(s', s'.pcs[u]) {
      assert PutterOk(s, u, s.pcs[u]) && GetterOk(s, s.pcs[u]);
      if u != t {
        PutterKept(s, s', u, s.pcs[u]);
        GetterKept(s, s', s.pcs[u], n, x);
      }
    }
  }

  /** The successful compare-and-swap of a putter: the node's `next` is the top of the stack, even if
      the same top was popped and pushed again since the putter read it. */
  lemma InvPutCas(s: Queue, t: Tid)
    requires Inv(s) && t in s.pcs && s.pcs[t].PutCas? && s.inq == s.pcs[t].seen
    ensures Inv(RunPut(s, t))
  {
    var s', n := RunPut(s, t), s.pcs[t].n;
    assert PutterOk(s, t, s.pcs[t]);
    Pushed(s.next, s.place, n, s.inq, s.inl, In);
    Undisturbed(s.place, s.outl, Out, n, In);
    Undisturbed(s.place, s.det, Det, n, In);
    forall u | u in s'.pcs ensures PutterOk(s', u, s'.pcs[u]) && GetterOk(s', s'.pcs[u]) {
      assert PutterOk(s, u, s.pcs[u]) && GetterOk(s, s.pcs[u]);
      if u != t { PutterKept(s, s', u, s.pcs[u]); }
    }
  }

  predicate OnlyReads(pc: Pc) {
    pc.GetTestOut? || pc.GetReadIn? || pc.RevNext? || pc.RevLoadOut? || pc.GetReadOut? || pc.GetLoadNext?
  }

  /** A step of the thread that holds the lock and keeps it. */
  lemma GetterStep(s: Queue, s': Queue, t: Tid)
    requires Inv(s) && t in s.pcs && HoldsLock(s.pcs[t])
    requires t in s'.pcs && s'.pcs == s.pcs[t := s'.pcs[t]] && HoldsLock(s'.pcs[t]) && s'.lock == s.lock
    requires Shape(s') && (s'.det != [] ==> Reversing(s'.pcs[t]))
    requires PutterOk(s', t, s'.pcs[t]) && GetterOk(s', s'.pcs[t])
    requires forall n :: n in s.place && (s.place[n].Pending? || s.place[n].Held?) ==>
               n in s'.place && s'.place[n] == s.place[n] && (n in s.next ==> n in s'.next && s'.next[n] == s.next[n])
    requires s.writes < s'.writes || (s.writes == s'.writes && s.inq == s'.inq)
    ensures Inv(s')
  {
    forall u | u in s'.pcs ensures PutterOk(s', u, s'.pcs[u]) && GetterOk(s', s'.pcs[u]) {
      if u != t { OthersKept(s, s', t, u); }
    }
  }

  lemma GetterReads(s: Queue, t: Tid)
    requires Inv(s) && t in s.pcs && OnlyReads(s.pcs[t])
    ensures var s' := RunGet(s, t);
      && s' == s.(pcs := s.pcs[t := s'.pcs[t]]) && HoldsLock(s'.pcs[t])
      && (s.det != [] ==> Reversing(s'.pcs[t]))
      && PutterOk(s', t, s'.pcs[t]) && GetterOk(s', s'.pcs[t])
  {
    assert GetterOk(s, s.pcs[t]);
  }

  lemma InvGetReads(s: Queue, t: Tid)
    requires Inv(s) && t in s.pcs && OnlyReads(s.pcs[t])
    ensures Inv(RunGet(s, t))
  {
    GetterReads(s, t);
    GetterStep(s, RunGet(s, t), t);
  }

  lemma InvGetLock(s: Queue, t: Tid)
    requires Inv(s) && t in s.pcs && s.pcs[t] == GetLock && s.lock == None
    ensures Inv(RunGet(s, t))
  {
    var s' := RunGet(s, t);
    forall u | u in s'.pcs ensures PutterOk(s', u, s'.pcs[u]) && GetterOk(s', s'.pcs[u]) {
      if u != t { OthersKept(s, s', t, u); }
    }
  }

  lemma InvGetUnlock(s: Queue, t: Tid)
    requires Inv(s) && t in s.pcs && s.pcs[t].GetUnlock?
    ensures Inv(RunGet(s, t))
  {
    var s' := RunGet(s, t);
    assert PutterOk(s, t, s.pcs[t]);
    forall u | u in s'.pcs ensures PutterOk(s', u, s'.pcs[u]) && GetterOk(s', s'.pcs[u]) {
      if u != t { OthersKept(s, s', t, u); }
    }
  }

  lemma InvGetCas(s: Queue, t: Tid)
    requires Inv(s) && t in s.pcs && s.pcs[t].GetCas?
    ensures Inv(RunGet(s, t))
  {
    var s' := RunGet(s, t);
    assert GetterOk(s, s.pcs[t]);
    GetterStep(s, s', t);
  }

  lemma InvRevLink(s: Queue, t: Tid)
    requires Inv(s) && t in s.pcs && s.pcs[t].RevLink?
    ensures Inv(RunGet(s, t))
  {
    var s', h, nx := RunGet(s, t), s.pcs[t].h, s.pcs[t].nx;
    assert GetterOk(s, s.pcs[t]);
    assert s.det[0] == h;
    ListKept(s.next, s.inq, s.inl, h, s.outq);
    ListKept(s.next, s.outq, s.outl, h, s.outq);
    assert IsList(s.next, nx, s.det[1..]);
    ListKept(s.next, nx, s.det[1..], h, s.outq);
    GetterStep(s, s', t);
  }

  /** One turn of the reversal moves the first detached node to the front of the out list. */
  lemma InvRevSetOut(s: Queue, t: Tid)
    requires Inv(s) && t in s.pcs && s.pcs[t].RevSetOut?
    ensures Inv(RunGet(s, t))
  {
    var s', h := RunGet(s, t), s.pcs[t].h;
    assert GetterOk(s, s.pcs[t]);
    assert s.place[h] == Det;
    Pushed(s.next, s.place, h, s.outq, s.outl, Out);
    Undisturbed(s.place, s.inl, In, h, Out);
    GetterStep(s, s', t);
  }

  /** The pop takes the first node off the out list. */
  lemma InvGetSetOut(s: Queue, t: Tid)
    requires Inv(s) && t in s.pcs && s.pcs[t].GetSetOut?
    ensures Inv(RunGet(s, t))
  {
    var s', h := RunGet(s, t), s.pcs[t].h;
    assert GetterOk(s, s.pcs[t]);
    Popped(s.next, s.place, s.outq, s.outl, Out, Held(t));
    Undisturbed(s.place, s.inl, In, h, Held(t));
    GetterStep(s, s', t);
  }

  /** Every step of every thread keeps the invariant. */
  lemma InvNext(s: Queue, a: Action)
    requires Inv(s) && Enabled(s, a)
    ensures Inv(Next(s, a))
  {
    if a.Scribble? {
      InvScribble(s, a.n, a.x);
    } else if a.CallPut? {
      InvCallPut(s, a.t, a.n);
    } else if a.CallGet? {
      InvCallGet(s, a.t);
    } else {
      var t, pc := a.t, s.pcs[a.t];
      if pc.PutRead? || (pc.PutCas? && s.inq != pc.seen) { InvPutRead(s, t); }
      else if pc.PutLink? { InvPutLink(s, t); }
      else if pc.PutCas? { InvPutCas(s, t); }
      else if pc.GetLock? { InvGetLock(s, t); }
      else if pc.GetUnlock? { InvGetUnlock(s, t); }
      else if pc.GetCas? { InvGetCas(s, t); }
      else if pc.RevLink? { InvRevLink(s, t); }
      else if pc.RevSetOut? { InvRevSetOut(s, t); }
      else if pc.GetSetOut? { InvGetSetOut(s, t); }
      else { InvGetReads(s, t); }
    }
  }
}
