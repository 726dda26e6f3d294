/** queue_put and queue_get, access by access, with nobody else running. */
module SemiBlockingAlone {
  import opened AtomicFifo
  import opened SemiBlocking
  import opened SemiBlockingRefinement
  import opened SemiBlockingProgress

  /** One access of thread t. */
  ghost predicate Goes(s: Queue, t: Tid, s': Queue) {
    Inv(s) && Enabled(s, Run(t)) && s' == Next(s, Run(t))
  }

  /** Thread t makes k accesses, the last of them from `last` to r. */
  ghost predicate Leads(s: Queue, t: Tid, k: nat, last: Queue, r: Queue)
    decreases k
  {
    && 0 < k && Inv(s) && Enabled(s, Run(t))
    && if k == 1 then last == s && r == Next(s, Run(t)) else Leads(Next(s, Run(t)), t, k - 1, last, r)
  }

  /** The access of t in s shows the label. */
  ghost predicate Shows(s: Queue, t: Tid, l: Label<Node>) { Enabled(s, Run(t)) && LabelOf(s, Run(t)) == l }

  lemma PutReads(s: Queue, t: Tid, n: Node)
    requires Inv(s) && t in s.pcs && s.pcs[t] == PutRead(n)
    ensures Next(s, Run(t)) == s.(pcs := s.pcs[t := PutLink(n, s.inq, s.writes)])
  {
  }

  lemma PutLinks(s: Queue, t: Tid, n: Node, seen: Link, w: nat)
    requires Inv(s) && t in s.pcs && s.pcs[t] == PutLink(n, seen, w)
    ensures Next(s, Run(t)) == s.(next := s.next[n := seen], pcs := s.pcs[t := PutCas(n, seen, w)])
  {
  }

  lemma PutPushes(s: Queue, t: Tid, n: Node, w: nat)
    requires Inv(s) && t in s.pcs && s.pcs[t] == PutCas(n, s.inq, w)
    ensures Shows(s, t, RetEnq(t))
    ensures var s' := Next(s, Run(t));
      && s'.pcs == s.pcs[t := Idle] && s'.inq == Some(n) && s'.lock == s.lock
      && s'.inl == [n] + s.inl && s'.outl == s.outl && s'.det == s.det
  {
  }

  lemma Prepend(s: Queue, t: Tid, s1: Queue, k: nat, last: Queue, r: Queue)
    requires Goes(s, t, s1) && Leads(s1, t, k, last, r)
    ensures Leads(s, t, k + 1, last, r)
  {
  }

  /** The end of a put: `last` returns and leads to r. */
  ghost predicate HasPut(s: Queue, t: Tid, n: Node, last: Queue, r: Queue)
    requires t in s.pcs
  {
    && Shows(last, t, RetEnq(t))
    && Content(r) == Content(s) + [n] && r.inq == Some(n) && r.lock == s.lock && r.pcs == s.pcs[t := Idle]
  }

  lemma PutFromCas(s: Queue, t: Tid, n: Node, w: nat) returns (r: Queue)
    requires Inv(s) && t in s.pcs && s.pcs[t] == PutCas(n, s.inq, w)
    ensures Goes(s, t, r) && HasPut(s, t, n, s, r)
  {
    PutPushes(s, t, n, w);
    ReversePush(n, s.inl);
    r := Next(s, Run(t));
    assert Content(r) == Content(s) + [n];
  }

  lemma PutFromLink(s: Queue, t: Tid, n: Node, w: nat) returns (s1: Queue, r: Queue)
    requires Inv(s) && t in s.pcs && s.pcs[t] == PutLink(n, s.inq, w)
    ensures Goes(s, t, s1) && Goes(s1, t, r) && HasPut(s, t, n, s1, r)
  {
    InvNext(s, Run(t));
    PutLinks(s, t, n, s.inq, w);
    s1 := Next(s, Run(t));
    r := PutFromCas(s1, t, n, w);
    SamePut(s, s1, t, n, r, s1);
  }

  /** The put has moved on, and nothing else. */
  lemma SamePut(s: Queue, s1: Queue, t: Tid, n: Node, r: Queue, last: Queue)
    requires t in s.pcs && t in s1.pcs && HasPut(s1, t, n, last, r)
    requires s1.pcs == s.pcs[t := s1.pcs[t]] && Content(s1) == Content(s) && s1.lock == s.lock
    ensures HasPut(s, t, n, last, r)
  {
  }

  lemma PutFromRead(s: Queue, t: Tid, n: Node) returns (s1: Queue, s2: Queue, r: Queue)
    requires Inv(s) && t in s.pcs && s.pcs[t] == PutRead(n)
    ensures Goes(s, t, s1) && Goes(s1, t, s2) && Goes(s2, t, r) && HasPut(s, t, n, s2, r)
  {
    InvNext(s, Run(t));
    PutReads(s, t, n);
    s1 := Next(s, Run(t));
    s2, r := PutFromLink(s1, t, n, s.writes);
    SamePut(s, s1, t, n, r, s2);
  }

  lemma Enters(s: Queue, a: Action)
    requires Inv(s) && Enabled(s, a) && !a.Run? && !a.Scribble?
    ensures var s0 := Next(s, a);
      && Inv(s0) && Content(s0) == Content(s) && s0.lock == s.lock && s0.inl == s.inl
      && s0.pcs == s.pcs[a.t := if a.CallPut? then PutRead(a.n) else GetLock]
  {
    InvNext(s, a);
  }

  /** A put that meets nobody is done after three accesses, whatever other calls are under way: the node is
      behind all others. */
  lemma PutAlone(s: Queue, t: Tid, n: Node) returns (s1: Queue, s2: Queue, r: Queue)
    requires Inv(s) && Enabled(s, CallPut(t, n))
    ensures Goes(Next(s, CallPut(t, n)), t, s1) && Goes(s1, t, s2) && Goes(s2, t, r) && Shows(s2, t, RetEnq(t))
    ensures Content(r) == Content(s) + [n] && r.inq == Some(n) && r.pcs == s.pcs && r.lock == s.lock
  {
    Enters(s, CallPut(t, n));
    var s0 := Next(s, CallPut(t, n));
    s1, s2, r := PutFromRead(s0, t, n);
    BackAgain(s.pcs, s0.pcs, r.pcs, t, PutRead(n));
  }

  lemma BackAgain(pcs: map<Tid, Pc>, pcs0: map<Tid, Pc>, pcs1: map<Tid, Pc>, t: Tid, pc: Pc)
    requires t in pcs && pcs[t] == Idle && pcs0 == pcs[t := pc] && pcs1 == pcs0[t := Idle]
    ensures pcs1 == pcs
  {
  }

  // A get.

  /** At pc, with `content` in the queue, on the way from the queue `c` that the get has found. */
  predicate OnTheWay(pc: Pc, content: seq<Node>, c: seq<Node>) {
    && HoldsLock(pc)
    && match pc
       case GetUnlock(r) => if c == [] then r == None && content == [] else r == Some(c[0]) && content == c[1..]
       case GetReadOut(empty) => content == c && (empty ==> c == [])
       case _ => content == c
  }

  lemma ReadsOn(s: Queue, t: Tid, c: seq<Node>)
    requires Inv(s) && t in s.pcs && OnlyReads(s.pcs[t]) && OnTheWay(s.pcs[t], Content(s), c)
    ensures OnTheWay(RunGet(s, t).pcs[t], Content(RunGet(s, t)), c)
  {
    GetterReads(s, t);
    var s' := RunGet(s, t);
    assert Content(s') == Content(s);
    ReadsPc(s, t);
  }

  lemma ReadsPc(s: Queue, t: Tid)
    requires Inv(s) && t in s.pcs && OnlyReads(s.pcs[t])
    ensures var pc' := RunGet(s, t).pcs[t];
      && (pc'.GetUnlock? ==> s.pcs[t] == GetReadOut(true) && pc'.r == None)
      && (pc'.GetReadOut? && pc'.empty ==> Content(s) == [])
  {
    assert GetterOk(s, s.pcs[t]);
    if s.pcs[t].GetReadIn? && s.inq == None { NullReadMeansEmpty(s, t); }
  }

  lemma WritesOn(s: Queue, t: Tid, c: seq<Node>)
    requires Inv(s) && t in s.pcs && LocksOrWrites(s.pcs[t]) && HoldsLock(s.pcs[t]) && !s.pcs[t].GetUnlock?
    requires OnTheWay(s.pcs[t], Content(s), c)
    ensures OnTheWay(RunGet(s, t).pcs[t], Content(RunGet(s, t)), c)
  {
    ReversalKeepsContent(s, t);
    WritesPc(s, t);
  }

  lemma WritesPc(s: Queue, t: Tid)
    requires Inv(s) && t in s.pcs && LocksOrWrites(s.pcs[t]) && HoldsLock(s.pcs[t]) && !s.pcs[t].GetUnlock?
    ensures var pc' := RunGet(s, t).pcs[t]; HoldsLock(pc') && !pc'.GetUnlock? && pc' != GetReadOut(true)
  {
  }

  lemma PopsOn(s: Queue, t: Tid, c: seq<Node>)
    requires Inv(s) && t in s.pcs && s.pcs[t].GetSetOut? && Content(s) == c
    ensures OnTheWay(RunGet(s, t).pcs[t], Content(RunGet(s, t)), c)
  {
    PopsPc(s, t);
    PoppedContent(s.outl, Reverse(s.inl));
  }

  lemma PopsPc(s: Queue, t: Tid)
    requires Inv(s) && t in s.pcs && s.pcs[t].GetSetOut?
    ensures s.outl != [] && s.det == []
    ensures var s' := RunGet(s, t);
      s'.pcs[t] == GetUnlock(Some(s.outl[0])) && s'.inl == s.inl && s'.outl == s.outl[1..] && s'.det == []
  {
    assert GetterOk(s, s.pcs[t]);
  }

  lemma PoppedContent(outl: seq<Node>, later: seq<Node>)
    requires outl != []
    ensures var c := [] + outl + later; c != [] && c[0] == outl[0] && c[1..] == [] + outl[1..] + later
  {
  }

  lemma WayOn(s: Queue, t: Tid, c: seq<Node>)
    requires Inv(s) && t in s.pcs && OnTheWay(s.pcs[t], Content(s), c) && !s.pcs[t].GetUnlock?
    ensures OnTheWay(RunGet(s, t).pcs[t], Content(RunGet(s, t)), c)
  {
    if OnlyReads(s.pcs[t]) {
      ReadsOn(s, t, c);
    } else if s.pcs[t].GetSetOut? {
      PopsOn(s, t, c);
    } else {
      WritesOn(s, t, c);
    }
  }

  /** From any point past the lock to the return. */
  lemma GetFrom(s: Queue, t: Tid, c: seq<Node>) returns (k: nat, last: Queue, r: Queue)
    requires Inv(s) && t in s.pcs && OnTheWay(s.pcs[t], Content(s), c)
    ensures k <= HolderWork(s, t) && Leads(s, t, k, last, r) && HasGot(s.pcs, t, c, last, r)
    decreases HolderWork(s, t)
  {
    if s.pcs[t].GetUnlock? {
      Unlocks(s, t, c);
      k, last, r := 1, s, Next(s, Run(t));
    } else {
      var s1 := GoesOn(s, t, c);
      k, last, r := GetFrom(s1, t, c);
      SameGet(s.pcs, s1.pcs, t, c, last, r);
      Prepend(s, t, s1, k, last, r);
      k := k + 1;
    }
  }

  lemma GoesOn(s: Queue, t: Tid, c: seq<Node>) returns (s1: Queue)
    requires Inv(s) && t in s.pcs && OnTheWay(s.pcs[t], Content(s), c) && !s.pcs[t].GetUnlock?
    ensures Goes(s, t, s1) && Inv(s1) && t in s1.pcs && s1.pcs == s.pcs[t := s1.pcs[t]]
    ensures OnTheWay(s1.pcs[t], Content(s1), c) && HolderWork(s1, t) < HolderWork(s, t)
  {
    InvNext(s, Run(t));
    HolderAdvances(s, t);
    WayOn(s, t, c);
    s1 := RunGet(s, t);
  }

  lemma SameGet(pcs: map<Tid, Pc>, pcs1: map<Tid, Pc>, t: Tid, c: seq<Node>, last: Queue, r: Queue)
    requires t in pcs && t in pcs1 && pcs1 == pcs[t := pcs1[t]] && HasGot(pcs1, t, c, last, r)
    ensures HasGot(pcs, t, c, last, r)
  {
  }

  /** The end of a get from the queue c: NULL if it was empty, otherwise its first node, which is gone. */
  ghost predicate HasGot(pcs: map<Tid, Pc>, t: Tid, c: seq<Node>, last: Queue, r: Queue) {
    && Shows(last, t, RetDeq(t, if c == [] then None else Some(c[0])))
    && Content(r) == (if c == [] then [] else c[1..]) && r.lock == None && r.pcs == pcs[t := Idle]
  }

  lemma Unlocks(s: Queue, t: Tid, c: seq<Node>)
    requires Inv(s) && t in s.pcs && s.pcs[t].GetUnlock? && OnTheWay(s.pcs[t], Content(s), c)
    ensures Goes(s, t, Next(s, Run(t))) && HasGot(s.pcs, t, c, s, Next(s, Run(t)))
    ensures 0 < HolderWork(s, t)
  {
    ReversalKeepsContent(s, t);
  }

  /** A get that finds the lock free takes it and, if it meets nobody, returns after a bounded number of
      accesses, whatever puts are under way: with NULL from an empty queue, and otherwise with the oldest
      node. */
  lemma GetAlone(s: Queue, t: Tid) returns (s1: Queue, k: nat, last: Queue, r: Queue)
    requires Inv(s) && Enabled(s, CallGet(t)) && s.lock == None
    ensures Goes(Next(s, CallGet(t)), t, s1) && s1.lock == Some(t)
    ensures k <= 4 * |s.inl| + 7 && Leads(s1, t, k, last, r)
    ensures HasGot(s.pcs, t, Content(s), last, r) && r.pcs == s.pcs
  {
    Enters(s, CallGet(t));
    var s0 := Next(s, CallGet(t));
    s1, k, last, r := GetFromLock(s0, t);
    SameGet(s.pcs, s0.pcs, t, Content(s), last, r);
    BackAgain(s.pcs, s0.pcs, r.pcs, t, GetLock);
  }

  lemma GetFromLock(s: Queue, t: Tid) returns (s1: Queue, k: nat, last: Queue, r: Queue)
    requires Inv(s) && t in s.pcs && s.pcs[t] == GetLock && s.lock == None
    ensures Goes(s, t, s1) && s1.lock == Some(t)
    ensures k <= 4 * |s.inl| + 7 && Leads(s1, t, k, last, r) && HasGot(s.pcs, t, Content(s), last, r)
  {
    Locks(s, t);
    s1 := Next(s, Run(t));
    k, last, r := GetFrom(s1, t, Content(s));
    SameGet(s.pcs, s1.pcs, t, Content(s), last, r);
  }

  lemma Locks(s: Queue, t: Tid)
    requires Inv(s) && t in s.pcs && s.pcs[t] == GetLock && s.lock == None
    ensures var s1 := Next(s, Run(t));
      && Inv(s1) && s1 == s.(lock := Some(t), pcs := s.pcs[t := GetTestOut]) && Content(s1) == Content(s)
  {
    InvNext(s, Run(t));
  }
}
