/** queue_put and queue_get as whole functions, called with nobody else running. */
module SemiBlockingWhole {
  import opened AtomicFifo
  import opened SemiBlocking
  import opened SemiBlockingRefinement

  ghost predicate NoRepeats(l: seq<Node>) {
    forall i, j :: 0 <= i < j < |l| ==> l[i] != l[j]
  }

  ghost predicate Apart(l: seq<Node>, k: seq<Node>) {
    forall n :: n in l ==> n !in k
  }

  ghost predicate Lists(next: map<Node, Link>, p: Link, l: seq<Node>, q: Link, k: seq<Node>) {
    IsList(next, p, l) && NoRepeats(l) && IsList(next, q, k) && NoRepeats(k) && Apart(l, k)
  }

  /** A node of neither list linked in front of the first. */
  lemma ListsPush(next: map<Node, Link>, p: Link, l: seq<Node>, q: Link, k: seq<Node>, n: Node)
    requires Lists(next, p, l, q, k) && n in next && n !in l && n !in k
    ensures Lists(next[n := p], p, l, q, k) && Lists(next[n := p], Some(n), [n] + l, q, k)
    ensures k + Reverse([n] + l) == (k + Reverse(l)) + [n]
  {
    ListKept(next, p, l, n, p);
    ListKept(next, q, k, n, p);
    ReversePush(n, l);
    assert k + (Reverse(l) + [n]) == (k + Reverse(l)) + [n];
  }

  /** The first node of the first list moved to the front of the second. */
  lemma ListsMove(next: map<Node, Link>, p: Link, l: seq<Node>, q: Link, k: seq<Node>)
    requires Lists(next, p, l, q, k) && l != []
    ensures p == Some(l[0]) && l[0] in next
    ensures Lists(next[l[0] := q], next[l[0]], l[1..], p, [l[0]] + k)
    ensures Reverse(l) + k == Reverse(l[1..]) + ([l[0]] + k)
  {
    assert IsList(next, next[l[0]], l[1..]);
    ListKept(next, next[l[0]], l[1..], l[0], q);
    ListKept(next, q, k, l[0], q);
    MoveHead(l, k);
  }

  /** The first node of the second list taken off. */
  lemma ListsPop(next: map<Node, Link>, p: Link, l: seq<Node>, q: Link, k: seq<Node>)
    requires Lists(next, p, l, q, k) && k != []
    ensures q == Some(k[0]) && k[0] in next && Lists(next, p, l, next[k[0]], k[1..])
    ensures k + Reverse(l) == [k[0]] + (k[1..] + Reverse(l))
  {
    assert k == [k[0]] + k[1..];
  }

  class QuietRoot {
    var inQueue: Link
    var outQueue: Link
    var next: map<Node, Link>
    ghost var inl: seq<Node>   // the in list, from its first node on
    ghost var outl: seq<Node>  // the out list

    ghost predicate Valid()
      reads this
    {
      Lists(next, inQueue, inl, outQueue, outl)
    }

    /** The queue, oldest node first. */
    ghost function Contents(): seq<Node>
      reads this
    {
      outl + Reverse(inl)
    }

    /** The root of any state of the machine in which no stack is being reversed. */
    constructor (ghost s: Queue, inq: Link, outq: Link, memory: map<Node, Link>)
      requires Inv(s) && s.det == [] && inq == s.inq && outq == s.outq && memory == s.next
      ensures Valid() && Contents() == Content(s)
    {
      inQueue, outQueue, next := inq, outq, memory;
      inl, outl := s.inl, s.outl;
      new;
      assert forall i :: 0 <= i < |inl| ==> s.place[inl[i]] == In;
      assert forall i :: 0 <= i < |outl| ==> s.place[outl[i]] == Out;
      assert Reverse([]) + outl + Reverse(inl) == outl + Reverse(inl);
    }

    /** queue_put: the node is behind all others. */
    method Put(n: Node)
      requires Valid() && n in next && n !in inl && n !in outl
      modifies this
      ensures Valid() && Contents() == old(Contents()) + [n]
    {
      var done := false;
      while !done
        invariant !done ==> next == old(next) && inQueue == old(inQueue) && inl == old(inl) && outl == old(outl)
        invariant Valid() && Contents() == if done then old(Contents()) + [n] else old(Contents())
        decreases !done
      {
        var seen := inQueue;
        ListsPush(next, inQueue, inl, outQueue, outl, n);
        next := next[n := seen];
        if inQueue == seen {
          inQueue := Some(n);
          inl := [n] + inl;
          done := true;
        }
      }
    }

    /** queue_get: NULL from an empty queue, otherwise the front node, whichever list it was in. */
    method Get() returns (r: Link)
      requires Valid()
      modifies this
      ensures Valid()
      ensures old(Contents()) == [] ==> r == None && Contents() == []
      ensures old(Contents()) != [] ==> r == Some(old(Contents())[0]) && Contents() == old(Contents())[1..]
    {
      if outQueue == None && inQueue != None {
        Refill();
      }
      r := outQueue;
      if r != None {
        ListsPop(next, inQueue, inl, outQueue, outl);
        outQueue := next[r.value];
        outl := outl[1..];
      }
    }

    /** The detaching of the stack and its reversal in place into the empty out list. */
    method Refill()
      requires Valid() && outQueue == None && inQueue != None
      modifies this
      ensures Valid() && Contents() == old(Contents()) && outl != []
    {
      var head := inQueue;
      ghost var det := inl;
      inQueue, inl := None, [];
      assert outl == [] && Reverse(det) + [] == Reverse(det) && [] + Reverse(det) == Reverse(det);
      while head != None
        invariant Lists(next, head, det, outQueue, outl)
        invariant inQueue == None && inl == [] && Reverse(det) + outl == Reverse(old(inl)) && |det| + |outl| == |old(inl)|
        decreases |det|
      {
        ListsMove(next, head, det, outQueue, outl);
        var nx := next[head.value];
        next := next[head.value := outQueue];
        outQueue := head;
        outl, det := [det[0]] + outl, det[1..];
        head := nx;
      }
      assert Reverse([]) + outl == outl && outl + Reverse([]) == outl;
    }
  }
}
