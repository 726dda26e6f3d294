/** The linked queue of lockfreequeue.c used by one thread. Memory is a field: the allocated nodes and
    pointer cells by address, so that every access to an object is checked to be to a live one. The
    addresses malloc returns are parameters; freed addresses may come back. The queue's head cell
    points to a dummy node; each node's `next` leads to the cell of the node behind it. */
module LinkedQueue {
  type Addr = nat   // 0 is NULL
  type Value = int  // a task pointer; 0 is NULL
  const NULL := 0

  datatype Node = Node(value: Value, next: Addr)
  datatype Cell = Cell(count: int, nptr: Addr)

  ghost predicate NoRepeat(s: seq<Addr>) {
    forall i, j :: 0 <= i < j < |s| ==> s[i] != s[j]
  }

  /** The i-th cell points to the i-th node, whose `next` is the cell after it. */
  predicate Linked(nodes: map<Addr, Node>, cells: map<Addr, Cell>, ns: seq<Addr>, cs: seq<Addr>, i: nat)
    requires i < |ns| == |cs|
  {
    && cs[i] != NULL && cs[i] in cells && cells[cs[i]].nptr == ns[i] && 1 <= cells[cs[i]].count
    && ns[i] != NULL && ns[i] in nodes && nodes[ns[i]].next == if i + 1 < |cs| then cs[i + 1] else NULL
  }

  ghost predicate AllLinked(nodes: map<Addr, Node>, cells: map<Addr, Cell>, ns: seq<Addr>, cs: seq<Addr>)
    requires |ns| == |cs|
  {
    forall i: nat :: i < |cs| ==> Linked(nodes, cells, ns, cs, i)
  }

  /** The memory holds exactly the chain cs[0] -> ns[0] -> cs[1] -> ns[1] .. , from head to tail. */
  ghost predicate Chain(head: Addr, tail: Addr, nodes: map<Addr, Node>, cells: map<Addr, Cell>, ns: seq<Addr>, cs: seq<Addr>) {
    && 0 < |ns| == |cs| && head == cs[0] && tail == cs[|cs| - 1]
    && NoRepeat(ns) && NoRepeat(cs)
    && AllLinked(nodes, cells, ns, cs)
    && (forall a :: a in nodes ==> a in ns) && (forall a :: a in cells ==> a in cs)
  }

  /** The values of the nodes behind the dummy. */
  ghost function Values(nodes: map<Addr, Node>, ns: seq<Addr>): (vs: seq<Value>)
    requires 0 < |ns|
    ensures |vs| == |ns| - 1
    ensures forall i :: 0 <= i < |vs| ==> ns[i + 1] in nodes ==> vs[i] == nodes[ns[i + 1]].value
  {
    seq(|ns| - 1, i requires 0 <= i < |ns| - 1 => if ns[i + 1] in nodes then nodes[ns[i + 1]].value else NULL)
  }

  /** As many live objects as chain positions. */
  lemma {:induction false} CountLive(live: set<Addr>, s: seq<Addr>)
    requires NoRepeat(s) && (forall i :: 0 <= i < |s| ==> s[i] in live) && forall a :: a in live ==> a in s
    ensures |live| == |s|
  {
    if s == [] {
      assert live == {};
    } else {
      CountLive(live - {s[0]}, s[1..]);
    }
  }

  /** What releasing the two ends leaves. */
  lemma EndsReleased(live: set<Addr>, first: Addr, last: Addr)
    requires first in live && last in live && first != last
    ensures |live - {first} - {last}| == |live| - 2
    ensures live - {first} - {last} == {} <==> |live| == 2
  {
    assert |live - {first}| == |live| - 1;
    assert |live - {first} - {last}| == |live - {first}| - 1;
    if live - {first} - {last} == {} { assert |live - {first} - {last}| == 0; }
  }

  lemma ReleasedKeys<T>(m: map<Addr, T>, first: Addr, last: Addr)
    ensures (m - {first} - {last}).Keys == m.Keys - {first} - {last}
    ensures |m - {first} - {last}| == |m.Keys - {first} - {last}|
  {
    assert (m - {first} - {last}).Keys == m.Keys - {first} - {last};
  }

  lemma SoleKey<T>(m: map<Addr, T>, a: Addr)
    requires a in m && |m| == 1
    ensures (m - {a}).Keys == {}
  {
    assert |m.Keys - {a}| == |m.Keys| - 1 == 0;
    assert (m - {a}).Keys == m.Keys - {a};
  }

  /** Where a push and a pop look. */
  lemma ChainEnds(head: Addr, tail: Addr, nodes: map<Addr, Node>, cells: map<Addr, Cell>, ns: seq<Addr>, cs: seq<Addr>)
    requires Chain(head, tail, nodes, cells, ns, cs)
    ensures head in cells && tail in cells && cells[head].nptr == ns[0] && cells[tail].nptr == ns[|ns| - 1]
    ensures ns[0] in nodes && ns[|ns| - 1] in nodes && nodes[ns[|ns| - 1]].next == NULL
    ensures 0 < cells[head].count && (head == tail <==> |ns| == 1)
  {
    assert Linked(nodes, cells, ns, cs, 0) && Linked(nodes, cells, ns, cs, |ns| - 1);
  }

  /** The nodes after a push. */
  function PushedNodes(nodes: map<Addr, Node>, last: Addr, node: Addr, cell: Addr, value: Value): map<Addr, Node>
    requires last in nodes
  {
    nodes[node := Node(value, NULL)][last := Node(nodes[last].value, cell)]
  }

  lemma PushedLinks(nodes: map<Addr, Node>, cells: map<Addr, Cell>, ns: seq<Addr>, cs: seq<Addr>, node: Addr, cell: Addr, value: Value, i: nat)
    requires 0 < |ns| == |cs| && NoRepeat(ns) && ns[|ns| - 1] in nodes
    requires i < |ns| && Linked(nodes, cells, ns, cs, i) && node != NULL && cell != NULL && node !in nodes && cell !in cells
    ensures Linked(PushedNodes(nodes, ns[|ns| - 1], node, cell, value), cells[cell := Cell(2, node)], ns + [node], cs + [cell], i)
    ensures ns[i] != node && cs[i] != cell
  {
    var ns', cs' := ns + [node], cs + [cell];
    assert ns'[i] == ns[i] && cs'[i] == cs[i];
    if i + 1 < |ns| {
      assert ns[i] != ns[|ns| - 1] && cs'[i + 1] == cs[i + 1];
    }
  }

  lemma AppendNoRepeat(s: seq<Addr>, a: Addr)
    requires NoRepeat(s) && a !in s
    ensures NoRepeat(s + [a])
  {
  }

  lemma AppendCovers<T>(m: map<Addr, T>, m': map<Addr, T>, s: seq<Addr>, x: Addr)
    requires (forall a :: a in m ==> a in s) && forall a :: a in m' ==> a in m || a == x
    ensures forall a :: a in m' ==> a in s + [x]
  {
  }

  lemma PushedAll(nodes: map<Addr, Node>, cells: map<Addr, Cell>, ns: seq<Addr>, cs: seq<Addr>, node: Addr, cell: Addr, value: Value)
    requires 0 < |ns| == |cs| && NoRepeat(ns) && ns[|ns| - 1] in nodes && AllLinked(nodes, cells, ns, cs)
    requires node != NULL && cell != NULL && node !in nodes && cell !in cells
    ensures AllLinked(PushedNodes(nodes, ns[|ns| - 1], node, cell, value), cells[cell := Cell(2, node)], ns + [node], cs + [cell])
    ensures node !in ns && cell !in cs
  {
    var m := |ns|;
    var nodes', cells', ns', cs' := PushedNodes(nodes, ns[m - 1], node, cell, value), cells[cell := Cell(2, node)], ns + [node], cs + [cell];
    forall i: nat | i < m ensures Linked(nodes', cells', ns', cs', i) && ns[i] != node && cs[i] != cell {
      PushedLinks(nodes, cells, ns, cs, node, cell, value, i);
    }
    assert ns'[m] == node && cs'[m] == cell;
    assert Linked(nodes', cells', ns', cs', m);
  }

  /** A new node and its cell linked behind the tail. */
  lemma PushedChain(head: Addr, tail: Addr, nodes: map<Addr, Node>, cells: map<Addr, Cell>, ns: seq<Addr>, cs: seq<Addr>,
                    node: Addr, cell: Addr, value: Value)
    requires Chain(head, tail, nodes, cells, ns, cs) && ns[|ns| - 1] in nodes
    requires node != NULL && cell != NULL && node !in nodes && cell !in cells
    ensures Chain(head, cell, PushedNodes(nodes, ns[|ns| - 1], node, cell, value), cells[cell := Cell(2, node)], ns + [node], cs + [cell])
  {
    PushedAll(nodes, cells, ns, cs, node, cell, value);
    AppendNoRepeat(ns, node);
    AppendNoRepeat(cs, cell);
    AppendCovers(nodes, PushedNodes(nodes, ns[|ns| - 1], node, cell, value), ns, node);
    AppendCovers(cells, cells[cell := Cell(2, node)], cs, cell);
  }

  lemma PushedValues(nodes: map<Addr, Node>, ns: seq<Addr>, node: Addr, cell: Addr, value: Value)
    requires 0 < |ns| && node !in nodes && forall i :: 0 <= i < |ns| ==> ns[i] in nodes
    ensures Values(PushedNodes(nodes, ns[|ns| - 1], node, cell, value), ns + [node]) == Values(nodes, ns) + [value]
  {
    var nodes', ns' := PushedNodes(nodes, ns[|ns| - 1], node, cell, value), ns + [node];
    forall i | 0 <= i < |ns| - 1 ensures Values(nodes', ns')[i] == Values(nodes, ns)[i] {
      assert ns'[i + 1] == ns[i + 1] && ns[i + 1] in nodes;
    }
    if |ns| > 0 { assert ns'[|ns|] == node; }
  }

  /** A pop looks at the first two nodes and the cell between them. */
  lemma ChainFront(head: Addr, tail: Addr, nodes: map<Addr, Node>, cells: map<Addr, Cell>, ns: seq<Addr>, cs: seq<Addr>)
    requires Chain(head, tail, nodes, cells, ns, cs) && 1 < |ns|
    ensures forall i :: 0 <= i < |ns| ==> ns[i] in nodes
    ensures nodes[ns[0]].next == cs[1] != NULL && cs[1] in cells && cells[cs[1]].nptr == ns[1]
    ensures nodes[ns[1]].next == NULL <==> |ns| == 2
    ensures ns[0] != ns[1] && ns[0] != ns[|ns| - 1] && cs[0] != cs[1]
  {
    forall i: nat | i < |ns| ensures ns[i] in nodes { assert Linked(nodes, cells, ns, cs, i); }
    assert Linked(nodes, cells, ns, cs, 0) && Linked(nodes, cells, ns, cs, 1);
    if |ns| > 2 { assert Linked(nodes, cells, ns, cs, 2); }
  }

  /** Popping the only element: the dummy goes, the element's node becomes the dummy. */
  lemma PoppedOnly(head: Addr, tail: Addr, nodes: map<Addr, Node>, cells: map<Addr, Cell>, ns: seq<Addr>, cs: seq<Addr>, count: int)
    requires Chain(head, tail, nodes, cells, ns, cs) && |ns| == 2 && 1 <= count
    ensures Chain(head, head, nodes - {ns[0]}, cells[head := Cell(count, ns[1])] - {cs[1]}, [ns[1]], [cs[0]])
  {
    assert Linked(nodes, cells, ns, cs, 0) && Linked(nodes, cells, ns, cs, 1);
    var nodes', cells' := nodes - {ns[0]}, cells[head := Cell(count, ns[1])] - {cs[1]};
    assert Linked(nodes', cells', [ns[1]], [cs[0]], 0);
    forall a | a in nodes' ensures a in [ns[1]] { assert a in ns; }
    forall a | a in cells' ensures a in [cs[0]] { assert a in cs; }
  }

  /** Popping one of several: the dummy stays and skips the element's node. */
  lemma PoppedFirst(head: Addr, tail: Addr, nodes: map<Addr, Node>, cells: map<Addr, Cell>, ns: seq<Addr>, cs: seq<Addr>)
    requires Chain(head, tail, nodes, cells, ns, cs) && 2 < |ns| && ns[0] in nodes && ns[1] in nodes
    ensures Chain(head, tail, nodes[ns[0] := nodes[ns[0]].(next := nodes[ns[1]].next)] - {ns[1]}, cells - {cs[1]},
                  [ns[0]] + ns[2..], [cs[0]] + cs[2..])
  {
    var nodes', cells' := nodes[ns[0] := nodes[ns[0]].(next := nodes[ns[1]].next)] - {ns[1]}, cells - {cs[1]};
    var ns', cs' := [ns[0]] + ns[2..], [cs[0]] + cs[2..];
    forall i: nat | i < |ns'| ensures Linked(nodes', cells', ns', cs', i) {
      var j := if i == 0 then 0 else i + 1;
      assert ns'[i] == ns[j] && cs'[i] == cs[j];
      assert Linked(nodes, cells, ns, cs, j) && Linked(nodes, cells, ns, cs, 1);
      if i + 1 < |ns'| { assert cs'[i + 1] == cs[i + 2]; }
    }
    forall a | a in nodes' ensures a in ns' {
      var j :| 0 <= j < |ns| && a == ns[j];
      assert j != 1 && ns'[if j == 0 then 0 else j - 1] == a;
    }
    forall a | a in cells' ensures a in cs' {
      var j :| 0 <= j < |cs| && a == cs[j];
      assert j != 1 && cs'[if j == 0 then 0 else j - 1] == a;
    }
  }

  class ListQueue {
    var head: Addr
    var tail: Addr
    var nodes: map<Addr, Node>
    var cells: map<Addr, Cell>
    var live: bool           // the queue structure itself is allocated
    ghost var ns: seq<Addr>  // the chain: the dummy node, then one node for each element
    ghost var cs: seq<Addr>  // and the cells that point to them

    ghost predicate Valid()
      reads this
    {
      live && Chain(head, tail, nodes, cells, ns, cs)
    }

    /** The elements, oldest first. */
    ghost function Contents(): seq<Value>
      requires Valid()
      reads this
    {
      Values(nodes, ns)
    }

    /** q_initialize. */
    constructor (node: Addr, cell: Addr)
      requires node != NULL && cell != NULL
      ensures Valid() && Contents() == []
    {
      nodes := map[node := Node(NULL, NULL)];
      cells := map[cell := Cell(1, node)];
      head, tail, live := cell, cell, true;
      ns, cs := [node], [cell];
    }

    /** free: only of an allocated object. */
    method FreeNode(a: Addr)
      requires a in nodes
      modifies this`nodes
      ensures nodes == old(nodes) - {a}
    {
      nodes := nodes - {a};
    }

    method FreeCell(a: Addr)
      requires a in cells
      modifies this`cells
      ensures cells == old(cells) - {a}
    {
      cells := cells - {a};
    }

    /** Allocation account: one node and one cell more than there are elements. */
    lemma LiveCount()
      requires Valid()
      ensures |nodes| == |cells| == 1 + |Contents()|
    {
      forall i: nat | i < |ns| ensures ns[i] in nodes && cs[i] in cells { assert Linked(nodes, cells, ns, cs, i); }
      CountLive(nodes.Keys, ns);
      CountLive(cells.Keys, cs);
    }

    /** queue_free: everything is released if and only if at most one element remains; otherwise a
        node and a cell for each element but one stay allocated. */
    method Release()
      requires Valid()
      modifies this
      ensures !live
      ensures nodes.Keys == {} && cells.Keys == {} <==> |old(Contents())| <= 1
      ensures |old(Contents())| > 1 ==> |nodes| == |cells| == |old(Contents())| - 1
    {
      LiveCount();
      ChainEnds(head, tail, nodes, cells, ns, cs);
      ghost var first, last, head0, tail0, ns0, cs0 := ns[0], ns[|ns| - 1], head, tail, nodes, cells;
      assert |nodes.Keys| == |nodes| && |cells.Keys| == |cells|;
      assert head != NULL && tail != NULL by {
        assert Linked(nodes, cells, ns, cs, 0) && Linked(nodes, cells, ns, cs, |ns| - 1);
      }
      if |ns| > 1 { ChainFront(head, tail, nodes, cells, ns, cs); }
      FreeEnds();
      if head0 == tail0 {
        SoleKey(ns0, first);
        SoleKey(cs0, head0);
      } else {
        EndsReleased(ns0.Keys, first, last);
        EndsReleased(cs0.Keys, head0, tail0);
        ReleasedKeys(ns0, first, last);
        ReleasedKeys(cs0, head0, tail0);
      }
    }

    /** The body of queue_free. */
    method FreeEnds()
      requires head in cells && tail in cells && head != NULL && tail != NULL && cells[head].nptr in nodes
      requires head != tail ==> cells[tail].nptr in nodes && cells[tail].nptr != cells[head].nptr
      modifies this`nodes, this`cells, this`live
      ensures !live
      ensures old(head == tail) ==> nodes == old(nodes - {cells[head].nptr}) && cells == old(cells) - {head}
      ensures old(head != tail) ==> nodes == old(nodes - {cells[head].nptr} - {cells[tail].nptr}) && cells == old(cells) - {head} - {tail}
    {
      if head == tail {
        FreeNode(cells[head].nptr);
        FreeCell(head);
        live := false;
      } else if head != NULL && tail != NULL {
        FreeNode(cells[head].nptr);
        FreeCell(head);
        FreeNode(cells[tail].nptr);
        FreeCell(tail);
        live := false;
      } else {
        assert false;
      }
    }

    /** qpush. One turn of the loop suffices; the helping branch and the retries are dead. */
    method Push(value: Value, node: Addr, cell: Addr)
      requires Valid() && node != NULL && cell != NULL && node !in nodes && cell !in cells
      modifies this
      ensures Valid() && Contents() == old(Contents()) + [value]
      ensures head == old(head) && |ns| == |old(ns)| + 1
    {
      ChainEnds(head, tail, nodes, cells, ns, cs);
      forall i: nat | i < |ns| ensures ns[i] in nodes { assert Linked(nodes, cells, ns, cs, i); }
      PushedChain(head, tail, nodes, cells, ns, cs, node, cell, value);
      PushedValues(nodes, ns, node, cell, value);
      LinkBehind(value, node, cell);
      ns, cs := ns + [node], cs + [cell];
    }

    /** The body of qpush. */
    method LinkBehind(value: Value, node: Addr, cell: Addr)
      requires node !in nodes && cell !in cells
      requires tail in cells && cells[tail].nptr in nodes && nodes[cells[tail].nptr].next == NULL
      modifies this`nodes, this`cells, this`tail
      ensures tail == cell && cells == old(cells)[cell := Cell(2, node)]
      ensures nodes == PushedNodes(old(nodes), old(cells[tail].nptr), node, cell, value)
    {
      nodes := nodes[node := Node(value, NULL)];
      cells := cells[cell := Cell(1, node)];
      var done := false;
      ghost var turns, last := 0, cells[tail].nptr;
      ghost var nodes0, cells0 := nodes, cells;
      while !done
        invariant turns == if done then 1 else 0
        invariant !done ==> tail == old(tail) && nodes == nodes0 && cells == cells0
        invariant done ==> tail == cell && cells == cells0[cell := Cell(2, node)]
        invariant done ==> nodes == nodes0[last := Node(nodes0[last].value, cell)]
        decreases !done
      {
        var t := tail;
        var next := nodes[cells[t].nptr].next;
        if t == tail {
          if next == NULL {
            cells := cells[cell := cells[cell].(count := cells[cell].count + 1)];
            nodes := nodes[cells[t].nptr := nodes[cells[t].nptr].(next := cell)];
            tail := cell;
            done := true;
          } else {
            assert false;
          }
        } else {
          assert false;
        }
        turns := turns + 1;
      }
    }

    /** qpop: NULL on an empty queue, otherwise the oldest element. */
    method Pop() returns (val: Value)
      requires Valid()
      modifies this
      ensures Valid() && head == old(head)
      ensures old(Contents()) == [] ==> val == NULL && Contents() == []
      ensures old(Contents()) != [] ==> val == old(Contents())[0] && Contents() == old(Contents())[1..]
    {
      ghost var ns0, cs0, nodes0 := ns, cs, nodes;
      ChainEnds(head, tail, nodes, cells, ns, cs);
      if |ns| > 1 {
        ChainFront(head, tail, nodes, cells, ns, cs);
        if |ns| == 2 {
          PoppedOnly(head, tail, nodes, cells, ns, cs, cells[head].count);
        } else {
          PoppedFirst(head, tail, nodes, cells, ns, cs);
        }
      }
      val := TakeFirst();
      if |ns0| == 2 {
        ns, cs := [ns0[1]], [cs0[0]];
      } else if |ns0| > 2 {
        ns, cs := [ns0[0]] + ns0[2..], [cs0[0]] + cs0[2..];
        PoppedValues(nodes0, nodes, ns0);
      }
    }

    /** The loop of qpop. One turn suffices; the refill for a zero count, the helping branch and the
        retries are dead, and every access is to an allocated object. */
    method TakeFirst() returns (val: Value)
      requires head in cells && tail in cells && 0 < cells[head].count && cells[head].nptr in nodes
      requires head != tail ==>
        var next := nodes[cells[head].nptr].next;
        && cells[head].nptr != cells[tail].nptr && next != NULL && next in cells && next != head
        && cells[next].nptr in nodes && cells[next].nptr != cells[head].nptr
      modifies this`nodes, this`cells, this`tail
      ensures old(head == tail) ==> val == NULL && nodes == old(nodes) && cells == old(cells) && tail == old(tail)
      ensures old(head != tail) ==>
        var dummy := old(cells[head].nptr);
        var next := old(nodes[cells[head].nptr].next);
        var node := old(cells[next].nptr);
        && val == old(nodes)[node].value
        && if old(nodes)[node].next == NULL then
             nodes == old(nodes) - {dummy} && tail == head
             && cells == old(cells)[head := Cell(old(cells[head].count), node)] - {next}
           else
             nodes == old(nodes)[dummy := old(nodes)[dummy].(next := old(nodes)[node].next)] - {node} && tail == old(tail)
             && cells == old(cells) - {next}
    {
      val := NULL;
      if head == tail {
        return;
      }
      var done := false;
      ghost var dummy := cells[head].nptr;
      ghost var nx := nodes[dummy].next;
      ghost var node := cells[nx].nptr;
      ghost var nodes0, cells0 := nodes, cells;
      while !done
        invariant !done ==> nodes == nodes0 && cells == cells0 && tail == old(tail)
        invariant done ==> val == nodes0[node].value
        invariant done && nodes0[node].next == NULL ==>
          nodes == nodes0 - {dummy} && tail == head && cells == cells0[head := Cell(cells0[head].count, node)] - {nx}
        invariant done && nodes0[node].next != NULL ==>
          nodes == nodes0[dummy := nodes0[dummy].(next := nodes0[node].next)] - {node} && tail == old(tail) && cells == cells0 - {nx}
        decreases !done
      {
        var h, t := head, tail;
        if cells[head].count == 0 {
          assert false;
        }
        var tmp := nodes[cells[head].nptr].next;
        var next := nodes[cells[head].nptr].next;
        if next == NULL {
          assert false;
        }
        if h == head {
          if cells[h].nptr == cells[t].nptr {
            assert false;
          } else {
            val := nodes[cells[next].nptr].value;
            if nodes[cells[next].nptr].next == NULL {
              FreeNode(cells[head].nptr);
              cells := cells[head := cells[head].(nptr := cells[next].nptr)];
              tail := head;
              FreeCell(next);
              done := true;
            } else {
              cells := cells[next := cells[next].(count := cells[next].count + 1)];
              if nodes[cells[head].nptr].next == tmp {
                nodes := nodes[cells[head].nptr := nodes[cells[head].nptr].(next := nodes[cells[next].nptr].next)];
                FreeNode(cells[next].nptr);
                FreeCell(next);
                done := true;
              } else {
                assert false;
              }
            }
          }
        } else {
          assert false;
        }
      }
    }
  }

  lemma PoppedValues(nodes: map<Addr, Node>, nodes': map<Addr, Node>, ns: seq<Addr>)
    requires 2 < |ns| && NoRepeat(ns) && (forall i :: 0 <= i < |ns| ==> ns[i] in nodes)
    requires forall a :: a in nodes && a != ns[0] && a != ns[1] ==> a in nodes' && nodes'[a] == nodes[a]
    ensures Values(nodes', [ns[0]] + ns[2..]) == Values(nodes, ns)[1..]
  {
    var ns', vs, vs' := [ns[0]] + ns[2..], Values(nodes, ns), Values(nodes', [ns[0]] + ns[2..]);
    forall i | 0 <= i < |vs'| ensures vs'[i] == vs[1..][i] {
      assert ns'[i + 1] == ns[i + 2] && ns[i + 2] in nodes && ns[i + 2] != ns[0] && ns[i + 2] != ns[1];
      assert vs[i + 1] == nodes[ns[i + 2]].value;
    }
  }
}
