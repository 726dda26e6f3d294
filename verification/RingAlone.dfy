/** A whole dequeue that meets nobody, from any state of the ring: when it answers "empty", when it
    delivers, and when it spins for ever. */
module RingAlone {
  import opened AtomicFifo
  import opened TicketRing

  /** One access of thread t. */
  ghost predicate Goes(g: Gate, s: Ring, t: Tid, s': Ring) {
    Owned(s) && Enabled(s, Run(t)) && s' == Next(g, s, Run(t))
  }

  /** Thread t makes all the accesses, and none but the last returns. */
  ghost predicate Alone(g: Gate, states: seq<Ring>, t: Tid) {
    && (forall i :: 0 <= i < |states| - 1 ==> Goes(g, states[i], t, states[i + 1]))
    && (forall i :: 0 <= i < |states| - 2 ==> Silent(states[i], t))
  }

  ghost predicate Silent(s: Ring, t: Tid) { Enabled(s, Run(t)) && LabelOf(s, Run(t)) == Tau }

  /** The access of t in s returns r. */
  ghost predicate Answers(s: Ring, t: Tid, r: Option<int>) { Enabled(s, Run(t)) && LabelOf(s, Run(t)) == RetDeq(t, r) }

  /** What the source tests before it takes a ticket. */
  predicate SaysEmpty(g: Gate, s: Ring) {
    match g
    case Ungated => false
    case WhenEqual(_) => s.head == s.tail
    case WhenLappedAndEqual(_) => s.tail - s.N() > 0 && s.head == s.tail
  }

  lemma Advance(g: Gate, s: Ring, t: Tid) returns (s': Ring)
    requires Owned(s) && Enabled(s, Run(t))
    ensures Goes(g, s, t, s') && s' == Next(g, s, Run(t)) && Owned(s')
  {
    OwnedNext(g, s, Run(t));
    s' := Next(g, s, Run(t));
  }

  /** The comparison, in either order of its loads. */
  lemma Compares(g: Gate, s: Ring, t: Tid) returns (s1: Ring, s2: Ring)
    requires Owned(s) && t in s.pcs && !g.Ungated?
    requires s.pcs[t] == if g.tailFirst then GateTailFirst else GateHead
    ensures Goes(g, s, t, s1) && Goes(g, s1, t, s2) && Silent(s, t) && Owned(s2)
    ensures s2 == s.(pcs := s.pcs[t := if s.head == s.tail then Idle else DeqTake])
    ensures if s.head == s.tail then Answers(s1, t, None) else Silent(s1, t)
  {
    s1 := Advance(g, s, t);
    s2 := Advance(g, s1, t);
    assert s2.pcs == s.pcs[t := if s.head == s.tail then Idle else DeqTake];
  }

  /** The tests before the ticket: `states` ends with the answer, or where the ticket is taken. */
  lemma Tests(g: Gate, s: Ring, t: Tid) returns (states: seq<Ring>)
    requires Owned(s) && Enabled(s, CallDequeue(t))
    ensures 0 < |states| <= 4 && states[0] == Next(g, s, CallDequeue(t)) && Alone(g, states, t)
    ensures Owned(states[|states| - 1])
    ensures if SaysEmpty(g, s) then 1 < |states| && Answers(states[|states| - 2], t, None) && states[|states| - 1] == s
            else states[|states| - 1] == s.(pcs := s.pcs[t := DeqTake]) && (1 < |states| ==> Silent(states[|states| - 2], t))
  {
    OwnedNext(g, s, CallDequeue(t));
    var s0 := Next(g, s, CallDequeue(t));
    match g {
      case Ungated =>
        states := [s0];
      case WhenEqual(_) =>
        var s1, s2 := Compares(g, s0, t);
        assert s.head == s.tail ==> s2.pcs == s.pcs;
        states := [s0, s1, s2];
      case WhenLappedAndEqual(_) =>
        var s1 := Advance(g, s0, t);
        if s.tail - s.N() > 0 {
          var s2, s3 := Compares(g, s1, t);
          assert s.head == s.tail ==> s3.pcs == s.pcs;
          states := [s0, s1, s2, s3];
        } else {
          assert s1.pcs == s.pcs[t := DeqTake];
          states := [s0, s1];
        }
    }
  }

  /** From the add-and-fetch on, with an element in the slot. */
  lemma Delivers(g: Gate, s: Ring, t: Tid) returns (s1: Ring, s2: Ring, s3: Ring, s4: Ring)
    requires Owned(s) && t in s.pcs && s.pcs[t] == DeqTake && s.slots[(s.head + 1) % s.N()] != 0
    ensures Goes(g, s, t, s1) && Goes(g, s1, t, s2) && Goes(g, s2, t, s3) && Goes(g, s3, t, s4)
    ensures Silent(s, t) && Silent(s1, t) && Silent(s2, t)
    ensures var i := (s.head + 1) % s.N(); var x := s.slots[i];
      && Answers(s3, t, Some(x))
      && s4 == s.(head := s.head + 1, slots := s.slots[i := 0], deq := s.deq + [DeqTicket(t, Some(x))],
                  origin := s.origin[i := None], pcs := s.pcs[t := Idle])
  {
    s1 := Advance(g, s, t);
    s2 := Advance(g, s1, t);
    s3 := Advance(g, s2, t);
    s4 := Advance(g, s3, t);
    assert s4.pcs == s.pcs[t := Idle];
  }

  /** And without one: the ticket is taken, and the spin goes on as long as nobody fills the slot. */
  lemma Spins(g: Gate, s: Ring, t: Tid) returns (s1: Ring)
    requires Owned(s) && t in s.pcs && s.pcs[t] == DeqTake && s.slots[(s.head + 1) % s.N()] == 0
    ensures Goes(g, s, t, s1) && Goes(g, s1, t, s1) && Silent(s, t) && Silent(s1, t)
    ensures s1 == s.(head := s.head + 1, deq := s.deq + [DeqTicket(t, None)], pcs := s.pcs[t := DeqSpin(s.head + 1)])
  {
    s1 := Advance(g, s, t);
    var s2 := Advance(g, s1, t);
  }

  /** How a dequeue ends that takes a ticket: with the element of the next slot, which is cleared, or with a
      ticket for a slot that holds nothing. */
  ghost predicate Ticketed(g: Gate, s: Ring, t: Tid, last: Ring, r: Ring)
    requires Owned(s)
  {
    var i := (s.head + 1) % s.N();
    if s.slots[i] != 0 then
      && Answers(last, t, Some(s.slots[i]))
      && r == s.(head := s.head + 1, slots := s.slots[i := 0], deq := s.deq + [DeqTicket(t, Some(s.slots[i]))],
                 origin := s.origin[i := None], pcs := s.pcs[t := Idle])
    else
      && Silent(last, t) && Silent(r, t) && Goes(g, r, t, r)
      && r == s.(head := s.head + 1, deq := s.deq + [DeqTicket(t, None)], pcs := s.pcs[t := DeqSpin(s.head + 1)])
  }

  lemma Takes(g: Gate, s: Ring, t: Tid) returns (states: seq<Ring>)
    requires Owned(s) && t in s.pcs && s.pcs[t] == DeqTake
    ensures 1 < |states| && states[0] == s && Alone(g, states, t)
    ensures Ticketed(g, s, t, states[|states| - 2], states[|states| - 1])
  {
    if s.slots[(s.head + 1) % s.N()] != 0 {
      var s1, s2, s3, s4 := Delivers(g, s, t);
      states := [s, s1, s2, s3, s4];
    } else {
      var s1 := Spins(g, s, t);
      states := [s, s1];
    }
  }

  /** How a dequeue alone ends: with "empty" and everything as it was, exactly if the gate's test holds, and
      otherwise with the next ticket. */
  ghost predicate Outcome(g: Gate, s: Ring, t: Tid, last: Ring, r: Ring)
    requires Owned(s)
  {
    if SaysEmpty(g, s) then Answers(last, t, None) && r == s else Ticketed(g, s, t, last, r)
  }

  /** A whole dequeue that meets nobody, in every state of the ring and for every gate. */
  lemma DequeueAlone(g: Gate, s: Ring, t: Tid) returns (states: seq<Ring>)
    requires Owned(s) && Enabled(s, CallDequeue(t))
    ensures 1 < |states| && states[0] == Next(g, s, CallDequeue(t)) && Alone(g, states, t)
    ensures Outcome(g, s, t, states[|states| - 2], states[|states| - 1])
  {
    var before := Tests(g, s, t);
    if SaysEmpty(g, s) {
      states := before;
    } else {
      var s0 := before[|before| - 1];
      var rest := Takes(g, s0, t);
      Joined(g, before, rest, t);
      SameTicket(g, s, t, s0, rest[|rest| - 2], rest[|rest| - 1]);
      states := before + rest[1..];
    }
  }

  lemma SameTicket(g: Gate, s: Ring, t: Tid, s0: Ring, last: Ring, r: Ring)
    requires Owned(s) && Owned(s0) && s0 == s.(pcs := s.pcs[t := DeqTake]) && Ticketed(g, s0, t, last, r)
    ensures Ticketed(g, s, t, last, r)
  {
    assert s0.pcs[t := Idle] == s.pcs[t := Idle];
    assert s0.pcs[t := DeqSpin(s.head + 1)] == s.pcs[t := DeqSpin(s.head + 1)];
  }

  lemma Joined(g: Gate, k: seq<Ring>, l: seq<Ring>, t: Tid)
    requires k != [] && 1 < |l| && Alone(g, k, t) && Alone(g, l, t) && k[|k| - 1] == l[0]
    requires 1 < |k| ==> Silent(k[|k| - 2], t)
    ensures var m := k + l[1..];
      Alone(g, m, t) && m[0] == k[0] && m[|m| - 2] == l[|l| - 2] && m[|m| - 1] == l[|l| - 1]
  {
    var m := k + l[1..];
    forall i | 0 <= i < |m| - 1 ensures Goes(g, m[i], t, m[i + 1]) {
      if i < |k| - 1 {
        assert Goes(g, k[i], t, k[i + 1]);
      } else {
        assert Goes(g, l[i - |k| + 1], t, l[i - |k| + 2]);
      }
    }
    forall i | 0 <= i < |m| - 2 ensures Silent(m[i], t) {
      if i < |k| - 1 {
        assert i < |k| - 2 ==> Silent(k[i], t);
      } else {
        assert Silent(l[i - |k| + 1], t);
      }
    }
  }
}
