/** The ticket ring inside one MPI process, where nobody else touches it: whole operations. */
module LocalRing {
  import Slots

  datatype Ring = Ring(slots: seq<int>, head: int, tail: int)

  /** InitXTaskQueue. */
  function Fresh(n: nat): Ring { Ring(seq(n, _ => 0), -1, -1) }

  predicate Ok(r: Ring) { 0 < |r.slots| && -1 <= r.head <= r.tail }

  /** EnqueueToQ. */
  function Enqueue(r: Ring, v: int): Ring
    requires Ok(r)
  {
    Ring(r.slots[(r.tail + 1) % |r.slots| := v], r.head, r.tail + 1)
  }

  /** DequeueFromQ comes back: the queue is empty, or the spin finds an element. */
  predicate Returns(r: Ring)
    requires Ok(r)
  {
    r.head == r.tail || r.slots[(r.head + 1) % |r.slots|] != 0
  }

  /** DequeueFromQ: -1 on an empty queue. */
  function Dequeue(r: Ring): (int, Ring)
    requires Ok(r) && Returns(r)
  {
    if r.head == r.tail then (-1, r)
    else
      var i := (r.head + 1) % |r.slots|;
      (r.slots[i], Ring(r.slots[i := 0], r.head + 1, r.tail))
  }

  /** main's loop: enqueue 1, 2, .., m. */
  function Prefilled(n: nat, m: nat): (r: Ring)
    requires 0 < n
    ensures Ok(r) && |r.slots| == n && r.head == -1 && r.tail == m - 1
  {
    if m == 0 then Fresh(n) else Enqueue(Prefilled(n, m - 1), m)
  }

  /** The ring holds lo + 1 .. m, in order, and nothing else. */
  ghost predicate Holds(r: Ring, lo: nat, m: nat) {
    && lo <= m <= |r.slots| && 0 < |r.slots| && r.head == lo - 1 && r.tail == m - 1
    && forall i :: 0 <= i < |r.slots| ==> r.slots[i] == if lo <= i < m then i + 1 else 0
  }

  lemma {:induction false} PrefilledHolds(n: nat, m: nat)
    requires 0 < n && m <= n
    ensures Holds(Prefilled(n, m), 0, m)
  {
    if m > 0 {
      PrefilledHolds(n, m - 1);
      Slots.ModUnique(m - 1, n, 0, m - 1);
    }
  }

  /** An enqueue of the next number within the capacity. */
  lemma EnqueueHolds(r: Ring, lo: nat, m: nat)
    requires Holds(r, lo, m) && m < |r.slots|
    ensures Holds(Enqueue(r, m + 1), lo, m + 1)
  {
    Slots.ModUnique(m, |r.slots|, 0, m);
  }

  /** A dequeue delivers the numbers in order and says -1 at the end. */
  lemma DequeueHolds(r: Ring, lo: nat, m: nat)
    requires Holds(r, lo, m)
    ensures Returns(r)
    ensures lo < m ==> Dequeue(r).0 == lo + 1 && Holds(Dequeue(r).1, lo + 1, m)
    ensures lo == m ==> Dequeue(r) == (-1, r)
  {
    if lo < m {
      Slots.ModUnique(lo, |r.slots|, 0, lo);
    }
  }

  /** The first slot after m enqueues: past the capacity it is overwritten. */
  lemma {:induction false} FirstSlot(n: nat, m: nat)
    requires 0 < n && 0 < m
    ensures m <= n ==> Prefilled(n, m).slots[0] == 1
    ensures n < m ==> Prefilled(n, m).slots[0] > 1
  {
    if m == 1 {
      Slots.ModUnique(0, n, 0, 0);
    } else {
      FirstSlot(n, m - 1);
      if m <= n {
        Slots.ModUnique(m - 1, n, 0, m - 1);
      } else if m == n + 1 {
        Slots.ModUnique(n, n, 1, 0);
      }
    }
  }

  /** The numbers that k dequeues deliver, as long as they come back. */
  ghost predicate Delivers(r: Ring, k: nat, from: int)
    requires Ok(r)
    decreases k
  {
    k == 0 || (Returns(r) && Dequeue(r).0 == from && (Ok(Dequeue(r).1) && Delivers(Dequeue(r).1, k - 1, from + 1)))
  }

  lemma {:induction false} HoldsDelivers(r: Ring, lo: nat, m: nat)
    requires Holds(r, lo, m)
    ensures Delivers(r, m - lo, lo + 1)
    decreases m - lo
  {
    DequeueHolds(r, lo, m);
    if lo < m {
      HoldsDelivers(Dequeue(r).1, lo + 1, m);
    }
  }

  /** The exact capacity condition: after the loop that enqueues 1 .. m, the j-th of m dequeues
      delivers j, for all j, if and only if m is at most the number of slots. */
  lemma CapacityIsExact(n: nat, m: nat)
    requires 0 < n
    ensures Delivers(Prefilled(n, m), m, 1) <==> m <= n
  {
    if m <= n {
      PrefilledHolds(n, m);
      HoldsDelivers(Prefilled(n, m), 0, m);
    } else {
      FirstSlot(n, m);
      Slots.ModUnique(0, n, 0, 0);
    }
  }
}
