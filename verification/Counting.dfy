/** How many threads are at program points, or in calls, of a kind. */
module Counting {
  ghost function Those<P>(m: map<nat, P>, p: P -> bool): set<nat> {
    set t | t in m && p(m[t])
  }

  ghost function Count<P>(m: map<nat, P>, p: P -> bool): nat {
    |Those(m, p)|
  }

  function One(b: bool): nat { if b then 1 else 0 }

  lemma CountStep<P>(m: map<nat, P>, t: nat, x: P, p: P -> bool)
    requires t in m
    ensures Count(m[t := x], p) == Count(m, p) - One(p(m[t])) + One(p(x))
  {
    var rest := Those(m, p) - {t};
    assert Those(m, p) == if p(m[t]) then rest + {t} else rest;
    assert Those(m[t := x], p) == if p(x) then rest + {t} else rest;
  }

  lemma CountNone<P>(m: map<nat, P>, p: P -> bool)
    requires forall t :: t in m ==> !p(m[t])
    ensures Count(m, p) == 0
  {
    assert Those(m, p) == {};
  }

  lemma CountSome<P>(m: map<nat, P>, p: P -> bool, t: nat)
    requires t in m && p(m[t])
    ensures 1 <= Count(m, p)
  {
    assert t in Those(m, p);
  }
}
