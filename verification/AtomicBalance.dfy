/** When no run of the atomic queue explains the answer "empty": by counting calls and returns. */
module AtomicBalance {
  import opened AtomicFifo
  import opened Counting

  /** Enqueues that have returned, less dequeues that were called. */
  function Delta<T>(l: Label<T>): int {
    match l
    case RetEnq(_) => 1
    case CallDeq(_) => -1
    case _ => 0
  }

  function Balance<T>(ls: seq<Label<T>>): int {
    if ls == [] then 0 else Delta(ls[0]) + Balance(ls[1..])
  }

  /** Starting from `bal` the balance never becomes negative. */
  predicate Ahead<T>(ls: seq<Label<T>>, bal: int) {
    bal >= 0 && (ls == [] || Ahead(ls[1..], bal + Delta(ls[0])))
  }

  lemma {:induction false} BalanceJoin<T>(k: seq<Label<T>>, l: seq<Label<T>>)
    ensures Balance(k + l) == Balance(k) + Balance(l)
  {
    if k == [] {
      assert k + l == l;
    } else {
      assert (k + l)[1..] == k[1..] + l;
      BalanceJoin(k[1..], l);
    }
  }

  lemma {:induction false} AheadJoin<T>(k: seq<Label<T>>, l: seq<Label<T>>, bal: int)
    requires Ahead(k, bal) && Ahead(l, bal + Balance(k))
    ensures Ahead(k + l, bal)
    decreases |k|
  {
    if k == [] {
      assert k + l == l;
    } else {
      assert (k + l)[1..] == k[1..] + l;
      AheadJoin(k[1..], l, bal + Delta(k[0]));
    }
  }

  lemma {:induction false} QuietAhead<T>(ls: seq<Label<T>>, bal: int)
    requires 0 <= bal && forall k :: 0 <= k < |ls| ==> Delta(ls[k]) == 0
    ensures Ahead(ls, bal) && Balance(ls) == 0
    decreases |ls|
  {
    if ls != [] { QuietAhead(ls[1..], bal); }
  }

  /** An enqueue that has taken effect and not returned, or a dequeue that has not taken effect. */
  predicate Waiting<T>(c: Call<T>) { c.Enqueued? || c.Dequeuing? }

  /** The queue holds at least the balance, and one element more for each such call. */
  ghost predicate Owes<T(!new)>(f: Fifo<T>, bal: int) {
    |f.q| >= bal + Count(f.calls, (c: Call<T>) => Waiting(c))
  }

  lemma EffectOwes<T(!new)>(f: Fifo<T>, t: Tid, bal: int)
    requires Pending(f, t) && Owes(f, bal)
    ensures Owes(Effect(f, t), bal)
  {
    CountStep(f.calls, t, Effect(f, t).calls[t], (c: Call<T>) => Waiting(c));
    assert Effect(f, t).calls == f.calls[t := Effect(f, t).calls[t]];
  }

  lemma VisibleOwes<T(!new)>(f: Fifo<T>, l: Label<T>, b: Fifo<T>, bal: int)
    requires Visible(f, l, b) && Owes(f, bal)
    ensures Owes(b, bal + Delta(l))
  {
    match l {
      case Tau =>
      case CallEnq(t, v) => CountStep(f.calls, t, Enqueuing(v), (c: Call<T>) => Waiting(c));
      case CallDeq(t) => CountStep(f.calls, t, Dequeuing, (c: Call<T>) => Waiting(c));
      case RetEnq(t) => CountStep(f.calls, t, Quiet, (c: Call<T>) => Waiting(c));
      case RetDeq(t, _) => CountStep(f.calls, t, Quiet, (c: Call<T>) => Waiting(c));
    }
  }

  lemma {:induction false} MovesOwe<T(!new)>(f: Fifo<T>, ts: seq<Tid>, l: Label<T>, b: Fifo<T>, bal: int)
    requires Moves(f, ts, l, b) && Owes(f, bal)
    ensures Owes(b, bal + Delta(l))
    decreases |ts|
  {
    if ts == [] {
      VisibleOwes(f, l, b, bal);
    } else {
      EffectOwes(f, ts[0], bal);
      MovesOwe(Effect(f, ts[0]), ts[1..], l, b, bal);
    }
  }

  /** The dequeue of t has not been answered "empty". */
  predicate Open<T>(f: Fifo<T>, t: Tid) {
    t in f.calls && (f.calls[t].Dequeuing? || (f.calls[t].Dequeued? && f.calls[t].result.Some?))
  }

  predicate Returns<T>(l: Label<T>, t: Tid) { l.RetDeq? && l.t == t }

  /** With a balance of zero or more no pending dequeue gets the answer "empty". */
  lemma EffectStaysOpen<T(!new)>(f: Fifo<T>, u: Tid, t: Tid, bal: int)
    requires Pending(f, u) && Owes(f, bal) && 0 <= bal && Open(f, t)
    ensures Open(Effect(f, u), t)
  {
    if u == t { CountSome(f.calls, (c: Call<T>) => Waiting(c), t); }
  }

  lemma {:induction false} MovesStayOpen<T(!new)>(f: Fifo<T>, ts: seq<Tid>, l: Label<T>, b: Fifo<T>, t: Tid, bal: int)
    requires Moves(f, ts, l, b) && Owes(f, bal) && 0 <= bal && Open(f, t)
    ensures l != RetDeq(t, None) && (Returns(l, t) || Open(b, t))
    decreases |ts|
  {
    if ts != [] {
      EffectOwes(f, ts[0], bal);
      EffectStaysOpen(f, ts[0], t, bal);
      MovesStayOpen(Effect(f, ts[0]), ts[1..], l, b, t, bal);
    }
  }

  /** Steps, from any state on. */
  ghost predicate Steps<T(!new)>(fs: seq<Fifo<T>>, ls: seq<Label<T>>) {
    |fs| == |ls| + 1 && forall i :: 0 <= i < |ls| ==> Step(fs[i], ls[i], fs[i + 1])
  }

  lemma StepsTail<T(!new)>(fs: seq<Fifo<T>>, ls: seq<Label<T>>)
    requires Steps(fs, ls) && ls != []
    ensures Step(fs[0], ls[0], fs[1]) && Steps(fs[1..], ls[1..])
  {
    forall i | 0 <= i < |ls[1..]| ensures Step(fs[1..][i], ls[1..][i], fs[1..][i + 1]) {
      assert Step(fs[i + 1], ls[i + 1], fs[i + 2]);
    }
  }

  lemma {:induction false} StepsOwe<T(!new)>(fs: seq<Fifo<T>>, ls: seq<Label<T>>, bal: int)
    requires Steps(fs, ls) && Owes(fs[0], bal)
    ensures Owes(fs[|ls|], bal + Balance(ls))
    decreases |ls|
  {
    if ls != [] {
      StepsTail(fs, ls);
      var ts :| Moves(fs[0], ts, ls[0], fs[1]);
      MovesOwe(fs[0], ts, ls[0], fs[1], bal);
      StepsOwe(fs[1..], ls[1..], bal + Delta(ls[0]));
    }
  }

  lemma {:induction false} StepsStayOpen<T(!new)>(fs: seq<Fifo<T>>, ls: seq<Label<T>>, t: Tid, bal: int)
    requires Steps(fs, ls) && Owes(fs[0], bal) && Open(fs[0], t) && Ahead(ls, bal)
    requires forall k :: 0 <= k < |ls| ==> !Returns(ls[k], t)
    ensures Open(fs[|ls|], t)
    decreases |ls|
  {
    if ls != [] {
      StepsTail(fs, ls);
      var ts :| Moves(fs[0], ts, ls[0], fs[1]);
      MovesOwe(fs[0], ts, ls[0], fs[1], bal);
      MovesStayOpen(fs[0], ts, ls[0], fs[1], t, bal);
      StepsStayOpen(fs[1..], ls[1..], t, bal + Delta(ls[0]));
    }
  }

  lemma {:induction false} CallOpens<T(!new)>(f: Fifo<T>, ts: seq<Tid>, t: Tid, b: Fifo<T>)
    requires Moves(f, ts, CallDeq(t), b)
    ensures Open(b, t)
    decreases |ts|
  {
    if ts != [] { CallOpens(Effect(f, ts[0]), ts[1..], t, b); }
  }

  lemma StepsSplit<T(!new)>(fs: seq<Fifo<T>>, k: seq<Label<T>>, l: seq<Label<T>>)
    requires Steps(fs, k + l)
    ensures Steps(fs[..|k| + 1], k) && Steps(fs[|k|..], l)
  {
    forall i | 0 <= i < |k| ensures Step(fs[..|k| + 1][i], k[i], fs[..|k| + 1][i + 1]) {
      assert Step(fs[i], (k + l)[i], fs[i + 1]);
    }
    forall i | 0 <= i < |l| ensures Step(fs[|k|..][i], l[i], fs[|k|..][i + 1]) {
      assert Step(fs[|k| + i], (k + l)[|k| + i], fs[|k| + i + 1]);
    }
  }

  lemma StartOwes<T(!new)>(f: Fifo<T>)
    requires Start(f)
    ensures Owes(f, 0)
  {
    CountNone(f.calls, (c: Call<T>) => Waiting(c));
  }

  /** All through the call, to the step before its return, the dequeue is not answered "empty". */
  lemma OpenDuring<T(!new)>(fs: seq<Fifo<T>>, before: seq<Label<T>>, t: Tid, during: seq<Label<T>>)
    requires Ahead(during, Balance(before) - 1) && forall k :: 0 <= k < |during| ==> !Returns(during[k], t)
    requires Steps(fs, before + ([CallDeq(t)] + during)) && Start(fs[0])
    ensures Open(fs[|fs| - 1], t) && Owes(fs[|fs| - 1], Balance(before) - 1 + Balance(during))
  {
    var call: seq<Label<T>> := [CallDeq(t)];
    StartOwes(fs[0]);
    StepsSplit(fs, before, call + during);
    StepsOwe(fs[..|before| + 1], before, 0);
    var f1 := fs[|before|..];
    StepsSplit(f1, call, during);
    StepsOwe(f1[..2], call, Balance(before));
    assert Step(f1[0], CallDeq(t), f1[1]) by { assert Step(f1[..2][0], call[0], f1[..2][1]); }
    var ts :| Moves(f1[0], ts, CallDeq(t), f1[1]);
    CallOpens(f1[0], ts, t, f1[1]);
    var f2 := f1[1..];
    assert Balance(call) == -1;
    StepsStayOpen(f2, during, t, Balance(before) - 1);
    StepsOwe(f2, during, Balance(before) - 1);
  }

  lemma NoEmptyReturn<T(!new)>(f: Fifo<T>, t: Tid, b: Fifo<T>, bal: int)
    requires Open(f, t) && Owes(f, bal) && 0 <= bal
    ensures !Step(f, RetDeq(t, None), b)
  {
    forall ts: seq<Tid> ensures !Moves(f, ts, RetDeq(t, None), b) {
      if Moves(f, ts, RetDeq(t, None), b) { MovesStayOpen(f, ts, RetDeq(t, None), b, t, bal); }
    }
  }

  /** The answer "empty" has no explanation if, all through the call, at least as many enqueues have
      returned as dequeues were called. */
  lemma EmptyUnexplained<T(!new)>(before: seq<Label<T>>, t: Tid, during: seq<Label<T>>)
    requires Ahead(during, Balance(before) - 1) && forall k :: 0 <= k < |during| ==> !Returns(during[k], t)
    ensures !Explained((before + ([CallDeq(t)] + during)) + [RetDeq(t, None)])
  {
    var run, ret: seq<Label<T>> := before + ([CallDeq(t)] + during), [RetDeq(t, None)];
    AheadEnds(during, Balance(before) - 1);
    forall fs: seq<Fifo<T>> ensures !IsRun(fs, run + ret) {
      if IsRun(fs, run + ret) {
        StepsSplit(fs, run, ret);
        var n := |run|;
        OpenDuring(fs[..n + 1], before, t, during);
        assert Step(fs[n], ret[0], fs[n + 1]) by { assert Step(fs[n..][0], ret[0], fs[n..][1]); }
        NoEmptyReturn(fs[n], t, fs[n + 1], Balance(before) - 1 + Balance(during));
      }
    }
  }

  lemma {:induction false} AheadEnds<T>(ls: seq<Label<T>>, bal: int)
    requires Ahead(ls, bal)
    ensures 0 <= bal + Balance(ls)
    decreases |ls|
  {
    if ls != [] { AheadEnds(ls[1..], bal + Delta(ls[0])); }
  }
}
