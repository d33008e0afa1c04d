/** Laws of the list functions the scheduler is written with. */
module Lists {
  import opened Common
  import opened Framing
  import opened Scheduler

  lemma {:induction false} WithoutAppend(a: seq<OpId>, b: seq<OpId>, w: set<OpId>)
    ensures Without(a + b, w) == Without(a, w) + Without(b, w)
  {
    if a == [] {
      assert a + b == b;
    } else {
      assert (a + b)[1..] == a[1..] + b;
      WithoutAppend(a[1..], b, w);
    }
  }

  lemma {:induction false} WithoutNone(s: seq<OpId>, w: set<OpId>)
    requires forall x :: x in s ==> x !in w
    ensures Without(s, w) == s
  {
    if s != [] {
      WithoutNone(s[1..], w);
    }
  }

  lemma {:induction false} WithoutTwice(s: seq<OpId>, v: set<OpId>, w: set<OpId>)
    ensures Without(Without(s, v), w) == Without(s, v + w)
  {
    if s != [] {
      WithoutTwice(s[1..], v, w);
      var head: seq<OpId> := if s[0] in v then [] else [s[0]];
      WithoutAppend(head, Without(s[1..], v), w);
      assert s[0] !in v ==> Without([s[0]], w) == if s[0] in w then [] else [s[0]];
    }
  }

  lemma WithoutItself(op: OpId)
    ensures Without([op], {op}) == []
  {
  }

  lemma WithoutMiddle(a: seq<OpId>, op: OpId, b: seq<OpId>)
    requires op !in a && op !in b
    ensures Without(a + [op] + b, {op}) == a + b
  {
    hide Without;
    WithoutAppend(a + [op], b, {op});
    WithoutAppend(a, [op], {op});
    WithoutNone(a, {op});
    WithoutNone(b, {op});
    WithoutItself(op);
  }

  lemma {:induction false} WithoutMembers(s: seq<OpId>, w: set<OpId>)
    ensures forall x :: x in Without(s, w) <==> x in s && x !in w
  {
    if s != [] {
      WithoutMembers(s[1..], w);
    }
  }

  lemma {:induction false} WithoutBag(s: seq<OpId>, op: OpId)
    ensures multiset(Without(s, {op})) == multiset(s)[op := 0]
  {
    if s != [] {
      WithoutBag(s[1..], op);
      assert s == [s[0]] + s[1..];
    }
  }

  lemma {:induction false} WithoutOne(s: seq<OpId>, op: OpId)
    requires multiset(s)[op] == 1
    ensures multiset(Without(s, {op})) == multiset(s) - multiset{op}
    ensures |Without(s, {op})| == |s| - 1
  {
    WithoutBag(s, op);
    assert multiset(s)[op := 0] == multiset(s) - multiset{op};
    assert |multiset(Without(s, {op}))| == |multiset(s)| - 1;
  }

  /** Removing an element that is not first keeps the first. */
  lemma WithoutHead(s: seq<OpId>, op: OpId)
    requires s != [] && s[0] != op
    ensures Without(s, {op}) != [] && Without(s, {op})[0] == s[0]
    ensures Without(s, {op})[1..] == Without(s[1..], {op})
  {
  }

  lemma {:induction false} OnAppend(a: seq<OpId>, b: seq<OpId>, sops: map<OpId, SendOp>, sid: Sid)
    ensures On(a + b, sops, sid) == On(a, sops, sid) + On(b, sops, sid)
  {
    if a == [] {
      assert a + b == b;
    } else {
      assert (a + b)[1..] == a[1..] + b;
      OnAppend(a[1..], b, sops, sid);
    }
  }

  /** A new operation does not change what is known of the older ones. */
  lemma {:induction false} OnFresh(s: seq<OpId>, sops: map<OpId, SendOp>, op: OpId, r: SendOp, sid: Sid)
    requires op !in s
    ensures On(s, sops[op := r], sid) == On(s, sops, sid)
    ensures BodiesOn(s, sops[op := r], sid) == BodiesOn(s, sops, sid)
  {
    if s != [] {
      OnFresh(s[1..], sops, op, r, sid);
    }
  }

  lemma {:induction false} OnWithout(s: seq<OpId>, sops: map<OpId, SendOp>, sid: Sid, w: set<OpId>)
    ensures On(Without(s, w), sops, sid) == Without(On(s, sops, sid), w)
  {
    if s != [] {
      OnWithout(s[1..], sops, sid, w);
      var tail := Without(s[1..], w);
      if s[0] in w {
        assert Without(s, w) == tail;
      } else {
        assert Without(s, w)[1..] == tail;
      }
      var mine := On(s, sops, sid);
      if s[0] in sops && sops[s[0]].sid == sid {
        assert mine[1..] == On(s[1..], sops, sid);
      } else {
        assert mine == On(s[1..], sops, sid);
      }
    }
  }

  lemma {:induction false} OnMembers(s: seq<OpId>, sops: map<OpId, SendOp>, sid: Sid)
    ensures forall x :: x in On(s, sops, sid) <==> x in s && x in sops && sops[x].sid == sid
  {
    if s != [] {
      OnMembers(s[1..], sops, sid);
    }
  }

  lemma {:induction false} BodiesOnAppend(a: seq<OpId>, b: seq<OpId>, sops: map<OpId, SendOp>, sid: Sid)
    ensures BodiesOn(a + b, sops, sid) == BodiesOn(a, sops, sid) + BodiesOn(b, sops, sid)
  {
    if a == [] {
      assert a + b == b;
    } else {
      assert (a + b)[1..] == a[1..] + b;
      BodiesOnAppend(a[1..], b, sops, sid);
    }
  }

  lemma {:induction false} BodiesAllFresh(s: seq<OpId>, sops: map<OpId, SendOp>, op: OpId, r: SendOp)
    requires op !in s
    ensures BodiesAll(s, sops[op := r]) == BodiesAll(s, sops)
    decreases |s|
  {
    if s != [] {
      BodiesAllFresh(s[..|s| - 1], sops, op, r);
    }
  }

  lemma {:induction false} FlattenAppend(a: seq<seq<OpId>>, b: seq<seq<OpId>>)
    ensures Flatten(a + b) == Flatten(a) + Flatten(b)
  {
    if a == [] {
      assert a + b == b;
    } else {
      assert (a + b)[1..] == a[1..] + b;
      FlattenAppend(a[1..], b);
    }
  }

  lemma FlattenSplit(q: seq<seq<OpId>>, i: nat)
    requires i < |q|
    ensures Flatten(q) == Flatten(q[..i]) + q[i] + Flatten(q[i + 1..])
  {
    assert q == q[..i] + q[i..];
    FlattenAppend(q[..i], q[i..]);
  }

  lemma FlattenUpdate(q: seq<seq<OpId>>, i: nat, r: seq<OpId>)
    requires i < |q|
    ensures multiset(Flatten(q[i := r])) + multiset(q[i]) == multiset(Flatten(q)) + multiset(r)
    ensures |Flatten(q[i := r])| + |q[i]| == |Flatten(q)| + |r|
  {
    FlattenSplit(q, i);
    FlattenSplit(q[i := r], i);
    assert q[i := r][..i] == q[..i] && q[i := r][i + 1..] == q[i + 1..];
  }

  lemma {:induction false} FlattenEmpty(n: nat)
    ensures Flatten(NoQueues(n)) == []
  {
    if n > 0 {
      FlattenEmpty(n - 1);
      assert NoQueues(n)[1..] == NoQueues(n - 1);
    }
  }

  lemma {:induction false} FlattenMembers(q: seq<seq<OpId>>)
    ensures forall x :: x in Flatten(q) <==> exists i :: 0 <= i < |q| && x in q[i]
  {
    if q != [] {
      FlattenMembers(q[1..]);
      forall i, x | 0 <= i < |q| && x in q[i]
        ensures x in Flatten(q)
      {
        if i > 0 {
          assert q[1..][i - 1] == q[i];
        }
      }
      forall x | x in Flatten(q[1..])
        ensures exists i :: 0 <= i < |q| && x in q[i]
      {
        var i :| 0 <= i < |q[1..]| && x in q[1..][i];
        assert x in q[i + 1];
      }
    }
  }

  lemma FlattenBag(q: seq<seq<OpId>>, i: nat)
    requires i < |q|
    ensures multiset(q[i]) <= multiset(Flatten(q))
    ensures |q[i]| <= |Flatten(q)|
  {
    FlattenSplit(q, i);
  }

  lemma FlattenNil(q: seq<seq<OpId>>)
    requires Flatten(q) == []
    ensures forall i :: 0 <= i < |q| ==> q[i] == []
  {
    forall i | 0 <= i < |q|
      ensures q[i] == []
    {
      FlattenBag(q, i);
    }
  }

  // ---- the execution queue ---------------------------------------------

  /** The operations whose handles are in the log. */
  function DoneBag(log: seq<Handle>): multiset<OpId> {
    if log == [] then multiset{}
    else
      DoneBag(log[..|log| - 1])
      + (match log[|log| - 1]
         case OpDone(op, _) => multiset{op}
         case FlushDone(_) => multiset{})
  }

  function FlushBag(log: seq<Handle>): multiset<nat> {
    if log == [] then multiset{}
    else
      FlushBag(log[..|log| - 1])
      + (match log[|log| - 1]
         case OpDone(_, _) => multiset{}
         case FlushDone(t) => multiset{t})
  }

  /** Bodies given to successful recvs on `sid`, in completion order. */
  function Given(log: seq<Handle>, sid: Sid): seq<Bytes> {
    if log == [] then []
    else
      Given(log[..|log| - 1], sid)
      + (match log[|log| - 1]
         case OpDone(_, Received(sid', body)) => if sid' == sid then [body] else []
         case _ => [])
  }

  lemma LogSnoc(log: seq<Handle>, h: Handle)
    ensures DoneBag(log + [h]) == DoneBag(log) + (if h.OpDone? then multiset{h.op} else multiset{})
    ensures FlushBag(log + [h]) == FlushBag(log) + (if h.FlushDone? then multiset{h.token} else multiset{})
    ensures forall sid ::
              Given(log + [h], sid) ==
              Given(log, sid)
              + (if h.OpDone? && h.result.Received? && h.result.sid == sid then [h.result.body] else [])
  {
    assert (log + [h])[..|log|] == log;
  }

  lemma {:induction false} FlushBagAppend(a: seq<Handle>, b: seq<Handle>)
    ensures FlushBag(a + b) == FlushBag(a) + FlushBag(b)
    decreases |b|
  {
    if b == [] {
      assert a + b == a;
    } else {
      var init := b[..|b| - 1];
      FlushBagAppend(a, init);
      assert (a + b)[..|a + b| - 1] == a + init;
    }
  }

  /** Flush handles alone change only the flush record. */
  lemma {:induction false} LogFlushes(log: seq<Handle>, f: seq<Handle>, sid: Sid)
    requires forall i :: 0 <= i < |f| ==> f[i].FlushDone?
    ensures DoneBag(log + f) == DoneBag(log)
    ensures Given(log + f, sid) == Given(log, sid)
    decreases |f|
  {
    if f == [] {
      assert log + f == log;
    } else {
      var init := f[..|f| - 1];
      LogFlushes(log, init, sid);
      assert (log + f)[..|log + f| - 1] == log + init;
    }
  }

  lemma {:induction false} FiredFlushes(tokens: seq<set<OpId>>, op: OpId, t: nat)
    requires t <= |tokens|
    ensures forall i :: 0 <= i < |Fired(tokens, op, t)| ==> Fired(tokens, op, t)[i].FlushDone?
    decreases |tokens| - t
  {
    if t < |tokens| {
      FiredFlushes(tokens, op, t + 1);
    }
  }

  lemma FlushOne(t: nat, u: nat)
    ensures FlushBag([FlushDone(t)])[u] == if t == u then 1 else 0
    ensures FlushBag([])[u] == 0
  {
    assert [FlushDone(t)][..0] == [];
  }

  lemma {:induction false} FiredCount(tokens: seq<set<OpId>>, op: OpId, t: nat, u: nat)
    requires t <= |tokens|
    ensures FlushBag(Fired(tokens, op, t))[u] == if t <= u < |tokens| && tokens[u] == {op} then 1 else 0
    decreases |tokens| - t
  {
    hide FlushBag;
    FlushOne(t, u);
    if t < |tokens| {
      FiredCount(tokens, op, t + 1, u);
      FlushBagAppend(if tokens[t] == {op} then [FlushDone(t)] else [], Fired(tokens, op, t + 1));
    }
  }

  /** What completing one operation does to the execution queue. */
  lemma FinishLog(q: Queued, op: OpId, r: Result)
    ensures var q' := Finish(q, op, r);
            && DoneBag(q'.log) == DoneBag(q.log) + multiset{op}
            && (forall sid :: Given(q'.log, sid) ==
                              Given(q.log, sid) + (if r.Received? && r.sid == sid then [r.body] else []))
            && (forall u: nat :: FlushBag(q'.log)[u] ==
                                 FlushBag(q.log)[u]
                                 + (if u < |q.tokens| && q.tokens[u] == {op} then 1 else 0))
  {
    var l1 := q.log + [OpDone(op, r)];
    var f := Fired(q.tokens, op, 0);
    LogSnoc(q.log, OpDone(op, r));
    FiredFlushes(q.tokens, op, 0);
    FlushBagAppend(l1, f);
    forall u: nat
      ensures FlushBag(f)[u] == if u < |q.tokens| && q.tokens[u] == {op} then 1 else 0
    {
      FiredCount(q.tokens, op, 0, u);
    }
    forall sid
      ensures DoneBag(l1 + f) == DoneBag(l1) && Given(l1 + f, sid) == Given(l1, sid)
    {
      LogFlushes(l1, f, sid);
    }
    LogFlushes(l1, f, [0, 0, 0, 0, 0, 0, 0, 0, 0, 0, 0, 0, 0, 0, 0, 0]);
  }

  /** Draining a queue completes each of its operations once. */
  lemma FinishTokens(q: Queued, op: OpId, r: Result)
    ensures |Finish(q, op, r).tokens| == |q.tokens|
  {
  }

  lemma {:induction false} DrainLog(q: Queued, ops: seq<OpId>, dir: Dir, e: Code)
    ensures var q' := DrainOps(q, ops, dir, e);
            && DoneBag(q'.log) == DoneBag(q.log) + multiset(ops)
            && (forall sid :: Given(q'.log, sid) == Given(q.log, sid))
            && |q'.tokens| == |q.tokens|
    decreases |ops|
  {
    hide Finish, Given, DoneBag, FlushBag;
    if ops != [] {
      var q1 := Finish(q, ops[0], Failed(dir, e));
      FinishLog(q, ops[0], Failed(dir, e));
      FinishTokens(q, ops[0], Failed(dir, e));
      DrainLog(q1, ops[1..], dir, Cancel);
      assert ops == [ops[0]] + ops[1..];
    }
  }
}
