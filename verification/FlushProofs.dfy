/** How flush tokens behave when operations complete, one by one or in a drain. */
module FlushProofs {
  import opened Common
  import opened Framing
  import opened Scheduler
  import opened Lists
  import opened Invariants
  import opened QueueProofs
  import opened StreamProofs

  lemma TokensFinish(q: Queued, pend: set<OpId>, snaps: seq<set<OpId>>, op: OpId, r: Result)
    requires TokensOf(q, pend, snaps)
    ensures TokensOf(Finish(q, op, r), pend - {op}, snaps)
  {
    FinishLog(q, op, r);
    var q' := Finish(q, op, r);
    hide FlushBag, DoneBag, Given, Fired;
    forall t | 0 <= t < |q'.tokens|
      ensures q'.tokens[t] == q.tokens[t] - {op}
      ensures q'.tokens[t] == {} <==> q.tokens[t] == {} || q.tokens[t] == {op}
    {
    }
  }

  lemma {:induction false} TokensDrain(q: Queued, pend: set<OpId>, snaps: seq<set<OpId>>,
                                       ops: seq<OpId>, dir: Dir, e: Code)
    requires TokensOf(q, pend, snaps)
    ensures TokensOf(DrainOps(q, ops, dir, e), pend - (set x | x in ops), snaps)
    decreases |ops|
  {
    if ops == [] {
      assert pend - (set x | x in ops) == pend;
    } else {
      TokensFinish(q, pend, snaps, ops[0], Failed(dir, e));
      TokensDrain(Finish(q, ops[0], Failed(dir, e)), pend - {ops[0]}, snaps, ops[1..], dir, Cancel);
      assert pend - {ops[0]} - (set x | x in ops[1..]) == pend - (set x | x in ops);
    }
  }

  lemma DoneMore(op: OpId, log: seq<Handle>, more: seq<Handle>)
    requires IsDone(op, log)
    ensures IsDone(op, log + more)
  {
    var j :| 0 <= j < |log| && log[j].OpDone? && log[j].op == op;
    assert (log + more)[j] == log[j];
  }

  lemma DoneLater(op: OpId, log: seq<Handle>, later: seq<Handle>)
    requires log <= later
    ensures IsDone(op, log) ==> IsDone(op, later)
  {
    if IsDone(op, log) {
      DoneMore(op, log, later[|log|..]);
      assert log + later[|log|..] == later;
    }
  }

  lemma {:induction false} DoneCounted(op: OpId, log: seq<Handle>)
    ensures IsDone(op, log) <==> DoneBag(log)[op] > 0
    decreases |log|
  {
    if log != [] {
      var init := log[..|log| - 1];
      DoneCounted(op, init);
      assert log == init + [log[|log| - 1]];
      if IsDone(op, init) {
        DoneMore(op, init, [log[|log| - 1]]);
      }
    }
  }

  /** `op` is the first of its fork still pending. */
  ghost predicate FirstOf(op: OpId, pend: set<OpId>, sops: map<OpId, SendOp>, rops: map<OpId, RecvOp>) {
    forall p :: p in pend && SameQueue(p, op, sops, rops) ==> op <= p
  }

  /** A token whose last holder is `op` waits, apart from `op`, for what is queued before it
      and for what has been left behind. */
  lemma FiredLast(q: Queued, pend: set<OpId>, sops: map<OpId, SendOp>, rops: map<OpId, RecvOp>,
                  snaps: seq<set<OpId>>, orphans: seq<set<OpId>>, op: OpId, t: nat, p: OpId)
    requires AfterOf(q, pend, sops, rops, snaps, orphans)
    requires t < |snaps| && q.tokens[t] == {op} && p in snaps[t] && p !in orphans[t]
    ensures p == op || IsDone(p, q.log) || (p in pend && p < op && SameQueue(p, op, sops, rops))
  {
    hide FlushLate, IsDone;
  }

  lemma {:induction false} FiredEntry(tokens: seq<set<OpId>>, op: OpId, t: nat, k: nat) returns (u: nat)
    requires t <= |tokens| && k < |Fired(tokens, op, t)|
    ensures u < |tokens| && tokens[u] == {op} && Fired(tokens, op, t)[k] == FlushDone(u)
    decreases |tokens| - t
  {
    if tokens[t] == {op} {
      if k == 0 {
        u := t;
      } else {
        u := FiredEntry(tokens, op, t + 1, k - 1);
      }
    } else {
      u := FiredEntry(tokens, op, t + 1, k);
    }
  }

  /** Flushes from token `t` on, in the order in which they were called. */
  ghost predicate FlushesInOrder(f: seq<Handle>, t: nat) {
    && (forall k :: 0 <= k < |f| ==> f[k].FlushDone? && t <= f[k].token)
    && (forall j, k :: 0 <= j < k < |f| ==> f[j].token < f[k].token)
  }

  lemma EarlierFirst(f: seq<Handle>, t: nat)
    requires FlushesInOrder(f, t + 1)
    ensures FlushesInOrder([FlushDone(t)] + f, t) && FlushesInOrder(f, t)
  {
  }

  /** The flushes that the completion of an operation fires are queued in the order in which
      they were called. */
  lemma {:induction false} FiredInOrder(tokens: seq<set<OpId>>, op: OpId, t: nat)
    requires t <= |tokens|
    ensures FlushesInOrder(Fired(tokens, op, t), t)
    decreases |tokens| - t
  {
    hide FlushesInOrder;
    if t == |tokens| {
      NoneFired(t);
    } else {
      FiredInOrder(tokens, op, t + 1);
      var more := Fired(tokens, op, t + 1);
      EarlierFirst(more, t);
      assert [] + more == more;
    }
  }

  lemma NoneFired(t: nat)
    ensures FlushesInOrder([], t)
  {
  }

  /** `op` may complete: what is queued before it, of what a flush that it holds waits for,
      counts as left behind from now on. */
  ghost predicate MayComplete(q: Queued, pend: set<OpId>, sops: map<OpId, SendOp>, rops: map<OpId, RecvOp>,
                              snaps: seq<set<OpId>>, op: OpId, orphans: seq<set<OpId>>)
    requires |snaps| == |q.tokens| == |orphans|
  {
    forall t, p :: 0 <= t < |snaps| && op in q.tokens[t] && p in pend && p in snaps[t] ==>
                     p < op && SameQueue(p, op, sops, rops) ==> p in orphans[t]
  }

  /** More operations may be left behind, and no others than those a flush waits for. */
  ghost predicate LeftMore(orphans: seq<set<OpId>>, orphans': seq<set<OpId>>, snaps: seq<set<OpId>>) {
    Left(orphans, snaps) && Left(orphans', snaps) && forall t :: 0 <= t < |snaps| ==> orphans[t] <= orphans'[t]
  }

  lemma FirstMay(q: Queued, pend: set<OpId>, sops: map<OpId, SendOp>, rops: map<OpId, RecvOp>,
                 snaps: seq<set<OpId>>, op: OpId, orphans: seq<set<OpId>>)
    requires FirstOf(op, pend, sops, rops) && |snaps| == |q.tokens| && Left(orphans, snaps)
    ensures MayComplete(q, pend, sops, rops, snaps, op, orphans) && LeftMore(orphans, orphans, snaps)
  {
  }

  lemma AfterFinish(q: Queued, pend: set<OpId>, sops: map<OpId, SendOp>, rops: map<OpId, RecvOp>,
                    snaps: seq<set<OpId>>, orphans: seq<set<OpId>>, op: OpId, r: Result, orphans': seq<set<OpId>>)
    requires AfterOf(q, pend, sops, rops, snaps, orphans) && LeftMore(orphans, orphans', snaps)
    requires MayComplete(q, pend, sops, rops, snaps, op, orphans')
    ensures AfterOf(Finish(q, op, r), pend - {op}, sops, rops, snaps, orphans')
  {
    var q' := Finish(q, op, r);
    AfterFinishDone(q, pend, sops, rops, snaps, orphans, op, r);
    AfterFinishHeld(q, pend, sops, rops, snaps, orphans, op, r, orphans');
    forall k | 0 <= k < |q'.log| && q'.log[k].FlushDone?
      ensures FlushLate(q'.log, k, snaps, orphans')
    {
      AfterFinishLog(q, pend, sops, rops, snaps, orphans, op, r, orphans', k);
    }
    hide Fired, FlushLate, Held, IsDone, MayComplete;
  }

  lemma AfterFinishDone(q: Queued, pend: set<OpId>, sops: map<OpId, SendOp>, rops: map<OpId, RecvOp>,
                        snaps: seq<set<OpId>>, orphans: seq<set<OpId>>, op: OpId, r: Result)
    requires AfterOf(q, pend, sops, rops, snaps, orphans)
    ensures forall t, p :: 0 <= t < |snaps| && p in snaps[t] ==> p in pend - {op} || IsDone(p, Finish(q, op, r).log)
  {
    hide Fired, Held, FlushLate;
    var more := [OpDone(op, r)] + Fired(q.tokens, op, 0);
    assert Finish(q, op, r).log == q.log + more;
    assert (q.log + more)[|q.log|] == OpDone(op, r);
    forall t, p | 0 <= t < |snaps| && p in snaps[t]
      ensures p in pend - {op} || IsDone(p, Finish(q, op, r).log)
    {
      if p != op && p !in pend {
        DoneMore(p, q.log, more);
      }
    }
  }

  lemma AfterFinishHeld(q: Queued, pend: set<OpId>, sops: map<OpId, SendOp>, rops: map<OpId, RecvOp>,
                        snaps: seq<set<OpId>>, orphans: seq<set<OpId>>, op: OpId, r: Result, orphans': seq<set<OpId>>)
    requires AfterOf(q, pend, sops, rops, snaps, orphans) && LeftMore(orphans, orphans', snaps)
    requires MayComplete(q, pend, sops, rops, snaps, op, orphans')
    ensures forall t, p :: 0 <= t < |snaps| && p in snaps[t] && p in pend - {op} && p !in orphans'[t] ==>
                             Held(p, Finish(q, op, r).tokens[t], sops, rops)
  {
    hide FlushLate, IsDone, Fired;
    forall t, p | 0 <= t < |snaps| && p in snaps[t] && p in pend - {op} && p !in orphans'[t]
      ensures Held(p, Finish(q, op, r).tokens[t], sops, rops)
    {
      var h :| h in q.tokens[t] && p <= h && SameQueue(p, h, sops, rops);
      assert h in Finish(q, op, r).tokens[t];
    }
  }

  lemma AfterFinishLog(q: Queued, pend: set<OpId>, sops: map<OpId, SendOp>, rops: map<OpId, RecvOp>,
                       snaps: seq<set<OpId>>, orphans: seq<set<OpId>>, op: OpId, r: Result, orphans': seq<set<OpId>>, k: nat)
    requires AfterOf(q, pend, sops, rops, snaps, orphans) && LeftMore(orphans, orphans', snaps)
    requires MayComplete(q, pend, sops, rops, snaps, op, orphans')
    requires k < |Finish(q, op, r).log| && Finish(q, op, r).log[k].FlushDone?
    ensures FlushLate(Finish(q, op, r).log, k, snaps, orphans')
  {
    var log := Finish(q, op, r).log;
    var f := Fired(q.tokens, op, 0);
    var mid := q.log + [OpDone(op, r)];
    assert log == mid + f;
    hide Fired, IsDone, Held;
    if k < |q.log| {
      assert log[..k] == q.log[..k] && log[k] == q.log[k];
      assert FlushLate(q.log, k, snaps, orphans);
    } else {
      var n := k - |mid|;
      var t := FiredEntry(q.tokens, op, 0, n);
      assert log[k] == f[n] && log[..k] == mid + f[..n];
      FiredAfter(q, pend, sops, rops, snaps, orphans, op, r, orphans', t, f[..n]);
    }
  }

  lemma FiredAfter(q: Queued, pend: set<OpId>, sops: map<OpId, SendOp>, rops: map<OpId, RecvOp>,
                   snaps: seq<set<OpId>>, orphans: seq<set<OpId>>, op: OpId, r: Result, orphans': seq<set<OpId>>,
                   t: nat, more: seq<Handle>)
    requires AfterOf(q, pend, sops, rops, snaps, orphans) && LeftMore(orphans, orphans', snaps)
    requires MayComplete(q, pend, sops, rops, snaps, op, orphans')
    requires t < |q.tokens| && q.tokens[t] == {op}
    ensures forall p :: p in snaps[t] && p !in orphans'[t] ==> IsDone(p, q.log + [OpDone(op, r)] + more)
  {
    var mid := q.log + [OpDone(op, r)];
    forall p | p in snaps[t] && p !in orphans'[t]
      ensures IsDone(p, mid + more)
    {
      FiredLast(q, pend, sops, rops, snaps, orphans, op, t, p);
      if p != op {
        DoneMore(p, q.log, [OpDone(op, r)]);
      } else {
        assert mid[|q.log|] == OpDone(op, r);
      }
      DoneMore(p, mid, more);
    }
  }

  /** Operations of one fork occur in `ops` in call order. */
  ghost predicate InCallOrder(ops: seq<OpId>, sops: map<OpId, SendOp>, rops: map<OpId, RecvOp>) {
    forall j, k :: 0 <= j < k < |ops| && SameQueue(ops[k], ops[j], sops, rops) ==> ops[j] <= ops[k]
  }

  /** Every pending operation of a fork that occurs in `ops` occurs in `ops`. */
  ghost predicate Covers(ops: seq<OpId>, pend: set<OpId>, sops: map<OpId, SendOp>, rops: map<OpId, RecvOp>) {
    forall p, k :: 0 <= k < |ops| && p in pend && SameQueue(p, ops[k], sops, rops) ==> p in ops
  }

  lemma AfterBounds(q: Queued, pend: set<OpId>, sops: map<OpId, SendOp>, rops: map<OpId, RecvOp>,
                    snaps: seq<set<OpId>>, orphans: seq<set<OpId>>)
    requires AfterOf(q, pend, sops, rops, snaps, orphans)
    ensures |snaps| == |q.tokens| && Left(orphans, snaps)
  {
  }

  lemma {:induction false} AfterDrain(q: Queued, pend: set<OpId>, sops: map<OpId, SendOp>,
                                      rops: map<OpId, RecvOp>, snaps: seq<set<OpId>>, orphans: seq<set<OpId>>,
                                      ops: seq<OpId>, dir: Dir, e: Code)
    requires AfterOf(q, pend, sops, rops, snaps, orphans)
    requires InCallOrder(ops, sops, rops) && Covers(ops, pend, sops, rops)
    ensures AfterOf(DrainOps(q, ops, dir, e), pend - (set x | x in ops), sops, rops, snaps, orphans)
    decreases |ops|
  {
    hide AfterOf;
    if ops == [] {
      assert pend - (set x | x in ops) == pend;
    } else {
      assert FirstOf(ops[0], pend, sops, rops) by {
        forall p | p in pend && SameQueue(p, ops[0], sops, rops)
          ensures ops[0] <= p
        {
          var k :| 0 <= k < |ops| && ops[k] == p;
        }
      }
      AfterBounds(q, pend, sops, rops, snaps, orphans);
      FirstMay(q, pend, sops, rops, snaps, ops[0], orphans);
      AfterFinish(q, pend, sops, rops, snaps, orphans, ops[0], Failed(dir, e), orphans);
      forall p, k | 0 <= k < |ops[1..]| && p in pend - {ops[0]} && SameQueue(p, ops[1..][k], sops, rops)
        ensures p in ops[1..]
      {
        assert ops[1..][k] == ops[k + 1];
        var i :| 0 <= i < |ops| && ops[i] == p;
        assert ops[1..][i - 1] == p;
      }
      AfterDrain(Finish(q, ops[0], Failed(dir, e)), pend - {ops[0]}, sops, rops, snaps, orphans, ops[1..], dir, Cancel);
      assert pend - {ops[0]} - (set x | x in ops[1..]) == pend - (set x | x in ops);
    }
  }

  // ---- the pending set --------------------------------------------------

  lemma PendsMember(order: seq<OpId>, recvQ: seq<seq<OpId>>)
    ensures forall x :: x in PendSet(order, recvQ) <==> Pends(order, recvQ)[x] > 0
  {
    hide Flatten;
    forall x
      ensures x in PendSet(order, recvQ) <==> Pends(order, recvQ)[x] > 0
    {
      assert x in order <==> multiset(order)[x] > 0;
      assert x in Flatten(recvQ) <==> multiset(Flatten(recvQ))[x] > 0;
    }
  }

  /** Completing `ops`, each queued once, removes them from the pending set. */
  lemma PendSetMove(order: seq<OpId>, recvQ: seq<seq<OpId>>, order': seq<OpId>, recvQ': seq<seq<OpId>>,
                    log: seq<Handle>, nextOp: nat, ops: seq<OpId>)
    requires OnceOf(order, recvQ, log, nextOp)
    requires Pends(order, recvQ) == Pends(order', recvQ') + multiset(ops)
    ensures PendSet(order', recvQ') == PendSet(order, recvQ) - (set x | x in ops)
  {
    PendsMember(order, recvQ);
    PendsMember(order', recvQ');
    hide PendSet, Pends, DoneBag;
    forall x
      ensures x in PendSet(order', recvQ') <==> x in PendSet(order, recvQ) && x !in ops
    {
      assert (Pends(order, recvQ) + DoneBag(log))[x] <= 1;
      assert x in ops <==> multiset(ops)[x] > 0;
    }
  }

  lemma PendingFresh(order: seq<OpId>, recvQ: seq<seq<OpId>>, log: seq<Handle>, op: OpId)
    requires OnceOf(order, recvQ, log, op)
    ensures op !in PendSet(order, recvQ) && !IsDone(op, log)
  {
    PendsMember(order, recvQ);
    DoneCounted(op, log);
    assert (Pends(order, recvQ) + DoneBag(log))[op] == 0;
  }

  // ---- new calls --------------------------------------------------------

  lemma AfterNew(q: Queued, pend: set<OpId>, sops: map<OpId, SendOp>, rops: map<OpId, RecvOp>,
                 snaps: seq<set<OpId>>, orphans: seq<set<OpId>>, op: OpId, sops': map<OpId, SendOp>, rops': map<OpId, RecvOp>)
    requires AfterOf(q, pend, sops, rops, snaps, orphans) && TokensOf(q, pend, snaps)
    requires op !in pend && !IsDone(op, q.log)
    requires forall x :: x != op ==> (x in sops <==> x in sops') && (x in rops <==> x in rops')
    requires forall x :: x != op && x in sops ==> sops'[x] == sops[x]
    requires forall x :: x != op && x in rops ==> rops'[x] == rops[x]
    ensures AfterOf(q, pend + {op}, sops', rops', snaps, orphans)
  {
    forall t, p | 0 <= t < |snaps| && p in snaps[t] && p in pend + {op} && p !in orphans[t]
      ensures Held(p, q.tokens[t], sops', rops')
    {
      assert p in pend;
      var h :| h in q.tokens[t] && p <= h && SameQueue(p, h, sops, rops);
      assert h in pend;
    }
  }

  lemma TokensNew(q: Queued, pend: set<OpId>, snaps: seq<set<OpId>>, op: OpId)
    requires TokensOf(q, pend, snaps)
    ensures TokensOf(q, pend + {op}, snaps)
  {
  }

  lemma TokensRefuse(q: Queued, pend: set<OpId>, snaps: seq<set<OpId>>, op: OpId, r: Result)
    requires TokensOf(q, pend, snaps)
    ensures TokensOf(q.(log := q.log + [OpDone(op, r)]), pend, snaps)
  {
    LogSnoc(q.log, OpDone(op, r));
  }

  lemma AfterRefuse(q: Queued, pend: set<OpId>, sops: map<OpId, SendOp>, rops: map<OpId, RecvOp>,
                    snaps: seq<set<OpId>>, orphans: seq<set<OpId>>, op: OpId, r: Result)
    requires AfterOf(q, pend, sops, rops, snaps, orphans)
    ensures AfterOf(q.(log := q.log + [OpDone(op, r)]), pend, sops, rops, snaps, orphans)
  {
    var log := q.log + [OpDone(op, r)];
    forall p | IsDone(p, q.log)
      ensures IsDone(p, log)
    {
      DoneMore(p, q.log, [OpDone(op, r)]);
    }
    forall k | 0 <= k < |q.log|
      ensures log[..k] == q.log[..k] && log[k] == q.log[k]
    {
    }
  }

  // ---- flush ------------------------------------------------------------

  /** A flush with nothing pending fires at once. */
  lemma FlushIdle(q: Queued, pend: set<OpId>, sops: map<OpId, SendOp>, rops: map<OpId, RecvOp>,
                  snaps: seq<set<OpId>>, orphans: seq<set<OpId>>)
    requires TokensOf(q, pend, snaps) && pend == {}
    ensures var q' := Queued(q.log + [FlushDone(|q.tokens|)], q.tokens + [{}]);
            && TokensOf(q', pend, snaps + [pend])
            && (AfterOf(q, pend, sops, rops, snaps, orphans) ==> AfterOf(q', pend, sops, rops, snaps + [pend], orphans + [{}]))
  {
    hide TokensOf, AfterOf;
    TokensIdle(q, pend, snaps);
    if AfterOf(q, pend, sops, rops, snaps, orphans) {
      AfterIdle(q, pend, sops, rops, snaps, orphans);
    }
  }

  lemma TokensIdle(q: Queued, pend: set<OpId>, snaps: seq<set<OpId>>)
    requires TokensOf(q, pend, snaps) && pend == {}
    ensures TokensOf(Queued(q.log + [FlushDone(|q.tokens|)], q.tokens + [{}]), pend, snaps + [pend])
  {
    hide FlushBag, DoneBag, Given;
    LogSnoc(q.log, FlushDone(|q.tokens|));
  }

  lemma AfterIdle(q: Queued, pend: set<OpId>, sops: map<OpId, SendOp>, rops: map<OpId, RecvOp>,
                  snaps: seq<set<OpId>>, orphans: seq<set<OpId>>)
    requires AfterOf(q, pend, sops, rops, snaps, orphans) && pend == {}
    ensures AfterOf(Queued(q.log + [FlushDone(|q.tokens|)], q.tokens + [{}]), pend, sops, rops, snaps + [pend], orphans + [{}])
  {
    hide IsDone, Held;
    var f := FlushDone(|q.tokens|);
    var log := q.log + [f];
    forall p | IsDone(p, q.log)
      ensures IsDone(p, log)
    {
      DoneMore(p, q.log, [f]);
    }
    forall k | 0 <= k < |q.log|
      ensures log[..k] == q.log[..k] && log[k] == q.log[k]
    {
    }
    assert log[..|q.log|] == q.log;
  }

  /** A flush with something pending attaches its token to the last operation of
      every nonempty queue. */
  lemma FlushAttach(q: Queued, pend: set<OpId>, sops: map<OpId, SendOp>, rops: map<OpId, RecvOp>,
                    snaps: seq<set<OpId>>, orphans: seq<set<OpId>>, holders: set<OpId>)
    requires TokensOf(q, pend, snaps)
    requires holders <= pend && holders != {}
    requires forall p :: p in pend ==> Held(p, holders, sops, rops)
    ensures var q' := q.(tokens := q.tokens + [holders]);
            && TokensOf(q', pend, snaps + [pend])
            && (AfterOf(q, pend, sops, rops, snaps, orphans) ==> AfterOf(q', pend, sops, rops, snaps + [pend], orphans + [{}]))
  {
    hide AfterOf, Held, FlushBag;
    if AfterOf(q, pend, sops, rops, snaps, orphans) {
      AfterAttach(q, pend, sops, rops, snaps, orphans, holders);
    }
  }

  lemma AfterAttach(q: Queued, pend: set<OpId>, sops: map<OpId, SendOp>, rops: map<OpId, RecvOp>,
                    snaps: seq<set<OpId>>, orphans: seq<set<OpId>>, holders: set<OpId>)
    requires AfterOf(q, pend, sops, rops, snaps, orphans)
    requires forall p :: p in pend ==> Held(p, holders, sops, rops)
    ensures AfterOf(q.(tokens := q.tokens + [holders]), pend, sops, rops, snaps + [pend], orphans + [{}])
  {
    hide Held, IsDone;
  }

  /** The backs of the queues hold everything that is pending. */
  lemma BacksHold(order: seq<OpId>, recvQ: seq<seq<OpId>>, sendQ: seq<seq<OpId>>,
                  sops: map<OpId, SendOp>, rops: map<OpId, RecvOp>, status: map<OpId, Status>,
                  forks: seq<Fork>, idMap: map<Sid, nat>, remoteMap: map<nat, nat>,
                  nextLocal: nat, nextOp: nat, numRecvs: nat)
    requires IdsOf(forks, idMap, remoteMap, nextLocal)
    requires OpsOf(sops, rops, forks, idMap, nextOp)
    requires ListOf(order, sops, status) && SendQOf(sendQ, order, sops, forks)
    requires RecvQOf(recvQ, rops, status, idMap, numRecvs)
    ensures Backs(recvQ) + Backs(sendQ) <= PendSet(order, recvQ)
    ensures forall p :: p in PendSet(order, recvQ) ==> Held(p, Backs(recvQ) + Backs(sendQ), sops, rops)
  {
    forall x | x in Backs(recvQ)
      ensures x in Flatten(recvQ)
    {
      FlattenMembers(recvQ);
    }
    forall x | x in Backs(sendQ)
      ensures x in order
    {
      var i :| 0 <= i < |sendQ| && sendQ[i] != [] && x == sendQ[i][|sendQ[i]| - 1];
      OnMembers(order, sops, forks[i].sid);
      assert x in On(order, sops, forks[i].sid);
    }
    forall p | p in order
      ensures Held(p, Backs(recvQ) + Backs(sendQ), sops, rops)
    {
      BackOfSend(order, sendQ, sops, rops, status, forks, idMap, remoteMap, nextLocal, nextOp, p);
    }
    forall p | p in Flatten(recvQ)
      ensures Held(p, Backs(recvQ) + Backs(sendQ), sops, rops)
    {
      BackOfRecv(recvQ, sops, rops, status, forks, idMap, remoteMap, nextLocal, numRecvs, p);
    }
  }

  lemma {:induction false} AscendingOn(s: seq<OpId>, sops: map<OpId, SendOp>, sid: Sid)
    requires Ascending(s)
    ensures Ascending(On(s, sops, sid))
  {
    if s != [] {
      AscendingOn(s[1..], sops, sid);
      OnMembers(s[1..], sops, sid);
      var t := On(s[1..], sops, sid);
      forall x | x in t
        ensures s[0] < x
      {
        var i :| 0 <= i < |s[1..]| && s[1..][i] == x;
        assert s[i + 1] == x;
      }
      forall i, j | 0 <= i < j < |On(s, sops, sid)|
        ensures On(s, sops, sid)[i] < On(s, sops, sid)[j]
      {
        if s[0] in sops && sops[s[0]].sid == sid {
          assert t[j - 1] in t;
        }
      }
    }
  }

  lemma BackOfSend(order: seq<OpId>, sendQ: seq<seq<OpId>>, sops: map<OpId, SendOp>, rops: map<OpId, RecvOp>,
                   status: map<OpId, Status>, forks: seq<Fork>, idMap: map<Sid, nat>,
                   remoteMap: map<nat, nat>, nextLocal: nat, nextOp: nat, p: OpId)
    requires IdsOf(forks, idMap, remoteMap, nextLocal)
    requires OpsOf(sops, rops, forks, idMap, nextOp)
    requires ListOf(order, sops, status) && SendQOf(sendQ, order, sops, forks)
    requires p in order
    ensures Held(p, Backs(sendQ), sops, rops)
  {
    var sid := sops[p].sid;
    var i := idMap[sid];
    var q := sendQ[i];
    OnMembers(order, sops, sid);
    AscendingOn(order, sops, sid);
    assert p in q;
    var k :| 0 <= k < |q| && q[k] == p;
    var h := q[|q| - 1];
    assert h in q && h in Backs(sendQ);
  }

  lemma BackOfRecv(recvQ: seq<seq<OpId>>, sops: map<OpId, SendOp>, rops: map<OpId, RecvOp>,
                   status: map<OpId, Status>, forks: seq<Fork>, idMap: map<Sid, nat>,
                   remoteMap: map<nat, nat>, nextLocal: nat, numRecvs: nat, p: OpId)
    requires IdsOf(forks, idMap, remoteMap, nextLocal)
    requires RecvQOf(recvQ, rops, status, idMap, numRecvs)
    requires p in Flatten(recvQ)
    ensures Held(p, Backs(recvQ), sops, rops)
  {
    RecvQWhere(recvQ, rops, status, idMap, numRecvs, p);
    hide Flatten;
    var i := idMap[rops[p].sid];
    var q := recvQ[i];
    assert QueueAt(q, i, rops, status, idMap);
    var k :| 0 <= k < |q| && q[k] == p;
    var h := q[|q| - 1];
    assert h in q && h in Backs(recvQ);
    assert forks[i].sid == rops[p].sid && forks[i].sid == rops[h].sid;
  }
}
