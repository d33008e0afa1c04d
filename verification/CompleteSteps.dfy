/** Completion of operations, one at a time and in drains, keeps the invariant. */
module CompleteSteps {
  import opened Common
  import opened Framing
  import opened Streams
  import opened Scheduler
  import opened Lists
  import opened Invariants
  import opened QueueProofs
  import opened StreamProofs
  import opened FlushProofs
  import opened UserSteps
  import opened SendSteps

  // ---- one completion ---------------------------------------------------

  /** The first of a fork completes: it leaves the queues, its handle is queued, and
      the flushes that waited for it alone fire. */
  lemma FlushComplete(q: Queued, order: seq<OpId>, recvQ: seq<seq<OpId>>, sops: map<OpId, SendOp>,
                      rops: map<OpId, RecvOp>, snaps: seq<set<OpId>>, orphans: seq<set<OpId>>, nextOp: nat,
                      op: OpId, r: Result, order': seq<OpId>, recvQ': seq<seq<OpId>>)
    requires FlushOf(q, order, recvQ, sops, rops, snaps, orphans)
    requires OnceOf(order, recvQ, q.log, nextOp)
    requires Pends(order, recvQ) == Pends(order', recvQ') + multiset{op}
    requires FirstOf(op, PendSet(order, recvQ), sops, rops)
    ensures FlushOf(Finish(q, op, r), order', recvQ', sops, rops, snaps, orphans)
    ensures OnceOf(order', recvQ', Finish(q, op, r).log, nextOp)
  {
    FinishLog(q, op, r);
    OnceMove(order, recvQ, q.log, nextOp, order', recvQ', Finish(q, op, r).log, multiset{op});
    assert multiset([op]) == multiset{op};
    PendSetMove(order, recvQ, order', recvQ', q.log, nextOp, [op]);
    TokensFinish(q, PendSet(order, recvQ), snaps, op, r);
    AfterBounds(q, PendSet(order, recvQ), sops, rops, snaps, orphans);
    FirstMay(q, PendSet(order, recvQ), sops, rops, snaps, op, orphans);
    AfterFinish(q, PendSet(order, recvQ), sops, rops, snaps, orphans, op, r, orphans);
    hide Finish, TokensOf, AfterOf, PendSet, OnceOf, Pends, FirstOf;
    assert PendSet(order', recvQ') == PendSet(order, recvQ) - {op};
  }

  /** A drain completes everything in `ops`. */
  lemma FlushDrain(q: Queued, order: seq<OpId>, recvQ: seq<seq<OpId>>, sops: map<OpId, SendOp>,
                   rops: map<OpId, RecvOp>, snaps: seq<set<OpId>>, orphans: seq<set<OpId>>, nextOp: nat,
                   ops: seq<OpId>, dir: Dir, e: Code, order': seq<OpId>, recvQ': seq<seq<OpId>>)
    requires FlushOf(q, order, recvQ, sops, rops, snaps, orphans)
    requires OnceOf(order, recvQ, q.log, nextOp)
    requires Pends(order, recvQ) == Pends(order', recvQ') + multiset(ops)
    requires InCallOrder(ops, sops, rops) && Covers(ops, PendSet(order, recvQ), sops, rops)
    ensures FlushOf(DrainOps(q, ops, dir, e), order', recvQ', sops, rops, snaps, orphans)
    ensures OnceOf(order', recvQ', DrainOps(q, ops, dir, e).log, nextOp)
  {
    DrainLog(q, ops, dir, e);
    OnceMove(order, recvQ, q.log, nextOp, order', recvQ', DrainOps(q, ops, dir, e).log, multiset(ops));
    PendSetMove(order, recvQ, order', recvQ', q.log, nextOp, ops);
    TokensDrain(q, PendSet(order, recvQ), snaps, ops, dir, e);
    AfterDrain(q, PendSet(order, recvQ), sops, rops, snaps, orphans, ops, dir, e);
    hide DrainOps, TokensOf, AfterOf, PendSet, OnceOf, Pends, InCallOrder, Covers;
  }

  /** A pending operation is either a send of the list or a queued recv. */
  lemma PendingKinds(s: Sched, p: OpId)
    requires OpsOf(s.sops, s.rops, s.forks, s.idMap, s.nextOp)
    requires ListOf(s.order, s.sops, s.status)
    requires RecvQOf(s.recvQ, s.rops, s.status, s.idMap, s.numRecvs)
    requires p in PendSet(s.order, s.recvQ)
    ensures p in s.sops ==> p in s.order && p !in s.rops
    ensures p in s.rops ==> p in Flatten(s.recvQ) && p !in s.sops
  {
    if p in Flatten(s.recvQ) {
      RecvQWhere(s.recvQ, s.rops, s.status, s.idMap, s.numRecvs, p);
    }
  }

  lemma HeadFirst(s: Sched)
    requires OpsOf(s.sops, s.rops, s.forks, s.idMap, s.nextOp)
    requires ListOf(s.order, s.sops, s.status)
    requires RecvQOf(s.recvQ, s.rops, s.status, s.idMap, s.numRecvs)
    requires s.order != []
    ensures FirstOf(s.order[0], PendSet(s.order, s.recvQ), s.sops, s.rops)
  {
    var op := s.order[0];
    assert op in s.sops && op !in s.rops;
    forall p | p in PendSet(s.order, s.recvQ) && SameQueue(p, op, s.sops, s.rops)
      ensures op <= p
    {
      PendingKinds(s, p);
      var k :| 0 <= k < |s.order| && s.order[k] == p;
    }
  }

  lemma FrontFirst(s: Sched, i: nat)
    requires IdsOf(s.forks, s.idMap, s.remoteMap, s.nextLocal) && |s.recvQ| == |s.forks|
    requires OpsOf(s.sops, s.rops, s.forks, s.idMap, s.nextOp)
    requires ListOf(s.order, s.sops, s.status)
    requires RecvQOf(s.recvQ, s.rops, s.status, s.idMap, s.numRecvs)
    requires i < |s.recvQ| && s.recvQ[i] != []
    ensures FirstOf(s.recvQ[i][0], PendSet(s.order, s.recvQ), s.sops, s.rops)
  {
    var op := s.recvQ[i][0];
    assert QueueAt(s.recvQ[i], i, s.rops, s.status, s.idMap);
    assert op in s.rops && op !in s.sops;
    forall p | p in PendSet(s.order, s.recvQ) && SameQueue(p, op, s.sops, s.rops)
      ensures op <= p
    {
      PendingKinds(s, p);
      RecvQWhere(s.recvQ, s.rops, s.status, s.idMap, s.numRecvs, p);
      var k :| 0 <= k < |s.recvQ[i]| && s.recvQ[i][k] == p;
    }
  }

  lemma ListDrains(s: Sched)
    requires OpsOf(s.sops, s.rops, s.forks, s.idMap, s.nextOp)
    requires ListOf(s.order, s.sops, s.status)
    requires RecvQOf(s.recvQ, s.rops, s.status, s.idMap, s.numRecvs)
    ensures InCallOrder(s.order, s.sops, s.rops)
    ensures Covers(s.order, PendSet(s.order, s.recvQ), s.sops, s.rops)
  {
    forall p, k | 0 <= k < |s.order| && p in PendSet(s.order, s.recvQ)
                  && SameQueue(p, s.order[k], s.sops, s.rops)
      ensures p in s.order
    {
      assert s.order[k] in s.sops && s.order[k] !in s.rops;
      PendingKinds(s, p);
    }
  }

  /** Recvs drained fork by fork come in call order on each fork. */
  lemma {:induction false} FlattenInOrder(recvQ: seq<seq<OpId>>, base: nat, sops: map<OpId, SendOp>,
                                          rops: map<OpId, RecvOp>, status: map<OpId, Status>,
                                          idMap: map<Sid, nat>)
    requires forall i :: 0 <= i < |recvQ| ==> QueueAt(recvQ[i], base + i, rops, status, idMap)
    requires forall op :: op in rops ==> op !in sops
    ensures InCallOrder(Flatten(recvQ), sops, rops)
    ensures forall op :: op in Flatten(recvQ) ==> op in rops && rops[op].sid in idMap && idMap[rops[op].sid] >= base
    decreases |recvQ|
  {
    if recvQ != [] {
      forall i | 0 <= i < |recvQ[1..]|
        ensures QueueAt(recvQ[1..][i], base + 1 + i, rops, status, idMap)
      {
        assert QueueAt(recvQ[i + 1], base + (i + 1), rops, status, idMap);
      }
      FlattenInOrder(recvQ[1..], base + 1, sops, rops, status, idMap);
      assert QueueAt(recvQ[0], base + 0, rops, status, idMap);
      FlattenStep(recvQ[0], Flatten(recvQ[1..]), base, sops, rops, idMap);
    }
  }

  lemma FlattenStep(a: seq<OpId>, b: seq<OpId>, base: nat, sops: map<OpId, SendOp>,
                    rops: map<OpId, RecvOp>, idMap: map<Sid, nat>)
    requires Ascending(a) && InCallOrder(b, sops, rops)
    requires forall op :: op in rops ==> op !in sops
    requires forall op :: op in a ==> op in rops && rops[op].sid in idMap && idMap[rops[op].sid] == base
    requires forall op :: op in b ==> op in rops && rops[op].sid in idMap && idMap[rops[op].sid] > base
    ensures InCallOrder(a + b, sops, rops)
  {
    var c := a + b;
    forall j, k | 0 <= j < k < |c|
      ensures SameQueue(c[k], c[j], sops, rops) ==> c[j] <= c[k]
    {
      if j >= |a| {
        assert c[j] == b[j - |a|] && c[k] == b[k - |a|];
      } else {
        assert a[j] in a;
        if k >= |a| {
          assert b[k - |a|] in b;
        }
      }
    }
  }

  lemma RecvsDrain(s: Sched)
    requires OpsOf(s.sops, s.rops, s.forks, s.idMap, s.nextOp)
    requires ListOf(s.order, s.sops, s.status)
    requires RecvQOf(s.recvQ, s.rops, s.status, s.idMap, s.numRecvs)
    ensures InCallOrder(Flatten(s.recvQ), s.sops, s.rops)
    ensures Covers(Flatten(s.recvQ), PendSet(s.order, s.recvQ), s.sops, s.rops)
  {
    forall i | 0 <= i < |s.recvQ|
      ensures QueueAt(s.recvQ[i], 0 + i, s.rops, s.status, s.idMap)
    {
      assert QueueAt(s.recvQ[i], i, s.rops, s.status, s.idMap);
    }
    FlattenInOrder(s.recvQ, 0, s.sops, s.rops, s.status, s.idMap);
    var ops := Flatten(s.recvQ);
    forall p, k | 0 <= k < |ops| && p in PendSet(s.order, s.recvQ) && SameQueue(p, ops[k], s.sops, s.rops)
      ensures p in ops
    {
      assert ops[k] in ops;
      assert ops[k] in s.rops && ops[k] !in s.sops;
      PendingKinds(s, p);
    }
  }

  // ---- the send task completes its operation ------------------------------

  /** Completing a send gives nothing to a recv. */
  lemma GivenQuiet(rx: seq<Frame>, q: Queued, op: OpId, r: Result)
    requires GivenOf(rx, q.log) && !r.Received?
    ensures GivenOf(rx, Finish(q, op, r).log)
  {
    FinishLog(q, op, r);
    hide Finish, Given, Bodies, FlushBag, DoneBag;
  }

  lemma GivenDrain(rx: seq<Frame>, q: Queued, ops: seq<OpId>, dir: Dir, e: Code)
    requires GivenOf(rx, q.log)
    ensures GivenOf(rx, DrainOps(q, ops, dir, e).log)
  {
    DrainLog(q, ops, dir, e);
    hide DrainOps, Given, Bodies, DoneBag;
  }

  /** The state of the list, queues and log after the head has completed. */
  lemma CompleteSendFacts(s: Sched, r: Result)
    requires Inv(s) && CanNextSend(s) && !r.Received?
    ensures var op, i := s.spc.op, sOf(s, s.spc.op);
            && ListOf(s.order[1..], s.sops, s.status)
            && SendQOf(s.sendQ[i := s.sendQ[i][1..]], s.order[1..], s.sops, s.forks)
            && FlushOf(Finish(s.q, op, r), s.order[1..], s.recvQ, s.sops, s.rops, s.h.snaps, s.h.orphans)
            && OnceOf(s.order[1..], s.recvQ, Finish(s.q, op, r).log, s.nextOp)
            && GivenOf(s.h.rx, Finish(s.q, op, r).log)
  {
    hide IdsOf, OpsOf, ListOf, SendPcOf, SendQOf, RecvQOf, RecvPcOf, TxOf, BodiesOf, WireOf, MetaOf,
         LedgerOf, RxOf, RxMapOf, GivenOf, OnceOf, CountsOf, FlushOf, Finish, Pends, FirstOf, PendSet;
    var op := s.spc.op;
    HeadFacts(s, op);
    ListPop(s.order, s.sops, s.status);
    SendQPop(s.sendQ, s.order, s.sops, s.forks, s.idMap, s.remoteMap, s.nextLocal);
    PendsPopSend(s.order, s.recvQ);
    HeadFirst(s);
    FlushComplete(s.q, s.order, s.recvQ, s.sops, s.rops, s.h.snaps, s.h.orphans, s.nextOp, op, r,
                  s.order[1..], s.recvQ);
    GivenQuiet(s.h.rx, s.q, op, r);
  }

  /** The next operation of the list starts, or the send task parks. */
  lemma NextPc(s: Sched)
    requires ListOf(s.order, s.sops, s.status)
    requires SendPcOf(s.spc, s.order, s.status, s.ec, s.dangling, s.sstat)
    requires s.spc.SFinish? && s.ec == Success
    ensures var order := s.order[1..];
            && (order == [] ==> SendPcOf(SIdle, order, s.status, s.ec, s.dangling && |s.order| > 1, Idle))
            && (order != [] ==>
                  && order[0] in s.status && s.status[order[0]] == NotStarted
                  && order[0] in s.sops
                  && ListOf(order, s.sops, s.status[order[0] := InProgress])
                  && SendPcOf(SGot(order[0]), order, s.status[order[0] := InProgress], s.ec,
                              s.dangling && |s.order| > 1, s.sstat))
  {
    ListPop(s.order, s.sops, s.status);
    var order := s.order[1..];
    if order != [] {
      assert order[0] in order;
      assert order[0] !in order[1..];
    }
  }

  /** The wire when the send task goes from one message to the next. */
  lemma NextWire(s: Sched, spc: SendPc)
    requires s.spc.SFinish? && s.spc.ec == Success && (spc.SIdle? || spc.SGot?)
    requires WireOf(s.h.sent, s.h.tx, s.spc, s.sops, s.h.headBegun)
    requires CountsOf(s.bytesSent, s.h.sent, s.spc, s.sops, s.bytesReceived, s.h.read, s.rpc, s.part)
    requires LedgerOf(s.h.accepted, s.h.withdrawn, s.h.begun, s.order, s.h.headBegun, s.spc.SDone?, s.nextOp)
    requires s.order != []
    ensures WireOf(s.h.sent, s.h.tx, spc, s.sops, false)
    ensures CountsOf(s.bytesSent, s.h.sent, spc, s.sops, s.bytesReceived, s.h.read, s.rpc, s.part)
    ensures MetaOf(spc, s.sops, s.forks, s.idMap)
    ensures LedgerOf(s.h.accepted, s.h.withdrawn, s.h.begun, s.order[1..], false, false, s.nextOp)
  {
    hide Encode;
  }

  lemma NextRunKeeps(s: Sched)
    requires Inv(s) && CanNextSend(s) && s.spc.ec == Success && s.ec == Success
    ensures Inv(DoNextSend(s))
  {
    hide IdsOf, OpsOf, ListOf, SendPcOf, SendQOf, RecvQOf, RecvPcOf, TxOf, BodiesOf, WireOf, MetaOf,
         LedgerOf, RxOf, RxMapOf, GivenOf, OnceOf, CountsOf, FlushOf, Finish;
    CompleteSendFacts(s, Sent);
    NextPc(s);
    var order := s.order[1..];
    if order != [] {
      var x := order[0];
      NextWire(s, SGot(x));
      RecvQStatus(s.recvQ, s.rops, s.status, s.idMap, s.numRecvs, x, InProgress);
      RecvPcStatus(s.rpc, s.recvQ, s.rops, s.status, s.idMap, s.remoteMap, s.numRecvs, s.ec, s.rstat,
                   x, InProgress);
    } else {
      NextWire(s, SIdle);
    }
  }

  // ---- the send task stops ------------------------------------------------

  lemma StopRecvPc(s: Sched, caller: Caller, e: Code)
    requires e != Success
    requires RecvPcOf(s.rpc, s.recvQ, s.rops, s.status, s.idMap, s.remoteMap, s.numRecvs, s.ec, s.rstat)
    requires RxOf(s.h.rx, s.h.read, s.part, s.rpc)
    ensures s.ec == Success ==>
              RecvPcOf(StoppedRecv(s.rpc, caller, e), s.recvQ, s.rops, s.status, s.idMap, s.remoteMap,
                       s.numRecvs, e, s.rstat)
    ensures RxOf(s.h.rx, s.h.read, s.part, StoppedRecv(s.rpc, caller, e))
    ensures RecvInFlight(StoppedRecv(s.rpc, caller, e), s.part) == RecvInFlight(s.rpc, s.part)
  {
    hide Encode, Header, ValidFrames, Announced, FrontIs;
  }

  /** The list and the log once everything left has been drained. */
  lemma DrainSendFacts(s: Sched, q: Queued, order: seq<OpId>, e: Code)
    requires IdsOf(s.forks, s.idMap, s.remoteMap, s.nextLocal)
    requires OpsOf(s.sops, s.rops, s.forks, s.idMap, s.nextOp)
    requires ListOf(order, s.sops, s.status)
    requires RecvQOf(s.recvQ, s.rops, s.status, s.idMap, s.numRecvs)
    requires FlushOf(q, order, s.recvQ, s.sops, s.rops, s.h.snaps, s.h.orphans)
    requires OnceOf(order, s.recvQ, q.log, s.nextOp)
    requires GivenOf(s.h.rx, q.log)
    ensures var q' := DrainOps(q, order, SendDir, e);
            && FlushOf(q', [], s.recvQ, s.sops, s.rops, s.h.snaps, s.h.orphans)
            && OnceOf([], s.recvQ, q'.log, s.nextOp)
            && GivenOf(s.h.rx, q'.log)
            && ListOf([], s.sops, s.status)
            && SendQOf(NoQueues(|s.forks|), [], s.sops, s.forks)
  {
    ListDrains(s.(order := order));
    assert Pends(order, s.recvQ) == Pends([], s.recvQ) + multiset(order);
    SendQDrain(s.sops, s.forks);
    hide IdsOf, OpsOf, RecvQOf, FlushOf, OnceOf, GivenOf, Pends, InCallOrder, Covers, DrainOps, SendQOf;
    FlushDrain(q, order, s.recvQ, s.sops, s.rops, s.h.snaps, s.h.orphans, s.nextOp, order, SendDir, e,
               [], s.recvQ);
    GivenDrain(s.h.rx, q, order, SendDir, e);
  }

  lemma StopWire(s: Sched, rpc: RecvPc)
    requires s.spc.SFinish?
    requires RecvInFlight(rpc, s.part) == RecvInFlight(s.rpc, s.part)
    requires WireOf(s.h.sent, s.h.tx, s.spc, s.sops, s.h.headBegun)
    requires CountsOf(s.bytesSent, s.h.sent, s.spc, s.sops, s.bytesReceived, s.h.read, s.rpc, s.part)
    requires LedgerOf(s.h.accepted, s.h.withdrawn, s.h.begun, s.order, s.h.headBegun, s.spc.SDone?, s.nextOp)
    ensures WireOf(s.h.sent, s.h.tx, SDone, s.sops, false)
    ensures CountsOf(s.bytesSent, s.h.sent, SDone, s.sops, s.bytesReceived, s.h.read, rpc, s.part)
    ensures MetaOf(SDone, s.sops, s.forks, s.idMap)
    ensures LedgerOf(s.h.accepted, s.h.withdrawn, s.h.begun, [], false, true, s.nextOp)
  {
    hide Encode, RecvInFlight;
  }

  lemma SendPcDone(status: map<OpId, Status>, ec: Code)
    requires ec != Success
    ensures SendPcOf(SDone, [], status, ec, false, TaskClosed)
  {
  }

  lemma NextStopKeeps(s: Sched)
    requires Inv(s) && CanNextSend(s) && (s.spc.ec != Success || s.ec != Success)
    ensures Inv(DoNextSend(s))
  {
    hide IdsOf, OpsOf, ListOf, SendPcOf, SendQOf, RecvQOf, RecvPcOf, TxOf, BodiesOf, WireOf, MetaOf,
         LedgerOf, RxOf, RxMapOf, GivenOf, OnceOf, CountsOf, FlushOf, Finish, DrainOps,
         RecvInFlight;
    var ec, op := s.spc.ec, s.spc.op;
    var e := if ec == Success then Success else Cancel;
    var r := if ec == Success then Sent else Failed(SendDir, ec);
    CompleteSendFacts(s, r);
    DrainSendFacts(s, Finish(s.q, op, r), s.order[1..], e);
    StopRecvPc(s, Sender, Cancel);
    var rpc := if s.ec == Success then StoppedRecv(s.rpc, Sender, e) else s.rpc;
    StopWire(s, rpc);
    SendPcDone(s.status, if s.ec == Success then e else s.ec);
    hide StoppedRecv;
    SendQSize(s);
  }

  lemma SendQSize(s: Sched)
    requires SendQOf(s.sendQ, s.order, s.sops, s.forks)
    ensures |s.sendQ| == |s.forks|
  {
  }

  lemma NextSendKeeps(s: Sched)
    requires Inv(s) && CanNextSend(s)
    ensures Inv(DoNextSend(s))
  {
    hide Inv, DoNextSend;
    if s.spc.ec == Success && s.ec == Success {
      NextRunKeeps(s);
    } else {
      NextStopKeeps(s);
    }
  }
}
