/** The state machine over the queues as the code keeps them: every step does to the block
    queues, the linked list and the flush tokens what it says of their contents, and meets
    every precondition of the operations it uses. */
module Refine {
  import opened Common
  import opened Framing
  import opened Rings
  import opened Queue
  import opened Lanes
  import opened Scheduler
  import opened SendList
  import opened Lists
  import opened Invariants
  import opened QueueProofs
  import opened CallbackSteps
  import opened CompleteSteps
  import opened Endpoint
  import opened Blocks
  import opened Shapes
  import opened ForkQueues

  /** `fq` holds the queued operations of `s`; operations to come have no address yet. */
  ghost predicate Holds(fq: ForkQueues, s: Sched)
    reads fq, fq.sends, fq.recvs, fq.Repr()
  {
    && fq.Valid() && fq.Abs() == TablesOf(s)
    && (forall op :: op in fq.Keys() ==> op < s.nextOp)
  }

  /** A step that moves no queued operation. */
  lemma Untouched(fq: ForkQueues, s: Sched, t: Sched)
    requires Holds(fq, s) && TablesOf(t) == TablesOf(s) && s.nextOp <= t.nextOp
    ensures Holds(fq, t)
  {
    hide ForkQueues.Valid, ForkQueues.Abs, ForkQueues.Keys, TablesOf;
  }

  // ---- user calls ------------------------------------------------------------------

  lemma ForkTablesOf(s: Sched, sid: Sid)
    requires CanFork(s, sid)
    ensures var t := DoFork(s, sid);
            && t.nextOp == s.nextOp
            && TablesOf(t) == if sid in s.idMap then TablesOf(s)
                              else TablesOf(s).(sendR := s.sendR + [EmptyRing()], recvR := s.recvR + [EmptyRing()])
  {
    hide EmptyRing;
  }

  method Fork(fq: ForkQueues, s: Sched, sid: Sid)
    requires Holds(fq, s) && CanFork(s, sid)
    modifies fq.Repr()
    ensures Holds(fq, DoFork(s, sid)) && fresh(fq.Repr() - old(fq.Repr()))
  {
    hide ForkQueues.Valid, ForkQueues.Abs, ForkQueues.Keys, DoFork, EmptyRing;
    ForkTablesOf(s, sid);
    if sid !in s.idMap {
      fq.AddFork();
    }
  }

  lemma SendTablesOf(s: Sched, sid: Sid, body: Bytes)
    requires CanSend(s, sid, body)
    ensures var t := DoSend(s, sid, body); var op := s.nextOp;
            && t.nextOp == s.nextOp + 1
            && TablesOf(t) == (if body == [] || s.ec != Success then
                                 TablesOf(s).(q := s.q.(log := s.q.log + [OpDone(op, Refused(if body == [] then SendLengthZeroMsg else s.ec))]))
                               else
                                 TablesOf(s).(order := s.order + [op], sendR := PushTo(s.sendR, s.idMap[sid], op)))
  {
    hide PushTo;
    if body == [] {
    } else if s.ec != Success {
    } else if s.spc.SIdle? {
    }
  }

  method Send(fq: ForkQueues, s: Sched, sid: Sid, body: Bytes)
    requires Holds(fq, s) && CanSend(s, sid, body) && |s.sendQ| == |s.sendR|
    modifies fq.Repr()
    ensures Holds(fq, DoSend(s, sid, body)) && fresh(fq.Repr() - old(fq.Repr()))
  {
    hide ForkQueues.Valid, ForkQueues.Abs, ForkQueues.Keys, DoSend, PushTo;
    SendTablesOf(s, sid, body);
    if body == [] {
      fq.Log(OpDone(s.nextOp, Refused(SendLengthZeroMsg)));
    } else if s.ec != Success {
      fq.Log(OpDone(s.nextOp, Refused(s.ec)));
    } else {
      fq.PushSend(s.idMap[sid], s.nextOp);
    }
  }

  lemma RefusedTablesOf(s: Sched, sid: Sid, buffer: Buffer)
    requires IsLocal(s, sid) && s.ec != Success
    ensures var t := DoRecv(s, sid, buffer);
            && t.nextOp == s.nextOp + 1
            && TablesOf(t) == TablesOf(s).(q := s.q.(log := s.q.log + [OpDone(s.nextOp, Refused(s.ec))]))
  {
    hide PushTo;
  }

  lemma RecvTablesOf(s: Sched, sid: Sid, buffer: Buffer)
    requires IsLocal(s, sid) && s.ec == Success
    ensures var t := DoRecv(s, sid, buffer); var op := s.nextOp;
            && t.nextOp == s.nextOp + 1
            && TablesOf(t) == TablesOf(s).(recvR := PushTo(s.recvR, s.idMap[sid], op), numRecvs := s.numRecvs + 1)
  {
    hide PushTo, DoRecv;
    RecvOnly(s, sid, buffer);
  }

  method Recv(fq: ForkQueues, s: Sched, sid: Sid, buffer: Buffer)
    requires Holds(fq, s) && IsLocal(s, sid) && |s.recvQ| == |s.recvR|
    modifies fq.Repr()
    ensures Holds(fq, DoRecv(s, sid, buffer)) && fresh(fq.Repr() - old(fq.Repr()))
  {
    hide ForkQueues.Valid, ForkQueues.Abs, ForkQueues.Keys, DoRecv, PushTo;
    if s.ec != Success {
      RefusedTablesOf(s, sid, buffer);
      fq.Log(OpDone(s.nextOp, Refused(s.ec)));
    } else {
      RecvTablesOf(s, sid, buffer);
      fq.PushRecv(s.idMap[sid], s.nextOp);
    }
  }

  // ---- stop callbacks ---------------------------------------------------------------

  lemma OnceIn(r: Ring, q: seq<OpId>, op: OpId)
    requires RingFor(r, q) && Ascending(q) && op in q
    ensures HoldsOnce(r, op)
  {
    hide AllLive, Ready;
    forall j, k | 0 <= j < k < |AllLive(r)|
      ensures AllLive(r)[j].value != op || AllLive(r)[k].value != op
    {
      assert AllLive(r)[j].value == q[j] && AllLive(r)[k].value == q[k];
    }
  }

  lemma CancelSendReady(s: Sched, op: OpId)
    requires Inv(s) && RingInv(s) && CanCancelSend(s, op) && s.status[op].NotStarted?
    ensures sOf(s, op) < |s.sendR| && HoldsOnce(s.sendR[sOf(s, op)], op)
    ensures op in s.order && s.order[0] != op && Ascending(s.order)
  {
    hide RingsFor, HoldsOnce;
    SendWhere(s, op);
    HeadStarted(s);
    hide Inv, RingInv, CanCancelSend, Ascending, sOf;
    SendRingAt(s, sOf(s, op));
    OnceIn(s.sendR[sOf(s, op)], s.sendQ[sOf(s, op)], op);
  }

  lemma HeadStarted(s: Sched)
    requires Inv(s)
    ensures Ascending(s.order)
    ensures s.order != [] ==> s.order[0] in s.status && s.status[s.order[0]] != NotStarted
  {
    hide IdsOf, OpsOf, RecvQOf, RecvPcOf, TxOf, BodiesOf, WireOf, MetaOf, LedgerOf, RxOf, RxMapOf, GivenOf,
         OnceOf, CountsOf, FlushOf, SendQOf, Ascending;
  }

  lemma SendRingAt(s: Sched, i: nat)
    requires RingInv(s) && i < |s.sendQ|
    ensures |s.sendR| == |s.sendQ| && RingFor(s.sendR[i], s.sendQ[i])
  {
    hide RingFor;
  }

  lemma RecvRingAt(s: Sched, i: nat)
    requires RingInv(s) && i < |s.recvQ|
    ensures |s.recvR| == |s.recvQ| && RingFor(s.recvR[i], s.recvQ[i])
  {
    hide RingFor;
  }

  lemma CancelSendTablesOf(s: Sched, op: OpId)
    requires CanCancelSend(s, op)
    ensures var t := DoCancelSend(s, op);
            && t.nextOp == s.nextOp
            && TablesOf(t) == (if !s.status[op].NotStarted? then TablesOf(s)
                               else TablesOf(s).(q := Finish(s.q, op, Withdrawn), order := Without(s.order, {op}),
                                                 dangling := s.dangling || s.order[|s.order| - 1] == op,
                                                 sendR := EraseFrom(s.sendR, sOf(s, op), op)))
  {
    hide Finish, Without, EraseFrom, sOf, Orphaned, CanErase;
    if s.status[op].NotStarted? {
    }
  }

  method CancelOfSend(fq: ForkQueues, s: Sched, op: OpId)
    requires Holds(fq, s) && Inv(s) && RingInv(s) && CanCancelSend(s, op)
    modifies fq.Repr()
    ensures Holds(fq, DoCancelSend(s, op)) && fresh(fq.Repr() - old(fq.Repr()))
  {
    hide ForkQueues.Valid, ForkQueues.Abs, ForkQueues.Keys, DoCancelSend, Inv, RingInv, EraseFrom, HoldsOnce, Finish,
         Without, CanErase, Ascending, sOf;
    CancelSendTablesOf(s, op);
    if s.status[op].NotStarted? {
      CancelSendReady(s, op);
      var ok := fq.CancelSend(sOf(s, op), op);
    }
  }

  lemma CancelRecvReady(s: Sched, op: OpId)
    requires Inv(s) && RingInv(s) && CanCancelRecv(s, op)
    ensures rOf(s, op) < |s.recvR| && HoldsOnce(s.recvR[rOf(s, op)], op) && s.numRecvs > 0
  {
    hide RingsFor, HoldsOnce, Flatten;
    RecvWhere(s, op);
    assert s.numRecvs > 0;
    hide Inv, RingInv, CanCancelRecv, Ascending, rOf;
    RecvRingAt(s, rOf(s, op));
    OnceIn(s.recvR[rOf(s, op)], s.recvQ[rOf(s, op)], op);
  }

  lemma CancelRecvTablesOf(s: Sched, op: OpId)
    requires CanCancelRecv(s, op)
    ensures var t := DoCancelRecv(s, op);
            && t.nextOp == s.nextOp
            && TablesOf(t) == (if !s.status[op].NotStarted? then TablesOf(s)
                               else TablesOf(s).(q := Finish(s.q, op, Withdrawn), numRecvs := s.numRecvs - 1,
                                                 recvR := EraseFrom(s.recvR, rOf(s, op), op)))
  {
    hide Finish, Without, EraseFrom, rOf, Orphaned, CanErase, Flatten;
    if s.status[op].NotStarted? {
    }
  }

  method CancelOfRecv(fq: ForkQueues, s: Sched, op: OpId)
    requires Holds(fq, s) && Inv(s) && RingInv(s) && CanCancelRecv(s, op)
    modifies fq.Repr()
    ensures Holds(fq, DoCancelRecv(s, op)) && fresh(fq.Repr() - old(fq.Repr()))
  {
    hide ForkQueues.Valid, ForkQueues.Abs, ForkQueues.Keys, DoCancelRecv, Inv, RingInv, EraseFrom, HoldsOnce, Finish,
         CanErase, rOf, Flatten;
    CancelRecvTablesOf(s, op);
    if s.status[op].NotStarted? {
      CancelRecvReady(s, op);
      var ok := fq.CancelRecv(rOf(s, op), op);
    }
  }

  // ---- flush ------------------------------------------------------------------------

  lemma FlushReady(s: Sched)
    requires RingInv(s) && CanFlush(s)
    ensures forall i :: 0 <= i < |s.sendR| && AllLive(s.sendR[i]) != [] ==> BackLive(s.sendR[i])
    ensures forall i :: 0 <= i < |s.recvR| && AllLive(s.recvR[i]) != [] ==> BackLive(s.recvR[i])
  {
    hide BackLive, RingFor;
    forall i | 0 <= i < |s.sendR|
      ensures AllLive(s.sendR[i]) == [] <==> s.sendQ[i] == []
    {
      Emptied(s.sendR[i], s.sendQ[i]);
    }
    forall i | 0 <= i < |s.recvR|
      ensures AllLive(s.recvR[i]) == [] <==> s.recvQ[i] == []
    {
      Emptied(s.recvR[i], s.recvQ[i]);
    }
    hide AllLive;
  }

  lemma FlushTablesOf(s: Sched)
    requires CanFlush(s)
    ensures var t := DoFlush(s);
            && t.nextOp == s.nextOp
            && TablesOf(t) == (if s.numRecvs == 0 && s.order == [] then
                                 TablesOf(s).(q := Queued(s.q.log + [FlushDone(|s.q.tokens|)], s.q.tokens + [{}]))
                               else
                                 TablesOf(s).(q := s.q.(tokens := s.q.tokens + [Backs(s.recvQ) + Backs(s.sendQ)])))
  {
    hide CanFlush, Backs, Pending;
    if s.numRecvs == 0 && s.order == [] {
    }
  }

  method Flush(fq: ForkQueues, s: Sched)
    requires Holds(fq, s) && RingInv(s) && CanFlush(s)
    modifies fq.Repr()
    ensures Holds(fq, DoFlush(s)) && fresh(fq.Repr() - old(fq.Repr()))
  {
    hide ForkQueues.Valid, ForkQueues.Abs, ForkQueues.Keys, DoFlush, RingsFor, CanFlush, Backs, AllLive, BackLive;
    FlushTablesOf(s);
    if s.numRecvs == 0 && s.order == [] {
      fq.Log(FlushDone(|s.q.tokens|));
      fq.AddToken({});
    } else {
      FlushReady(s);
      LastIsBack(s.sendR, s.sendQ);
      LastIsBack(s.recvR, s.recvQ);
      fq.AttachToken();
    }
  }

  // ---- completions and drains ------------------------------------------------------

  lemma QueuedSends(s: Sched)
    requires Inv(s) && RingInv(s)
    ensures SendsQueued(s)
  {
    hide RecvQOf, RecvPcOf, TxOf, BodiesOf, WireOf, MetaOf, LedgerOf, RxOf, RxMapOf, GivenOf, OnceOf, CountsOf,
         FlushOf, SendQOf, RingsFor;
  }

  lemma CompleteSendTablesOf(s: Sched)
    requires CanNextSend(s)
    ensures var t := CompleteSend(s);
            && t.nextOp == s.nextOp && t.sops == s.sops && t.idMap == s.idMap && t.forks == s.forks
            && t.remoteMap == s.remoteMap && t.nextLocal == s.nextLocal
            && t.sendQ == s.sendQ[sOf(s, s.spc.op) := s.sendQ[sOf(s, s.spc.op)][1..]]
            && TablesOf(t) == TablesOf(s).(order := s.order[1..], dangling := s.dangling && |s.order| > 1,
                                           sendR := PopFrom(s.sendR, sOf(s, s.spc.op)),
                                           q := Finish(s.q, s.spc.op, if s.spc.ec == Success then Sent else Failed(SendDir, s.spc.ec)))
  {
    hide Finish, PopFrom, sOf;
  }

  method CompletePrev(fq: ForkQueues, s: Sched)
    requires Holds(fq, s) && SendsQueued(s) && CanNextSend(s)
    modifies fq.Repr()
    ensures Holds(fq, CompleteSend(s)) && fq.Repr() == old(fq.Repr())
  {
    hide ForkQueues.Valid, ForkQueues.Abs, ForkQueues.Keys, CompleteSend, PopFrom, Finish, RingFor, IdsOf, SendQOf,
         RingsFor, ForkQueues.Chain;
    CompleteSendTablesOf(s);
    HeadFront(s);
    fq.ListChain(s);
    fq.SendLane(sOf(s, s.spc.op), s.sendQ[sOf(s, s.spc.op)]);
    var i := fq.CompletePrevSend(if s.spc.ec == Success then Sent else Failed(SendDir, s.spc.ec));
  }

  lemma CompletedQueued(s: Sched)
    requires SendsQueued(s) && CanNextSend(s)
    ensures SendsQueued(CompleteSend(s))
  {
    hide CompleteSend, QueuedParts, CanNextSend, Finish, PopFrom, sOf;
    SameRefl(s.sendR);
    NextHead(s);
    HeadlessParts(s, s.sendR);
    CompleteSendTablesOf(s);
  }

  lemma NextHead(s: Sched)
    requires CanNextSend(s)
    ensures s.spc.SFinish? && s.order != [] && s.order[0] == s.spc.op
  {
    hide sOf;
  }

  lemma StopSendingTablesOf(s: Sched, e: Code)
    ensures var t := StopSending(s, e);
            && t.nextOp == s.nextOp
            && TablesOf(t) == TablesOf(s).(order := [], dangling := false, sendR := DrainAll(s.sendR),
                                           q := DrainOps(s.q, s.order, SendDir, e))
  {
    hide DrainOps, DrainAll, NoQueues, StoppedRecv;
    if s.ec != Success {
    }
  }

  /** NextSendOp::await_suspend */
  method NextSend(fq: ForkQueues, s: Sched)
    requires Holds(fq, s) && SendsQueued(s) && CanNextSend(s)
    modifies fq.Repr()
    ensures Holds(fq, DoNextSend(s)) && fq.Repr() == old(fq.Repr())
  {
    assert s.spc.SFinish?;
    hide ForkQueues.Valid, ForkQueues.Abs, ForkQueues.Keys, CompleteSend, CanNextSend, StopSending, StartNext, DrainAll,
         DrainOps, SendsQueued;
    ghost var s1 := CompleteSend(s);
    CompletedQueued(s);
    CompletePrev(fq, s);
    CompleteEc(s);
    var e := if s.spc.ec == Success then Success else Code.Cancel;
    if e != Success || s.ec != Success {
      StopSendingTablesOf(s1, e);
      fq.DrainList(e, s1);
    } else {
      StartNextOnly(s1);
    }
  }

  lemma CompleteEc(s: Sched)
    requires CanNextSend(s)
    ensures CompleteSend(s).ec == s.ec
  {
    hide Finish, PopFrom, sOf;
  }

  lemma CompleteRecvTablesOf(s: Sched)
    requires CanAny(s) && PrevRecv(s.rpc).Some?
    ensures var t := CompleteRecv(s); var op := PrevRecv(s.rpc).value;
            && op in s.rops && t.nextOp == s.nextOp && t.recvQ == s.recvQ[rOf(s, op) := s.recvQ[rOf(s, op)][1..]]
            && t.sendQ == s.sendQ
            && TablesOf(t) == TablesOf(s).(recvR := PopFrom(s.recvR, rOf(s, op)), numRecvs := s.numRecvs - 1,
                                           q := Finish(s.q, op, if s.rpc.RGood? then Received(s.rops[op].sid, s.part[8..])
                                                                else Failed(RecvDir, s.rpc.ec)))
  {
    hide Finish, PopFrom;
    if s.rpc.RGood? {
    }
  }

  lemma PrevFront(s: Sched)
    requires Inv(s) && CanAny(s) && PrevRecv(s.rpc).Some?
    ensures var op := PrevRecv(s.rpc).value;
            rOf(s, op) < |s.recvQ| && s.recvQ[rOf(s, op)] != [] && s.recvQ[rOf(s, op)][0] == op
  {
    hide IdsOf, OpsOf, ListOf, SendPcOf, SendQOf, RecvQOf, TxOf, BodiesOf, WireOf, MetaOf, LedgerOf, RxOf, RxMapOf,
         GivenOf, OnceOf, CountsOf, FlushOf;
  }

  method CompletePrevOfRecv(fq: ForkQueues, s: Sched)
    requires Holds(fq, s) && Inv(s) && RingInv(s) && CanAny(s)
    modifies fq.Repr()
    ensures Holds(fq, CompleteRecv(s)) && fq.Repr() == old(fq.Repr())
  {
    hide ForkQueues.Valid, ForkQueues.Abs, ForkQueues.Keys, Inv, RingInv, RingFor, PopFrom, Finish, rOf, AllLive;
    match PrevRecv(s.rpc)
    case None =>
    case Some(op) =>
      CompleteRecvTablesOf(s);
      PrevFront(s);
      hide CompleteRecv;
      RecvRingAt(s, rOf(s, op));
      FrontFor(s.recvR[rOf(s, op)], s.recvQ[rOf(s, op)]);
      var done := fq.CompletePrevRecv(rOf(s, op), if s.rpc.RGood? then Received(s.rops[op].sid, s.part[8..])
                                                  else Failed(RecvDir, s.rpc.ec));
  }

  lemma CompletedRings(s: Sched)
    requires RingInv(s) && CanAny(s)
    ensures RingsFor(CompleteRecv(s).recvR, CompleteRecv(s).recvQ) && CompleteRecv(s).ec == s.ec
  {
    hide RingsFor, Changes, CompleteRecv;
    var d := CompleteRecvChanges(s);
    CompleteRecvEc(s);
    ChangeKeeps(d, s.recvQ, s.recvR, CompleteRecv(s).recvQ, CompleteRecv(s).recvR);
  }

  lemma CompleteRecvEc(s: Sched)
    requires CanAny(s)
    ensures CompleteRecv(s).ec == s.ec
  {
    hide Finish, PopFrom, rOf;
    if PrevRecv(s.rpc).Some? {
      if s.rpc.RGood? {
      }
    }
  }

  lemma StopReadingTablesOf(s: Sched, e: Code)
    ensures var t := StopReading(s, e);
            && t.nextOp == s.nextOp
            && TablesOf(t) == TablesOf(s).(recvR := DrainAll(s.recvR), numRecvs := 0,
                                           q := DrainOps(s.q, Flatten(s.recvQ), RecvDir, e))
  {
    hide DrainOps, DrainAll, NoQueues, StoppedRecv, Flatten;
    if s.ec != Success {
    }
  }

  /** AnyRecvOp::await_suspend */
  method AnyRecv(fq: ForkQueues, s: Sched)
    requires Holds(fq, s) && Inv(s) && RingInv(s) && CanAny(s)
    modifies fq.Repr()
    ensures Holds(fq, DoAny(s)) && fq.Repr() == old(fq.Repr())
  {
    hide ForkQueues.Valid, ForkQueues.Abs, ForkQueues.Keys, Inv, RingInv, RingsFor, CompleteRecv, CanAny, StopReading,
         ReadNext, DrainAll, DrainOps, CarriedError, Flatten;
    ghost var s1 := CompleteRecv(s);
    CompletedRings(s);
    CompletePrevOfRecv(fq, s);
    var e := CarriedError(s.rpc);
    if e != Success || s.ec != Success {
      StopReadingTablesOf(s1, e);
      fq.DrainForks(e, s1.recvQ);
    } else {
      ReadNextOnly(s1);
    }
  }

  lemma AskTablesOf(s: Sched)
    requires s.rpc.RAsk?
    ensures var t := DoAsk(s);
            && t.nextOp == s.nextOp
            && TablesOf(t) == if s.rpc.slot in s.remoteMap then TablesOf(s)
                              else TablesOf(s).(recvR := DrainAll(s.recvR), numRecvs := 0,
                                                q := DrainOps(s.q, Flatten(s.recvQ), RecvDir, BadCoprotoMessageHeader))
  {
    hide MatchHeader, StopReading, DrainRecvs, Stop, DrainAll, DrainOps, Flatten;
    MatchOnly(s, s.rpc.size, s.rpc.slot);
    if s.rpc.slot !in s.remoteMap {
      DrainTablesOf(s, BadCoprotoMessageHeader);
      MatchOnly(DrainRecvs(Stop(s, Recver, BadCoprotoMessageHeader), BadCoprotoMessageHeader), s.rpc.size, s.rpc.slot);
    }
  }

  lemma DrainTablesOf(s: Sched, e: Code)
    ensures var t := DrainRecvs(Stop(s, Recver, e), e);
            && t.nextOp == s.nextOp
            && TablesOf(t) == TablesOf(s).(recvR := DrainAll(s.recvR), numRecvs := 0,
                                           q := DrainOps(s.q, Flatten(s.recvQ), RecvDir, e))
  {
    hide DrainOps, DrainAll, NoQueues, StoppedRecv, Flatten;
    if s.ec != Success {
    }
  }

  /** GetRequestedRecvSocketFork::await_suspend */
  method Ask(fq: ForkQueues, s: Sched)
    requires Holds(fq, s) && RingInv(s) && s.rpc.RAsk?
    modifies fq.Repr()
    ensures Holds(fq, DoAsk(s)) && fq.Repr() == old(fq.Repr())
  {
    hide ForkQueues.Valid, ForkQueues.Abs, ForkQueues.Keys, RingsFor, DoAsk, DrainAll, DrainOps, Flatten;
    AskTablesOf(s);
    if s.rpc.slot !in s.remoteMap {
      fq.DrainForks(BadCoprotoMessageHeader, s.recvQ);
    }
  }

  lemma RemoteTablesOf(s: Sched, sid: Sid)
    ensures var t := RemoteFork(s, sid);
            && t.nextOp == s.nextOp && sid in t.idMap
            && TablesOf(t) == if sid in s.idMap then TablesOf(s)
                              else TablesOf(s).(sendR := s.sendR + [EmptyRing()], recvR := s.recvR + [EmptyRing()])
  {
    hide EmptyRing;
  }

  lemma InitTablesOf(s: Sched)
    requires s.rpc.RInit?
    ensures var t := DoInit(s);
            && t.nextOp == s.nextOp
            && TablesOf(t) == if s.rpc.slot == NO_SLOT || s.rpc.sid in s.idMap then TablesOf(s)
                              else TablesOf(s).(sendR := s.sendR + [EmptyRing()], recvR := s.recvR + [EmptyRing()])
  {
    hide EmptyRing, BindSlot, RemoteFork;
    if s.rpc.slot != NO_SLOT {
      RemoteTablesOf(s, s.rpc.sid);
      BindOnly(RemoteFork(s, s.rpc.sid), s.rpc.slot, s.rpc.sid);
    }
  }

  /** initRemoteSocketFork */
  method Init(fq: ForkQueues, s: Sched)
    requires Holds(fq, s) && s.rpc.RInit?
    modifies fq.Repr()
    ensures Holds(fq, DoInit(s)) && fresh(fq.Repr() - old(fq.Repr()))
  {
    hide ForkQueues.Valid, ForkQueues.Abs, ForkQueues.Keys, DoInit, EmptyRing;
    InitTablesOf(s);
    if s.rpc.slot != NO_SLOT && s.rpc.sid !in s.idMap {
      fq.AddFork();
    }
  }

  // ---- every step ---------------------------------------------------------------------

  lemma StillTablesOf(s: Sched, t: Sched)
    requires Still(s, t)
    ensures t.nextOp == s.nextOp && TablesOf(t) == TablesOf(s)
  {
  }

  lemma Sizes(s: Sched)
    requires RingInv(s)
    ensures |s.sendQ| == |s.sendR| && |s.recvQ| == |s.recvR|
  {
    hide RingFor;
  }

  /** Whatever step comes next, the code's queues follow it. */
  method Do(fq: ForkQueues, s: Sched, st: Step)
    requires Holds(fq, s) && Inv(s) && RingInv(s) && Enabled(s, st)
    modifies fq.Repr()
    ensures Holds(fq, Apply(s, st)) && fresh(fq.Repr() - old(fq.Repr()))
  {
    hide Holds, Inv, RingInv, SendsQueued, DoFork, DoSend, DoRecv, DoCancelSend, DoCancelRecv, DoFlush, DoClose, DoBegin,
         DoSendBytes, DoSendEnd, DoNextSend, DoRecvBytes, DoRecvEnd, DoInit, DoAsk, DoFill, DoAny;
    Sizes(s);
    match st
    case UFork(sid) => Fork(fq, s, sid);
    case USend(sid, body) => Send(fq, s, sid, body);
    case URecv(sid, buffer) => Recv(fq, s, sid, buffer);
    case UCancelSend(op) => CancelOfSend(fq, s, op);
    case UCancelRecv(op) => CancelOfRecv(fq, s, op);
    case UFlush => Flush(fq, s);
    case TNextSend =>
      QueuedSends(s);
      NextSend(fq, s);
    case TInit => Init(fq, s);
    case TAsk => Ask(fq, s);
    case TAny => AnyRecv(fq, s);
    case _ =>
      StillStep(s, st);
      StillTablesOf(s, Apply(s, st));
      Untouched(fq, s, Apply(s, st));
  }

  // ---- whole runs -----------------------------------------------------------------------

  method Begin(root: Sid) returns (fq: ForkQueues)
    ensures fresh(fq) && fresh(fq.Repr()) && Holds(fq, Start(root))
  {
    hide ForkQueues.Valid, EmptyRing, ForkQueues.Keys;
    fq := new ForkQueues();
    fq.AddFork();
  }

  /** For every run of a new scheduler the block queues, the list and the tokens of the code
      can be driven along, and hold at the end what the state machine says: in every fork
      the live slots of its blocks are its queued operations, in order. */
  method Replay(root: Sid, steps: seq<Step>, ghost t: Sched) returns (fq: ForkQueues)
    requires Runs(Start(root), steps, t)
    ensures fresh(fq) && Holds(fq, t) && RingInv(t)
  {
    hide Holds, Inv, RingInv, Apply, Enabled, Start;
    fq := Begin(root);
    var s := Start(root);
    StartInv(root);
    StartRings(root);
    for k := 0 to |steps|
      invariant Runs(s, steps[k..], t) && Holds(fq, s) && Inv(s) && RingInv(s)
      invariant fresh(fq) && (forall o :: o in fq.Repr() ==> fresh(o))
    {
      assert steps[k..][0] == steps[k] && steps[k..][1..] == steps[k + 1..];
      ghost var was := fq.Repr();
      StepRings(s, steps[k]);
      StepKeeps(s, steps[k]);
      label L:
      Do(fq, s, steps[k]);
      forall o | o in fq.Repr()
        ensures fresh(o)
      {
        assert o !in was ==> fresh@L(o);
      }
      s := Apply(s, steps[k]);
    }
  }
}
