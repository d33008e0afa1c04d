/** Every step of the receive task keeps the invariant. */
module RecvSteps {
  import opened Common
  import opened Framing
  import opened Streams
  import opened Scheduler
  import opened Shapes
  import opened Lists
  import opened Invariants
  import opened QueueProofs
  import opened StreamProofs
  import opened FlushProofs
  import opened UserSteps
  import opened CallbackSteps
  import opened CompleteSteps

  // ---- the transport delivers bytes -------------------------------------

  lemma RecvBytesStreams(s: Sched, chunk: Bytes)
    requires CanRecvBytes(s, chunk)
    requires RxOf(s.h.rx, s.h.read, s.part, s.rpc)
    requires CountsOf(s.bytesSent, s.h.sent, s.spc, s.sops, s.bytesReceived, s.h.read, s.rpc, s.part)
    ensures RxOf(s.h.rx, s.h.read + chunk, s.part + chunk, s.rpc)
    ensures CountsOf(s.bytesSent, s.h.sent, s.spc, s.sops, s.bytesReceived, s.h.read + chunk, s.rpc, s.part + chunk)
  {
    hide Encode, Header, ValidFrames, Announced;
    assert s.h.read + chunk == Encode(s.h.rx) + (s.part + chunk);
    assert |s.part| >= 8 ==> (s.part + chunk)[..8] == s.part[..8];
  }

  lemma RecvBytesKeeps(s: Sched, chunk: Bytes)
    requires Inv(s) && CanRecvBytes(s, chunk)
    ensures Inv(DoRecvBytes(s, chunk))
  {
    hide IdsOf, OpsOf, ListOf, SendPcOf, SendQOf, RecvQOf, RecvPcOf, TxOf, BodiesOf, WireOf, MetaOf,
         LedgerOf, RxOf, RxMapOf, GivenOf, OnceOf, CountsOf, FlushOf;
    RecvBytesStreams(s, chunk);
  }

  // ---- the transport completes ------------------------------------------

  lemma HeaderStreams(s: Sched)
    requires CanRecvEnd(s, Success) && s.rpc.RHead?
    requires RxOf(s.h.rx, s.h.read, s.part, s.rpc)
    ensures var size, slot := HeaderSize(s.part), HeaderSlot(s.part);
            RxOf(s.h.rx, s.h.read, s.part, if size == 0 then RMeta(slot) else RAsk(size, slot))
  {
    EncHeader(s.part);
    hide Encode, Header, HeaderSize, HeaderSlot, ValidFrames, Announced;
    assert s.part[..8] == s.part;
  }

  lemma MetaStreams(s: Sched)
    requires CanRecvEnd(s, Success) && s.rpc.RMeta?
    requires RxOf(s.h.rx, s.h.read, s.part, s.rpc)
    ensures RxOf(s.h.rx, s.h.read, s.part, RInit(s.rpc.slot, s.part[8..24]))
  {
    hide Encode, Header, ValidFrames, Announced;
    assert s.part == s.part[..8] + s.part[8..24];
  }

  lemma BodyStreams(s: Sched)
    requires CanRecvEnd(s, Success) && s.rpc.RBody?
    requires RxOf(s.h.rx, s.h.read, s.part, s.rpc)
    ensures RxOf(s.h.rx, s.h.read, s.part, RGood(s.rpc.op, s.rpc.slot))
  {
    hide Encode, Header, ValidFrames, Announced;
  }

  lemma EndCounts(s: Sched, e: Code, rpc: RecvPc)
    requires CanRecvEnd(s, e) && (rpc.RMeta? || RecvInFlight(rpc, s.part) == 0)
    requires rpc.RMeta? ==> |s.part| == HEADER
    requires CountsOf(s.bytesSent, s.h.sent, s.spc, s.sops, s.bytesReceived, s.h.read, s.rpc, s.part)
    ensures CountsOf(s.bytesSent, s.h.sent, s.spc, s.sops, s.bytesReceived + |s.part| - Before(s.rpc), s.h.read,
                     rpc, s.part)
  {
  }

  /** Where a task that was reading goes: no queue changes. */
  lemma EndPc(s: Sched, rpc: RecvPc)
    requires Reading(s)
    requires RecvPcOf(s.rpc, s.recvQ, s.rops, s.status, s.idMap, s.remoteMap, s.numRecvs, s.ec, s.rstat)
    requires || rpc.RMeta? || rpc.RAsk? || rpc.RInit?
             || (s.rpc.RBody? && rpc == RGood(s.rpc.op, s.rpc.slot))
             || (rpc.RBad? && rpc.ec != Success
                 && rpc.prev == if s.rpc.RBody? then Some(s.rpc.op) else None)
    ensures RecvPcOf(rpc, s.recvQ, s.rops, s.status, s.idMap, s.remoteMap, s.numRecvs, s.ec, s.rstat)
  {
    hide FrontIs;
  }

  lemma RxBad(s: Sched, rpc: RecvPc)
    requires RxOf(s.h.rx, s.h.read, s.part, s.rpc)
    requires rpc.RBad? || rpc.RDone? || rpc.RCrash?
    ensures RxOf(s.h.rx, s.h.read, s.part, rpc)
  {
    hide Encode, Header, ValidFrames, Announced;
  }

  /** The frames read, wherever a task that was reading goes. */
  lemma RecvEndStreams(s: Sched, e: Code)
    requires CanRecvEnd(s, e)
    requires RxOf(s.h.rx, s.h.read, s.part, s.rpc)
    ensures RxOf(s.h.rx, s.h.read, s.part, DoRecvEnd(s, e).rpc)
  {
    hide RxOf, HeaderSize, HeaderSlot;
    if e != Success {
      RxBad(s, RBad(if s.rpc.RBody? then Some(s.rpc.op) else None, e));
    } else if s.rpc.RHead? {
      HeaderStreams(s);
    } else if s.rpc.RMeta? {
      MetaStreams(s);
    } else {
      BodyStreams(s);
    }
  }

  /** Where a task that was reading can be after the transport recv. */
  lemma RecvEndPc(s: Sched, e: Code)
    requires CanRecvEnd(s, e)
    ensures var rpc := DoRecvEnd(s, e).rpc;
            && (rpc.RMeta? || RecvInFlight(rpc, s.part) == 0)
            && (rpc.RMeta? ==> |s.part| == HEADER)
            && (|| rpc.RMeta? || rpc.RAsk? || rpc.RInit?
                || (s.rpc.RBody? && rpc == RGood(s.rpc.op, s.rpc.slot))
                || (rpc.RBad? && rpc.ec != Success
                    && rpc.prev == if s.rpc.RBody? then Some(s.rpc.op) else None))
  {
    hide HeaderSize, HeaderSlot;
    if e != Success {
    } else if s.rpc.RHead? {
    } else if s.rpc.RMeta? {
    }
  }

  lemma RecvEndKeeps(s: Sched, e: Code)
    requires Inv(s) && CanRecvEnd(s, e)
    ensures Inv(DoRecvEnd(s, e))
  {
    hide IdsOf, OpsOf, ListOf, SendPcOf, SendQOf, RecvQOf, RecvPcOf, TxOf, BodiesOf, WireOf, MetaOf,
         LedgerOf, RxOf, RxMapOf, GivenOf, OnceOf, CountsOf, FlushOf, DoRecvEnd;
    RecvEndOnly(s, e);
    RecvEndStreams(s, e);
    RecvEndPc(s, e);
    EndCounts(s, e, DoRecvEnd(s, e).rpc);
    EndPc(s, DoRecvEnd(s, e).rpc);
  }

  // ---- a meta message is processed --------------------------------------

  lemma RemoteForkTables(s: Sched, sid: Sid)
    requires IdsOf(s.forks, s.idMap, s.remoteMap, s.nextLocal) && |s.recvQ| == |s.forks|
    requires OpsOf(s.sops, s.rops, s.forks, s.idMap, s.nextOp)
    requires SendQOf(s.sendQ, s.order, s.sops, s.forks)
    requires RecvQOf(s.recvQ, s.rops, s.status, s.idMap, s.numRecvs)
    requires TxOf(s.h.tx, s.forks)
    requires RxMapOf(s.h.rx, s.remoteMap, s.forks)
    requires MetaOf(s.spc, s.sops, s.forks, s.idMap)
    requires sid !in s.idMap
    ensures var forks, idMap := s.forks + [Fork(sid, NO_SLOT, NO_SLOT, false)], s.idMap[sid := |s.forks|];
            && IdsOf(forks, idMap, s.remoteMap, s.nextLocal)
            && OpsOf(s.sops, s.rops, forks, idMap, s.nextOp)
            && SendQOf(s.sendQ + [[]], s.order, s.sops, forks)
            && RecvQOf(s.recvQ + [[]], s.rops, s.status, idMap, s.numRecvs)
            && Flatten(s.recvQ + [[]]) == Flatten(s.recvQ)
            && TxOf(s.h.tx, forks)
            && RxMapOf(s.h.rx, s.remoteMap, forks)
            && MetaOf(s.spc, s.sops, forks, idMap)
  {
    var f := Fork(sid, NO_SLOT, NO_SLOT, false);
    var forks, idMap := s.forks + [f], s.idMap[sid := |s.forks|];
    IdsNew(s.forks, s.idMap, s.remoteMap, s.nextLocal, sid, false);
    GrowAdd(s.forks, s.idMap, f);
    OpsGrow(s.sops, s.rops, s.forks, s.idMap, s.nextOp, forks, idMap);
    SendQForks(s.sendQ, s.order, s.sops, s.rops, s.forks, s.idMap, s.nextOp, sid, f);
    RecvQNew(s.recvQ, s.rops, s.status, s.idMap, s.numRecvs, sid);
    MetaGrow(s.spc, s.sops, s.forks, s.idMap, forks, idMap);
    hide IdsOf, OpsOf, SendQOf, RecvQOf, MetaOf, Grow, Flatten;
    TxForks(s.h.tx, s.forks, forks);
    RxForks(s.h.rx, s.remoteMap, s.forks, forks);
  }

  /** A fork first seen through the peer's meta message. */
  lemma RemoteForkKeeps(s: Sched, sid: Sid)
    requires Inv(s) && s.rpc.RInit? && sid !in s.idMap
    ensures Inv(RemoteFork(s, sid))
  {
    hide IdsOf, OpsOf, ListOf, SendPcOf, SendQOf, RecvQOf, RecvPcOf, TxOf, BodiesOf, WireOf, MetaOf,
         LedgerOf, RxOf, RxMapOf, GivenOf, OnceOf, CountsOf, FlushOf, Flatten;
    RemoteForkTables(s, sid);
    RecvPcGrow(s.rpc, s.recvQ, s.rops, s.status, s.idMap, s.remoteMap, s.numRecvs, s.ec, s.rstat,
               s.recvQ + [[]], s.idMap[sid := |s.forks|]);
    PendSame(s.q, s.order, s.recvQ, s.recvQ + [[]], s.sops, s.rops, s.h.snaps, s.h.orphans, s.nextOp);
  }

  lemma BindTables(s: Sched, i: nat)
    requires s.rpc.RInit? && s.rpc.sid in s.idMap && s.idMap[s.rpc.sid] == i < |s.forks|
    requires s.rpc.slot < NO_SLOT && s.rpc.slot !in s.remoteMap && s.forks[i].remoteId == NO_SLOT
    requires IdsOf(s.forks, s.idMap, s.remoteMap, s.nextLocal)
    requires OpsOf(s.sops, s.rops, s.forks, s.idMap, s.nextOp)
    requires TxOf(s.h.tx, s.forks)
    requires MetaOf(s.spc, s.sops, s.forks, s.idMap)
    ensures var forks := s.forks[i := s.forks[i].(remoteId := s.rpc.slot)];
            && IdsOf(forks, s.idMap, s.remoteMap[s.rpc.slot := i], s.nextLocal)
            && OpsOf(s.sops, s.rops, forks, s.idMap, s.nextOp)
            && TxOf(s.h.tx, forks)
            && MetaOf(s.spc, s.sops, forks, s.idMap)
  {
    var f := s.forks[i].(remoteId := s.rpc.slot);
    var forks := s.forks[i := f];
    IdsRemote(s.forks, s.idMap, s.remoteMap, s.nextLocal, i, s.rpc.slot);
    GrowSet(s.forks, s.idMap, i, f);
    OpsGrow(s.sops, s.rops, s.forks, s.idMap, s.nextOp, forks, s.idMap);
    MetaGrow(s.spc, s.sops, s.forks, s.idMap, forks, s.idMap);
    hide IdsOf, OpsOf, MetaOf, Grow;
    TxForks(s.h.tx, s.forks, forks);
  }

  lemma SendQSame(s: Sched, i: nat, f: Fork)
    requires SendQOf(s.sendQ, s.order, s.sops, s.forks)
    requires i < |s.forks| && f.sid == s.forks[i].sid
    ensures SendQOf(s.sendQ, s.order, s.sops, s.forks[i := f])
  {
    hide On;
  }

  lemma BindStreams(s: Sched, i: nat)
    requires s.rpc.RInit? && s.rpc.sid in s.idMap && s.idMap[s.rpc.sid] == i < |s.forks|
    requires s.rpc.slot < NO_SLOT && s.rpc.slot !in s.remoteMap && s.forks[i].remoteId == NO_SLOT
    requires IdsOf(s.forks, s.idMap, s.remoteMap, s.nextLocal)
    requires RxOf(s.h.rx, s.h.read, s.part, s.rpc)
    requires RxMapOf(s.h.rx, s.remoteMap, s.forks)
    requires GivenOf(s.h.rx, s.q.log)
    requires CountsOf(s.bytesSent, s.h.sent, s.spc, s.sops, s.bytesReceived, s.h.read, s.rpc, s.part)
    ensures var rx := s.h.rx + [Meta(s.rpc.slot, s.rpc.sid)];
            && RxOf(rx, s.h.read, [], RHead)
            && RxMapOf(rx, s.remoteMap[s.rpc.slot := i], s.forks[i := s.forks[i].(remoteId := s.rpc.slot)])
            && GivenOf(rx, s.q.log)
            && CountsOf(s.bytesSent, s.h.sent, s.spc, s.sops, s.bytesReceived, s.h.read, RHead, [])
  {
    hide Encode, EncFrame, Header, IdsOf, RxMapOf, ValidFrames, Announced, GivenOf, CountsOf;
    MetaEncoded(s);
    MetaGiven(s.h.rx, s.q.log, s.rpc.slot, s.rpc.sid);
    MetaCounts(s);
    RxMeta(s.h.rx, s.remoteMap, s.forks, s.idMap, s.nextLocal, s.rpc.slot, s.rpc.sid);
  }

  lemma MetaEncoded(s: Sched)
    requires s.rpc.RInit? && RxOf(s.h.rx, s.h.read, s.part, s.rpc)
    ensures s.h.read == Encode(s.h.rx + [Meta(s.rpc.slot, s.rpc.sid)]) + []
  {
    EncodeSnoc(s.h.rx, Meta(s.rpc.slot, s.rpc.sid));
    assert EncFrame(Meta(s.rpc.slot, s.rpc.sid)) == s.part;
    hide Encode, EncFrame, Header, ValidFrames, Announced;
  }

  /** A meta message carries no body. */
  lemma MetaGiven(rx: seq<Frame>, log: seq<Handle>, slot: nat, sid: Sid)
    requires GivenOf(rx, log)
    ensures GivenOf(rx + [Meta(slot, sid)], log)
  {
    hide Bodies, Given;
    Snoc(rx, Meta(slot, sid));
  }

  lemma MetaCounts(s: Sched)
    requires s.rpc.RInit?
    requires CountsOf(s.bytesSent, s.h.sent, s.spc, s.sops, s.bytesReceived, s.h.read, s.rpc, s.part)
    ensures CountsOf(s.bytesSent, s.h.sent, s.spc, s.sops, s.bytesReceived, s.h.read, RHead, [])
  {
    hide SendInFlight;
  }

  lemma InitPc(s: Sched, rpc: RecvPc)
    requires s.rpc.RInit? || s.rpc.RAsk?
    requires rpc.RHead? || rpc.RCrash? || (rpc.RBad? && rpc.prev.None? && rpc.ec != Success)
    requires RecvPcOf(s.rpc, s.recvQ, s.rops, s.status, s.idMap, s.remoteMap, s.numRecvs, s.ec, s.rstat)
    ensures forall m: map<nat, nat> ::
              RecvPcOf(rpc, s.recvQ, s.rops, s.status, s.idMap, m, s.numRecvs, s.ec, s.rstat)
  {
  }

  lemma BadCounts(s: Sched, rpc: RecvPc)
    requires RecvInFlight(s.rpc, s.part) == 0 && RecvInFlight(rpc, s.part) == 0
    requires CountsOf(s.bytesSent, s.h.sent, s.spc, s.sops, s.bytesReceived, s.h.read, s.rpc, s.part)
    ensures CountsOf(s.bytesSent, s.h.sent, s.spc, s.sops, s.bytesReceived, s.h.read, rpc, s.part)
  {
  }

  /** A message that cannot be used: the receive task will stop. */
  lemma GiveUpKeeps(s: Sched, rpc: RecvPc)
    requires Inv(s) && (s.rpc.RInit? || s.rpc.RAsk?)
    requires rpc.RCrash? || (rpc.RBad? && rpc.prev.None? && rpc.ec != Success)
    ensures Inv(s.(rpc := rpc))
  {
    hide IdsOf, OpsOf, ListOf, SendPcOf, SendQOf, RecvQOf, RecvPcOf, TxOf, BodiesOf, WireOf, MetaOf,
         LedgerOf, RxOf, RxMapOf, GivenOf, OnceOf, CountsOf, FlushOf;
    RxBad(s, rpc);
    InitPc(s, rpc);
    BadCounts(s, rpc);
  }

  lemma InitSlotBound(s: Sched)
    requires RxOf(s.h.rx, s.h.read, s.part, s.rpc) && s.rpc.RInit?
    ensures s.rpc.slot < U32
  {
  }

  lemma BindKeeps(s: Sched)
    requires Inv(s) && s.rpc.RInit? && s.rpc.slot != NO_SLOT && s.rpc.sid in s.idMap
    ensures Inv(BindSlot(s, s.rpc.slot, s.rpc.sid))
  {
    hide IdsOf, OpsOf, ListOf, SendPcOf, SendQOf, RecvQOf, RecvPcOf, TxOf, BodiesOf, WireOf, MetaOf,
         LedgerOf, RxOf, RxMapOf, GivenOf, OnceOf, CountsOf, FlushOf;
    InitSlotBound(s);
    IdsFork(s.forks, s.idMap, s.remoteMap, s.nextLocal);
    var i := s.idMap[s.rpc.sid];
    if s.forks[i].remoteId != NO_SLOT {
      GiveUpKeeps(s, RBad(None, BadCoprotoMessageHeader));
    } else if s.rpc.slot in s.remoteMap {
      GiveUpKeeps(s, RCrash);
    } else {
      BindTables(s, i);
      BindStreams(s, i);
      SendQSame(s, i, s.forks[i].(remoteId := s.rpc.slot));
      InitPc(s, RHead);
    }
  }

  lemma InitKeeps(s: Sched)
    requires Inv(s) && s.rpc.RInit?
    ensures Inv(DoInit(s))
  {
    hide Inv, BindSlot;
    var slot, sid := s.rpc.slot, s.rpc.sid;
    if slot == NO_SLOT {
      GiveUpKeeps(s, RBad(None, BadCoprotoMessageHeader));
    } else if sid in s.idMap {
      BindKeeps(s);
    } else {
      RemoteForkKeeps(s, sid);
      BindKeeps(RemoteFork(s, sid));
    }
  }

  // ---- drains of the recv queues ----------------------------------------

  /** Recording the first error keeps everything. */
  lemma StopKeeps(s: Sched, caller: Caller, e: Code)
    requires Inv(s) && e != Success
    ensures Inv(Stop(s, caller, e))
  {
    StopTasks(s, caller, e);
    StopStreams(s, caller, e);
    StopLedger(s, caller, e);
    hide IdsOf, OpsOf, ListOf, SendPcOf, SendQOf, RecvQOf, RecvPcOf, TxOf, BodiesOf, WireOf, MetaOf,
         LedgerOf, RxOf, RxMapOf, GivenOf, OnceOf, CountsOf, FlushOf, StoppedRecv;
  }

  lemma DrainRecvFacts(s: Sched, e: Code)
    requires Inv(s)
    ensures var q' := DrainOps(s.q, Flatten(s.recvQ), RecvDir, e);
            && FlushOf(q', s.order, NoQueues(|s.recvQ|), s.sops, s.rops, s.h.snaps, s.h.orphans)
            && OnceOf(s.order, NoQueues(|s.recvQ|), q'.log, s.nextOp)
            && GivenOf(s.h.rx, q'.log)
            && RecvQOf(NoQueues(|s.recvQ|), s.rops, s.status, s.idMap, 0)
  {
    hide IdsOf, OpsOf, ListOf, SendPcOf, SendQOf, RecvQOf, RecvPcOf, TxOf, BodiesOf, WireOf, MetaOf,
         LedgerOf, RxOf, RxMapOf, GivenOf, OnceOf, CountsOf, FlushOf, Pends, Flatten, DrainOps,
         InCallOrder, Covers, PendSet;
    RecvsDrain(s);
    PendsDrainRecv(s.order, s.recvQ);
    FlushDrain(s.q, s.order, s.recvQ, s.sops, s.rops, s.h.snaps, s.h.orphans, s.nextOp,
               Flatten(s.recvQ), RecvDir, e, s.order, NoQueues(|s.recvQ|));
    GivenDrain(s.h.rx, s.q, Flatten(s.recvQ), RecvDir, e);
    RecvQDrain(s.rops, s.status, s.idMap, |s.recvQ|);
  }

  lemma DrainedPc(s: Sched, rpc: RecvPc)
    requires s.ec != Success
    requires rpc.RDone? || (rpc.RBad? && rpc.prev.None? && rpc.ec != Success)
    ensures RecvPcOf(rpc, NoQueues(|s.recvQ|), s.rops, s.status, s.idMap, s.remoteMap, 0, s.ec, TaskClosed)
  {
  }

  lemma DrainRecvKeeps(s: Sched, e: Code, rpc: RecvPc)
    requires Inv(s) && s.ec != Success
    requires s.rpc.RAsk? || (s.rpc.RBad? && s.rpc.prev.None?)
    requires rpc.RDone? || (rpc.RBad? && rpc.prev.None? && rpc.ec != Success)
    ensures Inv(DrainRecvs(s, e).(rpc := rpc))
  {
    hide IdsOf, OpsOf, ListOf, SendPcOf, SendQOf, RecvQOf, RecvPcOf, TxOf, BodiesOf, WireOf, MetaOf,
         LedgerOf, RxOf, RxMapOf, GivenOf, OnceOf, CountsOf, FlushOf, Flatten, DrainOps;
    DrainRecvFacts(s, e);
    DrainedPc(s, rpc);
    RxBad(s, rpc);
    BadCounts(s, rpc);
  }

  // ---- a data header is matched -----------------------------------------

  lemma AskFront(s: Sched, i: nat)
    requires RecvQOf(s.recvQ, s.rops, s.status, s.idMap, s.numRecvs)
    requires i < |s.recvQ| && s.recvQ[i] != []
    ensures var op := s.recvQ[i][0];
            op in s.rops && op in s.status && rOf(s, op) == i && s.rops[op].sid in s.idMap
            && s.idMap[s.rops[op].sid] == i
  {
    assert QueueAt(s.recvQ[i], i, s.rops, s.status, s.idMap);
    assert s.recvQ[i][0] in s.recvQ[i];
  }

  lemma AskPc(s: Sched, i: nat, rpc: RecvPc, status: map<OpId, Status>, rstat: TaskStatus)
    requires s.rpc.RAsk? && s.ec == Success && s.rpc.slot in s.remoteMap && s.remoteMap[s.rpc.slot] == i
    requires i < |s.recvQ|
    requires RecvQOf(s.recvQ, s.rops, s.status, s.idMap, s.numRecvs)
    requires RecvPcOf(s.rpc, s.recvQ, s.rops, s.status, s.idMap, s.remoteMap, s.numRecvs, s.ec, s.rstat)
    requires s.recvQ[i] == [] ==> rpc == RWait(s.rpc.size, s.rpc.slot) && status == s.status && rstat == RequestedRecvOp
    requires s.recvQ[i] != [] ==> rpc == RMatched(s.recvQ[i][0], s.rpc.size, s.rpc.slot)
                                  && status == s.status[s.recvQ[i][0] := InProgress] && rstat == s.rstat
    ensures RecvPcOf(rpc, s.recvQ, s.rops, status, s.idMap, s.remoteMap, s.numRecvs, s.ec, rstat)
  {
    if s.recvQ[i] != [] {
      AskFront(s, i);
    }
    hide RecvQOf;
  }

  lemma AskStreams(s: Sched, rpc: RecvPc)
    requires s.rpc.RAsk?
    requires rpc == RWait(s.rpc.size, s.rpc.slot)
             || (rpc.RMatched? && rpc.size == s.rpc.size && rpc.slot == s.rpc.slot)
    requires RxOf(s.h.rx, s.h.read, s.part, s.rpc)
    ensures RxOf(s.h.rx, s.h.read, s.part, rpc)
  {
    hide Encode, Header, ValidFrames, Announced;
  }

  lemma AskMatchKeeps(s: Sched)
    requires Inv(s) && s.rpc.RAsk? && s.ec == Success && s.rpc.slot in s.remoteMap
    requires s.remoteMap[s.rpc.slot] < |s.recvQ|
    ensures Inv(MatchHeader(s, s.rpc.size, s.rpc.slot))
  {
    hide IdsOf, OpsOf, ListOf, SendPcOf, SendQOf, RecvQOf, RecvPcOf, TxOf, BodiesOf, WireOf, MetaOf,
         LedgerOf, RxOf, RxMapOf, GivenOf, OnceOf, CountsOf, FlushOf;
    var i := s.remoteMap[s.rpc.slot];
    if s.recvQ[i] == [] {
      var rpc := RWait(s.rpc.size, s.rpc.slot);
      AskPc(s, i, rpc, s.status, RequestedRecvOp);
      AskStreams(s, rpc);
      BadCounts(s, rpc);
    } else {
      var op := s.recvQ[i][0];
      var rpc := RMatched(op, s.rpc.size, s.rpc.slot);
      AskFront(s, i);
      RecvNotSend(s, op);
      ListStatus(s.order, s.sops, s.rops, s.forks, s.idMap, s.nextOp, s.status, op, InProgress);
      SendPcStatus(s.spc, s.order, s.status, s.ec, s.dangling, s.sstat, op, InProgress);
      RecvQStatus(s.recvQ, s.rops, s.status, s.idMap, s.numRecvs, op, InProgress);
      AskPc(s, i, rpc, s.status[op := InProgress], s.rstat);
      AskStreams(s, rpc);
      BadCounts(s, rpc);
    }
  }

  lemma AskSlot(s: Sched)
    requires IdsOf(s.forks, s.idMap, s.remoteMap, s.nextLocal) && |s.recvQ| == |s.forks|
    requires s.rpc.RAsk? && s.rpc.slot in s.remoteMap
    ensures s.remoteMap[s.rpc.slot] < |s.recvQ|
  {
  }

  lemma AskKeeps(s: Sched)
    requires Inv(s) && s.rpc.RAsk?
    ensures Inv(DoAsk(s))
  {
    if s.rpc.slot in s.remoteMap {
      AskSlot(s);
      hide Inv;
      if s.ec != Success {
        GiveUpKeeps(s, RBad(None, s.ec));
      } else {
        hide MatchHeader;
        AskMatchKeeps(s);
      }
    } else {
      hide Inv, DrainRecvs;
      AskUnknownKeeps(s);
    }
  }

  lemma StopAsking(s: Sched, e: Code)
    requires s.rpc.RAsk? && e != Success
    ensures Stop(s, Recver, e).ec != Success && Stop(s, Recver, e).rpc.RAsk?
  {
  }

  lemma DrainRecvsCode(s: Sched, e: Code)
    ensures DrainRecvs(s, e).ec == s.ec
  {
    hide DrainOps, Flatten, NoQueues, DrainAll;
  }

  /** A header with an unknown slot: the error is recorded and all recvs are drained. */
  lemma AskUnknownKeeps(s: Sched)
    requires Inv(s) && s.rpc.RAsk?
    ensures var t := DrainRecvs(Stop(s, Recver, BadCoprotoMessageHeader), BadCoprotoMessageHeader);
            t.ec != Success && Inv(t.(rpc := RBad(None, t.ec)))
  {
    hide Inv, Stop, DrainRecvs;
    var t := Stop(s, Recver, BadCoprotoMessageHeader);
    StopKeeps(s, Recver, BadCoprotoMessageHeader);
    StopAsking(s, BadCoprotoMessageHeader);
    DrainRecvsCode(t, BadCoprotoMessageHeader);
    DrainRecvKeeps(t, BadCoprotoMessageHeader, RBad(None, t.ec));
  }

  lemma FillPc(s: Sched, rpc: RecvPc)
    requires s.rpc.RMatched?
    requires rpc == RBody(s.rpc.op, s.rpc.size, s.rpc.slot) || rpc == RBad(Some(s.rpc.op), BadBufferSize)
    requires RecvPcOf(s.rpc, s.recvQ, s.rops, s.status, s.idMap, s.remoteMap, s.numRecvs, s.ec, s.rstat)
    requires RxOf(s.h.rx, s.h.read, s.part, s.rpc)
    requires CountsOf(s.bytesSent, s.h.sent, s.spc, s.sops, s.bytesReceived, s.h.read, s.rpc, s.part)
    ensures RecvPcOf(rpc, s.recvQ, s.rops, s.status, s.idMap, s.remoteMap, s.numRecvs, s.ec, s.rstat)
    ensures RxOf(s.h.rx, s.h.read, s.part, rpc)
    ensures CountsOf(s.bytesSent, s.h.sent, s.spc, s.sops, s.bytesReceived, s.h.read, rpc, s.part)
  {
    assert s.part[..8] == s.part;
    hide Encode, Header, ValidFrames, Announced, FrontIs;
  }

  lemma FillKeeps(s: Sched)
    requires Inv(s) && s.rpc.RMatched? && s.rpc.op in s.rops
    ensures Inv(DoFill(s))
  {
    hide IdsOf, OpsOf, ListOf, SendPcOf, SendQOf, RecvQOf, RecvPcOf, TxOf, BodiesOf, WireOf, MetaOf,
         LedgerOf, RxOf, RxMapOf, GivenOf, OnceOf, CountsOf, FlushOf;
    FillPc(s, DoFill(s).rpc);
  }
}
