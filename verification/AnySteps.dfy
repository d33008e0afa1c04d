/** Completion of a recv, and the choice of what the receive task does next. */
module AnySteps {
  import opened Common
  import opened Framing
  import opened Streams
  import opened Scheduler
  import opened Lists
  import opened Invariants
  import opened QueueProofs
  import opened StreamProofs
  import opened FlushProofs
  import opened UserSteps
  import opened CompleteSteps
  import opened RecvSteps

  /** The queues and the log once the front recv of fork `i` has completed. */
  lemma CompleteRecvFacts(s: Sched, i: nat, r: Result)
    requires Inv(s) && i < |s.recvQ| && s.recvQ[i] != []
    ensures var op := s.recvQ[i][0];
            && s.numRecvs > 0
            && RecvQOf(s.recvQ[i := s.recvQ[i][1..]], s.rops, s.status, s.idMap, s.numRecvs - 1)
            && FlushOf(Finish(s.q, op, r), s.order, s.recvQ[i := s.recvQ[i][1..]], s.sops, s.rops,
                       s.h.snaps, s.h.orphans)
            && OnceOf(s.order, s.recvQ[i := s.recvQ[i][1..]], Finish(s.q, op, r).log, s.nextOp)
  {
    hide IdsOf, OpsOf, ListOf, SendPcOf, SendQOf, RecvQOf, RecvPcOf, TxOf, BodiesOf, WireOf, MetaOf,
         LedgerOf, RxOf, RxMapOf, GivenOf, OnceOf, CountsOf, FlushOf, Finish, Pends, FirstOf,
         PendSet, Flatten;
    RecvQPop(s.recvQ, s.rops, s.status, s.idMap, s.numRecvs, i);
    PendsPopRecv(s.order, s.recvQ, i);
    FrontFirst(s, i);
    FlushComplete(s.q, s.order, s.recvQ, s.sops, s.rops, s.h.snaps, s.h.orphans, s.nextOp,
                  s.recvQ[i][0], r, s.order, s.recvQ[i := s.recvQ[i][1..]]);
  }

  /** The bytes of a completed message are the encoding of its frame. */
  lemma GoodFrame(s: Sched)
    requires s.rpc.RGood?
    requires RxOf(s.h.rx, s.h.read, s.part, s.rpc)
    ensures HEADER < |s.part| < HEADER + U32 && s.rpc.slot < U32
    ensures EncFrame(Data(s.rpc.slot, s.part[8..])) == s.part
    ensures ValidFrames(s.h.rx) && Announced(s.h.rx) && s.h.read == Encode(s.h.rx) + s.part
  {
    hide Header, Encode, ValidFrames, Announced;
    assert s.part == s.part[..8] + s.part[8..];
  }

  lemma GoodGiven(rx: seq<Frame>, f: Frame, q: Queued, op: OpId, sid: Sid)
    requires f.Data? && GivenOf(rx, q.log)
    requires forall x :: Bodies(rx + [f], x) == Bodies(rx, x) + if sid == x then [f.body] else []
    ensures GivenOf(rx + [f], Finish(q, op, Received(sid, f.body)).log)
  {
    FinishLog(q, op, Received(sid, f.body));
    hide Finish, Bodies, Given, DoneBag, FlushBag;
  }

  lemma GoodSid(s: Sched)
    requires s.rpc.RGood? && s.rpc.op in s.rops && |s.recvQ| == |s.forks|
    requires IdsOf(s.forks, s.idMap, s.remoteMap, s.nextLocal)
    requires MatchedOf(s.rpc.op, s.rpc.slot, s.recvQ, s.rops, s.status, s.idMap, s.remoteMap)
    ensures s.rpc.slot in s.remoteMap && s.remoteMap[s.rpc.slot] < |s.forks|
    ensures s.forks[s.remoteMap[s.rpc.slot]].sid == s.rops[s.rpc.op].sid
  {
  }

  /** A good frame becomes the next body given on its session. */
  lemma GoodStreams(s: Sched)
    requires s.rpc.RGood? && s.rpc.op in s.rops && |s.recvQ| == |s.forks|
    requires IdsOf(s.forks, s.idMap, s.remoteMap, s.nextLocal)
    requires MatchedOf(s.rpc.op, s.rpc.slot, s.recvQ, s.rops, s.status, s.idMap, s.remoteMap)
    requires RxOf(s.h.rx, s.h.read, s.part, s.rpc)
    requires RxMapOf(s.h.rx, s.remoteMap, s.forks)
    requires GivenOf(s.h.rx, s.q.log)
    ensures |s.part| >= HEADER
    ensures var f := Data(s.rpc.slot, s.part[8..]);
            && ValidFrames(s.h.rx + [f]) && Announced(s.h.rx + [f])
            && s.h.read == Encode(s.h.rx + [f])
            && RxMapOf(s.h.rx + [f], s.remoteMap, s.forks)
            && GivenOf(s.h.rx + [f], Finish(s.q, s.rpc.op, Received(s.rops[s.rpc.op].sid, s.part[8..])).log)
  {
    hide IdsOf, MatchedOf, RxOf, RxMapOf, GivenOf, ValidFrames, Announced, Encode, EncFrame, Bodies, Slots, Finish;
    GoodFrame(s);
    GoodSid(s);
    var f := Data(s.rpc.slot, s.part[8..]);
    RxData(s.h.rx, s.remoteMap, s.forks, f.slot, f.body);
    EncodeSnoc(s.h.rx, f);
    GoodGiven(s.h.rx, f, s.q, s.rpc.op, s.rops[s.rpc.op].sid);
  }

  /** The receive task after a good message, when it does not stop. */
  lemma GoodPc(s: Sched, recvQ: seq<seq<OpId>>, rpc: RecvPc)
    requires s.rpc.RGood? && s.numRecvs > 0
    requires RecvPcOf(s.rpc, s.recvQ, s.rops, s.status, s.idMap, s.remoteMap, s.numRecvs, s.ec, s.rstat)
    requires || (rpc.RHead? && s.ec == Success)
             || (rpc.RIdle? && s.ec == Success && s.numRecvs == 1)
             || (rpc.RBad? && rpc.prev.None? && rpc.ec != Success)
    ensures RecvPcOf(rpc, recvQ, s.rops, s.status, s.idMap, s.remoteMap, s.numRecvs - 1, s.ec,
                     if rpc.RIdle? then Idle else s.rstat)
  {
  }

  lemma GoodCounts(s: Sched, rpc: RecvPc)
    requires s.rpc.RGood? && (rpc.RHead? || rpc.RIdle? || rpc.RBad?)
    requires CountsOf(s.bytesSent, s.h.sent, s.spc, s.sops, s.bytesReceived, s.h.read, s.rpc, s.part)
    ensures CountsOf(s.bytesSent, s.h.sent, s.spc, s.sops, s.bytesReceived, s.h.read, rpc, [])
  {
  }

  lemma GoodRx(rx: seq<Frame>, read: Bytes, rpc: RecvPc)
    requires ValidFrames(rx) && Announced(rx) && read == Encode(rx)
    requires rpc.RHead? || rpc.RIdle? || rpc.RBad?
    ensures RxOf(rx, read, [], rpc)
  {
    hide Encode, ValidFrames, Announced;
    assert read == Encode(rx) + [];
  }

  lemma GoodFacts(s: Sched)
    requires s.rpc.RGood?
    requires RecvPcOf(s.rpc, s.recvQ, s.rops, s.status, s.idMap, s.remoteMap, s.numRecvs, s.ec, s.rstat)
    ensures s.rpc.op in s.rops && rOf(s, s.rpc.op) < |s.recvQ|
    ensures s.recvQ[rOf(s, s.rpc.op)] != [] && s.recvQ[rOf(s, s.rpc.op)][0] == s.rpc.op
    ensures MatchedOf(s.rpc.op, s.rpc.slot, s.recvQ, s.rops, s.status, s.idMap, s.remoteMap)
  {
  }

  lemma GoodShape(s: Sched)
    requires CanAny(s) && s.rpc.RGood?
    ensures var op, i, body := s.rpc.op, rOf(s, s.rpc.op), s.part[8..];
            CompleteRecv(s)
            == s.(numRecvs := s.numRecvs - 1, recvQ := s.recvQ[i := s.recvQ[i][1..]], recvR := PopFrom(s.recvR, i),
                  q := Finish(s.q, op, Received(s.rops[op].sid, body)), part := [],
                  h := s.h.(rx := s.h.rx + [Data(s.rpc.slot, body)]))
  {
    hide Finish, PopFrom;
  }

  /** A completed message: the state after completePrev with the receive task at `rpc`. */
  lemma GoodKeeps(s: Sched, rpc: RecvPc)
    requires Inv(s) && CanAny(s) && s.rpc.RGood?
    requires || (rpc.RHead? && s.ec == Success)
             || (rpc.RIdle? && s.ec == Success && s.numRecvs == 1)
             || (rpc.RBad? && rpc.prev.None? && rpc.ec != Success)
    ensures Inv(CompleteRecv(s).(rpc := rpc, rstat := if rpc.RIdle? then Idle else s.rstat))
  {
    hide IdsOf, OpsOf, ListOf, SendPcOf, SendQOf, RecvQOf, RecvPcOf, TxOf, BodiesOf, WireOf, MetaOf,
         LedgerOf, RxOf, RxMapOf, GivenOf, OnceOf, CountsOf, FlushOf, Finish, Flatten, MatchedOf,
         CompleteRecv, PopFrom;
    GoodFacts(s);
    GoodShape(s);
    GoodTables(s, rOf(s, s.rpc.op), rpc);
    GoodRx(s.h.rx + [Data(s.rpc.slot, s.part[8..])], s.h.read, rpc);
  }

  /** Everything that changes when a good message completes. */
  lemma GoodTables(s: Sched, i: nat, rpc: RecvPc)
    requires Inv(s) && s.rpc.RGood? && s.rpc.op in s.rops
    requires i == rOf(s, s.rpc.op) && i < |s.recvQ| && s.recvQ[i] != [] && s.recvQ[i][0] == s.rpc.op
    requires || (rpc.RHead? && s.ec == Success)
             || (rpc.RIdle? && s.ec == Success && s.numRecvs == 1)
             || (rpc.RBad? && rpc.prev.None? && rpc.ec != Success)
    ensures |s.part| >= HEADER && s.numRecvs > 0
    ensures var op, body := s.rpc.op, s.part[8..];
            var r, f := Received(s.rops[op].sid, body), Data(s.rpc.slot, body);
            var recvQ := s.recvQ[i := s.recvQ[i][1..]];
            && RecvQOf(recvQ, s.rops, s.status, s.idMap, s.numRecvs - 1)
            && FlushOf(Finish(s.q, op, r), s.order, recvQ, s.sops, s.rops, s.h.snaps, s.h.orphans)
            && OnceOf(s.order, recvQ, Finish(s.q, op, r).log, s.nextOp)
            && ValidFrames(s.h.rx + [f]) && Announced(s.h.rx + [f]) && s.h.read == Encode(s.h.rx + [f])
            && RxMapOf(s.h.rx + [f], s.remoteMap, s.forks)
            && GivenOf(s.h.rx + [f], Finish(s.q, op, r).log)
            && RecvPcOf(rpc, recvQ, s.rops, s.status, s.idMap, s.remoteMap, s.numRecvs - 1, s.ec,
                        if rpc.RIdle? then Idle else s.rstat)
            && CountsOf(s.bytesSent, s.h.sent, s.spc, s.sops, s.bytesReceived, s.h.read, rpc, [])
  {
    hide IdsOf, OpsOf, ListOf, SendPcOf, SendQOf, RecvQOf, RecvPcOf, TxOf, BodiesOf, WireOf, MetaOf,
         LedgerOf, RxOf, RxMapOf, GivenOf, OnceOf, CountsOf, FlushOf, Finish, Flatten, MatchedOf,
         ValidFrames, Announced, Encode;
    GoodFacts(s);
    GoodStreams(s);
    var op := s.rpc.op;
    var r := Received(s.rops[op].sid, s.part[8..]);
    CompleteRecvFacts(s, i, r);
    GoodPc(s, s.recvQ[i := s.recvQ[i][1..]], rpc);
    GoodCounts(s, rpc);
  }

  // ---- a recv fails -------------------------------------------------------

  lemma BadFacts(s: Sched)
    requires s.rpc.RBad?
    requires RecvPcOf(s.rpc, s.recvQ, s.rops, s.status, s.idMap, s.remoteMap, s.numRecvs, s.ec, s.rstat)
    ensures s.rpc.ec != Success
    ensures s.rpc.prev.Some? ==>
              var op := s.rpc.prev.value;
              rOf(s, op) < |s.recvQ| && s.recvQ[rOf(s, op)] != [] && s.recvQ[rOf(s, op)][0] == op
  {
  }

  lemma FailPc(s: Sched, recvQ: seq<seq<OpId>>, n: nat)
    requires s.rpc.RBad?
    requires RecvPcOf(s.rpc, s.recvQ, s.rops, s.status, s.idMap, s.remoteMap, s.numRecvs, s.ec, s.rstat)
    ensures RecvPcOf(RBad(None, Cancel), recvQ, s.rops, s.status, s.idMap, s.remoteMap, n, s.ec, s.rstat)
  {
  }

  lemma FailKeeps(s: Sched)
    requires Inv(s) && CanAny(s) && s.rpc.RBad? && s.rpc.prev.Some?
    ensures Inv(CompleteRecv(s).(rpc := RBad(None, Cancel)))
  {
    hide IdsOf, OpsOf, ListOf, SendPcOf, SendQOf, RecvQOf, RecvPcOf, TxOf, BodiesOf, WireOf, MetaOf,
         LedgerOf, RxOf, RxMapOf, GivenOf, OnceOf, CountsOf, FlushOf, Finish, Flatten;
    BadFacts(s);
    var op := s.rpc.prev.value;
    var i := rOf(s, op);
    var r := Failed(RecvDir, s.rpc.ec);
    CompleteRecvFacts(s, i, r);
    GivenQuiet(s.h.rx, s.q, op, r);
    FailPc(s, s.recvQ[i := s.recvQ[i][1..]], s.numRecvs - 1);
    RxBad(s, RBad(None, Cancel));
    BadCounts(s, RBad(None, Cancel));
  }

  // ---- what next ----------------------------------------------------------

  /** A stopping task: the first error is recorded and the recv queues are drained. */
  lemma StopDrainKeeps(s: Sched, e: Code)
    requires Inv(s) && (e != Success || s.ec != Success)
    requires s.rpc.RBad? && s.rpc.prev.None?
    ensures Inv(StopReading(s, e))
  {
    hide Inv, DrainRecvs;
    if s.ec == Success {
      StopKeeps(s, Recver, e);
    }
    DrainRecvKeeps(Stop(s, Recver, e), e, RDone);
  }

  /** Stopping does not look at where the receive task is, as long as it is not parked. */
  lemma StopSame(s: Sched, e: Code, rpc: RecvPc)
    requires !s.rpc.RIdle? && !s.rpc.RWait? && !rpc.RIdle? && !rpc.RWait?
    ensures Stop(s.(rpc := rpc), Recver, e) == Stop(s, Recver, e).(rpc := rpc)
  {
    if s.ec == Success {
      StopFirstSame(s, e, rpc);
    }
    hide StoppedRecv;
  }

  lemma StopFirstSame(s: Sched, e: Code, rpc: RecvPc)
    requires s.ec == Success
    requires !s.rpc.RIdle? && !s.rpc.RWait? && !rpc.RIdle? && !rpc.RWait?
    ensures Stop(s.(rpc := rpc), Recver, e) == Stop(s, Recver, e).(rpc := rpc)
  {
    assert StoppedRecv(rpc, Recver, e) == rpc;
    hide StoppedRecv;
  }

  lemma DrainSame(s: Sched, e: Code, rpc: RecvPc)
    ensures DrainRecvs(s.(rpc := rpc), e).(rpc := RDone) == DrainRecvs(s, e).(rpc := RDone)
  {
    hide DrainOps, Flatten, NoQueues;
  }

  lemma StopDrainSame(s: Sched, e: Code, rpc: RecvPc)
    requires !s.rpc.RIdle? && !s.rpc.RWait? && !rpc.RIdle? && !rpc.RWait?
    ensures StopReading(s, e) == StopReading(s.(rpc := rpc), e)
  {
    StopSame(s, e, rpc);
    DrainSame(Stop(s, Recver, e), e, rpc);
    hide DrainRecvs, Stop;
  }

  lemma AnyGoodKeeps(s: Sched)
    requires Inv(s) && CanAny(s) && s.rpc.RGood?
    ensures Inv(DoAny(s))
  {
    hide Inv, StopReading;
    var s1 := CompleteRecv(s);
    if s.ec != Success {
      var rpc := RBad(None, Closed);
      GoodKeeps(s, rpc);
      StopDrainKeeps(s1.(rpc := rpc), Success);
      StopDrainSame(s1, Success, rpc);
    } else if s.numRecvs > 1 {
      GoodKeeps(s, RHead);
    } else {
      GoodKeeps(s, RIdle);
    }
  }

  lemma CompleteKeepsPc(s: Sched)
    requires CanAny(s)
    ensures CompleteRecv(s).rpc == s.rpc && CompleteRecv(s).ec == s.ec
    ensures PrevRecv(s.rpc).None? ==> CompleteRecv(s) == s
  {
    hide Finish;
  }

  lemma BadCode(s: Sched)
    requires Inv(s) && s.rpc.RBad?
    ensures s.rpc.ec != Success
  {
    hide IdsOf, OpsOf, ListOf, SendPcOf, SendQOf, RecvQOf, RecvPcOf, TxOf, BodiesOf, WireOf, MetaOf,
         LedgerOf, RxOf, RxMapOf, GivenOf, OnceOf, CountsOf, FlushOf;
    BadFacts(s);
  }

  lemma BadStops(s: Sched)
    requires CanAny(s) && s.rpc.RBad? && s.rpc.ec != Success
    ensures DoAny(s) == StopReading(CompleteRecv(s), CarriedError(s.rpc))
  {
    hide StopReading, CompleteRecv, ReadNext;
  }

  lemma AnyBadKeeps(s: Sched)
    requires Inv(s) && CanAny(s) && s.rpc.RBad?
    ensures Inv(DoAny(s))
  {
    hide Inv, StopReading, CompleteRecv, DoAny, CanAny;
    BadCode(s);
    BadStops(s);
    CompleteKeepsPc(s);
    if s.rpc.prev.Some? {
      var rpc := RBad(None, Cancel);
      FailKeeps(s);
      StopDrainKeeps(CompleteRecv(s).(rpc := rpc), Cancel);
      StopDrainSame(CompleteRecv(s), Cancel, rpc);
    } else {
      StopDrainKeeps(s, s.rpc.ec);
    }
  }

  lemma AnyKeeps(s: Sched)
    requires Inv(s) && CanAny(s)
    ensures Inv(DoAny(s))
  {
    hide Inv, DoAny;
    if s.rpc.RGood? {
      AnyGoodKeeps(s);
    } else {
      AnyBadKeeps(s);
    }
  }
}
