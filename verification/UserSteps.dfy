/** Every user call keeps the invariant. */
module UserSteps {
  import opened Common
  import opened Framing
  import opened Streams
  import opened Scheduler
  import opened Lists
  import opened Invariants
  import opened QueueProofs
  import opened StreamProofs
  import opened FlushProofs

  /** The receive task does not notice new forks, ids or initiated flags. */
  lemma RecvPcGrow(rpc: RecvPc, recvQ: seq<seq<OpId>>, rops: map<OpId, RecvOp>,
                   status: map<OpId, Status>, idMap: map<Sid, nat>, remoteMap: map<nat, nat>,
                   numRecvs: nat, ec: Code, rstat: TaskStatus, recvQ': seq<seq<OpId>>, idMap': map<Sid, nat>)
    requires RecvPcOf(rpc, recvQ, rops, status, idMap, remoteMap, numRecvs, ec, rstat)
    requires recvQ <= recvQ'
    requires forall sid :: sid in idMap ==> sid in idMap' && idMap'[sid] == idMap[sid]
    ensures RecvPcOf(rpc, recvQ', rops, status, idMap', remoteMap, numRecvs, ec, rstat)
  {
  }

  lemma MetaGrow(spc: SendPc, sops: map<OpId, SendOp>, forks: seq<Fork>, idMap: map<Sid, nat>,
                 forks': seq<Fork>, idMap': map<Sid, nat>)
    requires MetaOf(spc, sops, forks, idMap) && Grow(forks, idMap, forks', idMap')
    ensures MetaOf(spc, sops, forks', idMap')
  {
  }

  lemma PendSame(q: Queued, order: seq<OpId>, recvQ: seq<seq<OpId>>, recvQ': seq<seq<OpId>>,
                 sops: map<OpId, SendOp>, rops: map<OpId, RecvOp>, snaps: seq<set<OpId>>, orphans: seq<set<OpId>>,
                 nextOp: nat)
    requires Flatten(recvQ') == Flatten(recvQ)
    requires FlushOf(q, order, recvQ, sops, rops, snaps, orphans)
    requires OnceOf(order, recvQ, q.log, nextOp)
    ensures FlushOf(q, order, recvQ', sops, rops, snaps, orphans)
    ensures OnceOf(order, recvQ', q.log, nextOp)
  {
    assert PendSet(order, recvQ') == PendSet(order, recvQ);
    assert Pends(order, recvQ') == Pends(order, recvQ);
  }

  lemma ForkTables(s: Sched, sid: Sid)
    requires CanFork(s, sid)
    requires IdsOf(s.forks, s.idMap, s.remoteMap, s.nextLocal)
    ensures var t := DoFork(s, sid);
            IdsOf(t.forks, t.idMap, t.remoteMap, t.nextLocal)
  {
    hide IdsOf;
    IdsFork(s.forks, s.idMap, s.remoteMap, s.nextLocal);
    if sid in s.idMap {
      IdsLocal(s.forks, s.idMap, s.remoteMap, s.nextLocal, s.idMap[sid]);
    } else {
      IdsNew(s.forks, s.idMap, s.remoteMap, s.nextLocal, sid, true);
    }
  }

  lemma ForkGrows(s: Sched, sid: Sid)
    requires CanFork(s, sid)
    ensures Grow(s.forks, s.idMap, DoFork(s, sid).forks, DoFork(s, sid).idMap)
  {
    if sid in s.idMap {
      var i := s.idMap[sid];
      GrowSet(s.forks, s.idMap, i, s.forks[i].(localId := s.nextLocal));
    } else {
      GrowAdd(s.forks, s.idMap, Fork(sid, s.nextLocal, NO_SLOT, false));
    }
    hide Grow;
  }

  lemma ForkKeeps(s: Sched, sid: Sid)
    requires Inv(s) && CanFork(s, sid)
    ensures Inv(DoFork(s, sid))
  {
    var t := DoFork(s, sid);
    ForkTables(s, sid);
    ForkGrows(s, sid);
    ForkTx(s, sid);
    ForkQueues(s, sid);
    OpsGrow(s.sops, s.rops, s.forks, s.idMap, s.nextOp, t.forks, t.idMap);
    RxForks(s.h.rx, s.remoteMap, s.forks, t.forks);
    RecvPcGrow(s.rpc, s.recvQ, s.rops, s.status, s.idMap, s.remoteMap, s.numRecvs, s.ec, s.rstat, t.recvQ, t.idMap);
    MetaGrow(s.spc, s.sops, s.forks, s.idMap, t.forks, t.idMap);
    PendSame(s.q, s.order, s.recvQ, t.recvQ, s.sops, s.rops, s.h.snaps, s.h.orphans, s.nextOp);
    hide IdsOf, OpsOf, ListOf, SendPcOf, SendQOf, RecvQOf, RecvPcOf, TxOf, BodiesOf, WireOf, MetaOf,
         LedgerOf, RxOf, RxMapOf, GivenOf, OnceOf, CountsOf, FlushOf;
  }

  lemma ForkTx(s: Sched, sid: Sid)
    requires CanFork(s, sid)
    requires IdsOf(s.forks, s.idMap, s.remoteMap, s.nextLocal) && TxOf(s.h.tx, s.forks)
    ensures TxOf(s.h.tx, DoFork(s, sid).forks)
  {
    TxForks(s.h.tx, s.forks, DoFork(s, sid).forks);
  }

  lemma ForkQueues(s: Sched, sid: Sid)
    requires CanFork(s, sid)
    requires IdsOf(s.forks, s.idMap, s.remoteMap, s.nextLocal) && |s.recvQ| == |s.forks|
    requires OpsOf(s.sops, s.rops, s.forks, s.idMap, s.nextOp)
    requires SendQOf(s.sendQ, s.order, s.sops, s.forks)
    requires RecvQOf(s.recvQ, s.rops, s.status, s.idMap, s.numRecvs)
    ensures var t := DoFork(s, sid);
            && SendQOf(t.sendQ, t.order, t.sops, t.forks)
            && RecvQOf(t.recvQ, t.rops, t.status, t.idMap, t.numRecvs)
            && |t.recvQ| == |t.forks| && Flatten(t.recvQ) == Flatten(s.recvQ) && s.recvQ <= t.recvQ
  {
    if sid in s.idMap {
    } else {
      SendQForks(s.sendQ, s.order, s.sops, s.rops, s.forks, s.idMap, s.nextOp, sid,
                 Fork(sid, s.nextLocal, NO_SLOT, false));
      RecvQNew(s.recvQ, s.rops, s.status, s.idMap, s.numRecvs, sid);
      hide SendQOf, RecvQOf, Flatten;
    }
  }

  lemma StopTasks(s: Sched, caller: Caller, e: Code)
    requires e != Success
    requires SendPcOf(s.spc, s.order, s.status, s.ec, s.dangling, s.sstat)
    requires RecvPcOf(s.rpc, s.recvQ, s.rops, s.status, s.idMap, s.remoteMap, s.numRecvs, s.ec, s.rstat)
    ensures var t := Stop(s, caller, e);
            && SendPcOf(t.spc, t.order, t.status, t.ec, t.dangling, t.sstat)
            && RecvPcOf(t.rpc, t.recvQ, t.rops, t.status, t.idMap, t.remoteMap, t.numRecvs, t.ec, t.rstat)
  {
    hide MatchedOf, FrontIs;
  }

  lemma StopStreams(s: Sched, caller: Caller, e: Code)
    requires e != Success
    requires RxOf(s.h.rx, s.h.read, s.part, s.rpc)
    requires CountsOf(s.bytesSent, s.h.sent, s.spc, s.sops, s.bytesReceived, s.h.read, s.rpc, s.part)
    requires WireOf(s.h.sent, s.h.tx, s.spc, s.sops, s.h.headBegun)
    requires MetaOf(s.spc, s.sops, s.forks, s.idMap)
    ensures var t := Stop(s, caller, e);
            && RxOf(t.h.rx, t.h.read, t.part, t.rpc)
            && CountsOf(t.bytesSent, t.h.sent, t.spc, t.sops, t.bytesReceived, t.h.read, t.rpc, t.part)
            && WireOf(t.h.sent, t.h.tx, t.spc, t.sops, t.h.headBegun)
            && MetaOf(t.spc, t.sops, t.forks, t.idMap)
  {
    hide Encode, Header, EncFrame, ValidFrames, Announced;
  }

  lemma StopLedger(s: Sched, caller: Caller, e: Code)
    requires e != Success
    requires SendPcOf(s.spc, s.order, s.status, s.ec, s.dangling, s.sstat)
    requires LedgerOf(s.h.accepted, s.h.withdrawn, s.h.begun, s.order, s.h.headBegun, s.spc.SDone?, s.nextOp)
    ensures var t := Stop(s, caller, e);
            && LedgerOf(t.h.accepted, t.h.withdrawn, t.h.begun, t.order, t.h.headBegun, t.spc.SDone?, t.nextOp)
  {
  }

  lemma CloseKeeps(s: Sched)
    requires Inv(s)
    ensures Inv(DoClose(s))
  {
    StopTasks(s, Extern, Closed);
    StopStreams(s, Extern, Closed);
    StopLedger(s, Extern, Closed);
    hide IdsOf, OpsOf, ListOf, SendPcOf, SendQOf, RecvQOf, RecvPcOf, TxOf, BodiesOf, WireOf, MetaOf,
         LedgerOf, RxOf, RxMapOf, GivenOf, OnceOf, CountsOf, FlushOf;
  }

  // ---- calls of send and recv -------------------------------------------

  lemma LogOnly(s: Sched, op: OpId, r: Result)
    requires GivenOf(s.h.rx, s.q.log) && r.Refused?
    ensures GivenOf(s.h.rx, s.q.log + [OpDone(op, r)])
  {
    LogSnoc(s.q.log, OpDone(op, r));
    hide Bodies, Given;
  }

  lemma FlushRefuse(q: Queued, order: seq<OpId>, recvQ: seq<seq<OpId>>, sops: map<OpId, SendOp>,
                    rops: map<OpId, RecvOp>, snaps: seq<set<OpId>>, orphans: seq<set<OpId>>, op: OpId, r: Result)
    requires FlushOf(q, order, recvQ, sops, rops, snaps, orphans)
    ensures FlushOf(q.(log := q.log + [OpDone(op, r)]), order, recvQ, sops, rops, snaps, orphans)
  {
    TokensRefuse(q, PendSet(order, recvQ), snaps, op, r);
    AfterRefuse(q, PendSet(order, recvQ), sops, rops, snaps, orphans, op, r);
    hide TokensOf, AfterOf, PendSet;
  }

  lemma LedgerMore(s: Sched)
    requires LedgerOf(s.h.accepted, s.h.withdrawn, s.h.begun, s.order, s.h.headBegun, s.spc.SDone?, s.nextOp)
    ensures LedgerOf(s.h.accepted, s.h.withdrawn, s.h.begun, s.order, s.h.headBegun, s.spc.SDone?, s.nextOp + 1)
  {
  }

  lemma RefuseKeeps(s: Sched, r: Result)
    requires Inv(s) && r.Refused?
    ensures Inv(s.(nextOp := s.nextOp + 1, q := s.q.(log := s.q.log + [OpDone(s.nextOp, r)])))
  {
    hide IdsOf, OpsOf, ListOf, SendPcOf, SendQOf, RecvQOf, RecvPcOf, TxOf, BodiesOf, WireOf, MetaOf,
         LedgerOf, RxOf, RxMapOf, GivenOf, OnceOf, CountsOf, FlushOf;
    LogOnly(s, s.nextOp, r);
    FlushRefuse(s.q, s.order, s.recvQ, s.sops, s.rops, s.h.snaps, s.h.orphans, s.nextOp, r);
    OnceRefuse(s.order, s.recvQ, s.q.log, s.nextOp, r);
    OpsMore(s.sops, s.rops, s.forks, s.idMap, s.nextOp);
    LedgerMore(s);
  }

  /** A new pending operation: tokens and flush order are untouched. */
  lemma FlushNew(q: Queued, order: seq<OpId>, recvQ: seq<seq<OpId>>, sops: map<OpId, SendOp>,
                 rops: map<OpId, RecvOp>, snaps: seq<set<OpId>>, orphans: seq<set<OpId>>, op: OpId,
                 order': seq<OpId>, recvQ': seq<seq<OpId>>, sops': map<OpId, SendOp>, rops': map<OpId, RecvOp>)
    requires FlushOf(q, order, recvQ, sops, rops, snaps, orphans)
    requires OnceOf(order, recvQ, q.log, op)
    requires Pends(order', recvQ') == Pends(order, recvQ) + multiset{op}
    requires forall x :: x != op ==> (x in sops <==> x in sops') && (x in rops <==> x in rops')
    requires forall x :: x != op && x in sops ==> sops'[x] == sops[x]
    requires forall x :: x != op && x in rops ==> rops'[x] == rops[x]
    ensures FlushOf(q, order', recvQ', sops', rops', snaps, orphans)
  {
    PendingFresh(order, recvQ, q.log, op);
    PendSetGrow(order, recvQ, order', recvQ', op);
    TokensNew(q, PendSet(order, recvQ), snaps, op);
    AfterNew(q, PendSet(order, recvQ), sops, rops, snaps, orphans, op, sops', rops');
    hide TokensOf, AfterOf, PendSet;
  }

  lemma PendSetGrow(order: seq<OpId>, recvQ: seq<seq<OpId>>, order': seq<OpId>, recvQ': seq<seq<OpId>>, op: OpId)
    requires Pends(order', recvQ') == Pends(order, recvQ) + multiset{op}
    ensures PendSet(order', recvQ') == PendSet(order, recvQ) + {op}
  {
    PendsMember(order, recvQ);
    PendsMember(order', recvQ');
    hide PendSet, Pends;
    forall x
      ensures x in PendSet(order', recvQ') <==> x in PendSet(order, recvQ) || x == op
    {
      assert Pends(order', recvQ')[x] == Pends(order, recvQ)[x] + multiset{op}[x];
    }
  }

  lemma OpsSend(sops: map<OpId, SendOp>, rops: map<OpId, RecvOp>, forks: seq<Fork>, idMap: map<Sid, nat>,
                op: OpId, r: SendOp)
    requires OpsOf(sops, rops, forks, idMap, op)
    requires LocalIn(forks, idMap, r.sid) && 0 < |r.body| < U32 - 1
    ensures OpsOf(sops[op := r], rops, forks, idMap, op + 1)
    ensures op !in sops && op !in rops
  {
  }

  lemma OpsRecv(sops: map<OpId, SendOp>, rops: map<OpId, RecvOp>, forks: seq<Fork>, idMap: map<Sid, nat>,
                op: OpId, r: RecvOp)
    requires OpsOf(sops, rops, forks, idMap, op)
    requires LocalIn(forks, idMap, r.sid)
    ensures OpsOf(sops, rops[op := r], forks, idMap, op + 1)
    ensures op !in sops && op !in rops
    ensures forall x :: x in rops ==> x < op
  {
  }

  /** The queued recvs do not depend on the status of a send. */
  lemma RecvQStatus(recvQ: seq<seq<OpId>>, rops: map<OpId, RecvOp>, status: map<OpId, Status>,
                    idMap: map<Sid, nat>, numRecvs: nat, op: OpId, st: Status)
    requires RecvQOf(recvQ, rops, status, idMap, numRecvs)
    ensures RecvQOf(recvQ, rops, status[op := st], idMap, numRecvs)
  {
    forall i | 0 <= i < |recvQ|
      ensures QueueAt(recvQ[i], i, rops, status[op := st], idMap)
    {
      assert QueueAt(recvQ[i], i, rops, status, idMap);
    }
  }

  lemma RecvPcStatus(rpc: RecvPc, recvQ: seq<seq<OpId>>, rops: map<OpId, RecvOp>,
                     status: map<OpId, Status>, idMap: map<Sid, nat>, remoteMap: map<nat, nat>,
                     numRecvs: nat, ec: Code, rstat: TaskStatus, op: OpId, st: Status)
    requires RecvPcOf(rpc, recvQ, rops, status, idMap, remoteMap, numRecvs, ec, rstat)
    requires op !in rops || st != NotStarted
    ensures RecvPcOf(rpc, recvQ, rops, status[op := st], idMap, remoteMap, numRecvs, ec, rstat)
  {
  }

  lemma SendPcPush(s: Sched, sid: Sid, body: Bytes)
    requires CanSend(s, sid, body) && body != [] && s.ec == Success
    requires SendPcOf(s.spc, s.order, s.status, s.ec, s.dangling, s.sstat)
    requires s.nextOp !in s.order
    ensures var t := DoSend(s, sid, body);
            SendPcOf(t.spc, t.order, t.status, t.ec, t.dangling, t.sstat)
  {
  }

  lemma WirePush(s: Sched, sid: Sid, body: Bytes)
    requires CanSend(s, sid, body) && body != [] && s.ec == Success && s.nextOp !in s.sops
    requires CountsOf(s.bytesSent, s.h.sent, s.spc, s.sops, s.bytesReceived, s.h.read, s.rpc, s.part)
    requires WireOf(s.h.sent, s.h.tx, s.spc, s.sops, s.h.headBegun)
    requires MetaOf(s.spc, s.sops, s.forks, s.idMap)
    ensures var t := DoSend(s, sid, body);
            && CountsOf(t.bytesSent, t.h.sent, t.spc, t.sops, t.bytesReceived, t.h.read, t.rpc, t.part)
            && WireOf(t.h.sent, t.h.tx, t.spc, t.sops, t.h.headBegun)
            && MetaOf(t.spc, t.sops, t.forks, t.idMap)
  {
    hide Encode;
    if s.spc.SHead? || s.spc.SBody? {
      assert s.spc.op != s.nextOp;
    }
  }

  lemma LedgerSend(s: Sched, sid: Sid, body: Bytes)
    requires CanSend(s, sid, body) && body != [] && s.ec == Success
    requires SendPcOf(s.spc, s.order, s.status, s.ec, s.dangling, s.sstat)
    requires WireOf(s.h.sent, s.h.tx, s.spc, s.sops, s.h.headBegun)
    requires LedgerOf(s.h.accepted, s.h.withdrawn, s.h.begun, s.order, s.h.headBegun, s.spc.SDone?, s.nextOp)
    ensures var t := DoSend(s, sid, body);
            LedgerOf(t.h.accepted, t.h.withdrawn, t.h.begun, t.order, t.h.headBegun, t.spc.SDone?, t.nextOp)
  {
    hide Encode;
    LedgerPush(s.h.accepted, s.h.withdrawn, s.h.begun, s.order, s.h.headBegun, s.nextOp);
  }

  lemma SendQueues(s: Sched, sid: Sid, body: Bytes, st: Status)
    requires LocalIn(s.forks, s.idMap, sid) && 0 < |body| < U32 - 1
    requires s.order != [] ==> st == NotStarted
    requires IdsOf(s.forks, s.idMap, s.remoteMap, s.nextLocal)
    requires OpsOf(s.sops, s.rops, s.forks, s.idMap, s.nextOp)
    requires ListOf(s.order, s.sops, s.status)
    requires SendQOf(s.sendQ, s.order, s.sops, s.forks)
    ensures var op, r, i := s.nextOp, SendOp(sid, body), s.idMap[sid];
            && ListOf(s.order + [op], s.sops[op := r], s.status[op := st])
            && |s.sendQ| == |s.forks|
            && SendQOf(s.sendQ[i := s.sendQ[i] + [op]], s.order + [op], s.sops[op := r], s.forks)
            && OpsOf(s.sops[op := r], s.rops, s.forks, s.idMap, op + 1)
            && op !in s.order && op !in s.sops && op !in s.rops
  {
    var op, r := s.nextOp, SendOp(sid, body);
    SendOrder(s.order, s.sops, s.rops, s.status, s.forks, s.idMap, op);
    OpsSend(s.sops, s.rops, s.forks, s.idMap, op, r);
    ListPush(s.order, s.sops, s.status, op, r, st);
    SendQPush(s.sendQ, s.order, s.sops, s.forks, s.idMap, s.remoteMap, s.nextLocal, op, r);
    hide ListOf, OpsOf, IdsOf, On;
  }

  lemma SendOrder(order: seq<OpId>, sops: map<OpId, SendOp>, rops: map<OpId, RecvOp>,
                  status: map<OpId, Status>, forks: seq<Fork>, idMap: map<Sid, nat>, op: OpId)
    requires ListOf(order, sops, status) && OpsOf(sops, rops, forks, idMap, op)
    ensures forall x :: x in order ==> x < op
  {
  }

  lemma SendKeeps(s: Sched, sid: Sid, body: Bytes)
    requires Inv(s) && CanSend(s, sid, body)
    ensures Inv(DoSend(s, sid, body))
  {
    hide Inv;
    if body == [] {
      RefuseKeeps(s, Refused(SendLengthZeroMsg));
    } else if s.ec != Success {
      RefuseKeeps(s, Refused(s.ec));
    } else {
      SendPushKeeps(s, sid, body);
    }
  }

  lemma SendPushKeeps(s: Sched, sid: Sid, body: Bytes)
    requires Inv(s) && CanSend(s, sid, body) && body != [] && s.ec == Success
    ensures Inv(DoSend(s, sid, body))
  {
    hide IdsOf, OpsOf, ListOf, SendQOf, RecvQOf, RecvPcOf, TxOf, BodiesOf, WireOf, MetaOf,
         LedgerOf, RxOf, RxMapOf, GivenOf, OnceOf, CountsOf, FlushOf;
    var op, r := s.nextOp, SendOp(sid, body);
    var st := if s.spc.SIdle? then InProgress else NotStarted;
    SendQueues(s, sid, body, st);
    SendPcPush(s, sid, body);
    hide SendPcOf;
    WirePush(s, sid, body);
    LedgerSend(s, sid, body);
    BodiesFresh(s.h.tx, s.h.begun, s.sops, op, r);
    RecvQStatus(s.recvQ, s.rops, s.status, s.idMap, s.numRecvs, op, st);
    RecvPcStatus(s.rpc, s.recvQ, s.rops, s.status, s.idMap, s.remoteMap, s.numRecvs, s.ec, s.rstat,
                 op, st);
    OncePushSend(s.order, s.recvQ, s.q.log, op);
    hide Pends;
    FlushNew(s.q, s.order, s.recvQ, s.sops, s.rops, s.h.snaps, s.h.orphans, op,
             s.order + [op], s.recvQ, s.sops[op := r], s.rops);
  }
}
