/** Every user call keeps the invariant: recv, the stop callbacks, and flush. */
module CallbackSteps {
  import opened Common
  import opened Framing
  import opened Streams
  import opened Scheduler
  import opened Lists
  import opened Invariants
  import opened QueueProofs
  import opened StreamProofs
  import opened FlushProofs
  import opened UserSteps

  // ---- recv -------------------------------------------------------------

  lemma RecvKeeps(s: Sched, sid: Sid, buffer: Buffer)
    requires Inv(s) && IsLocal(s, sid)
    ensures Inv(DoRecv(s, sid, buffer))
  {
    hide Inv;
    if s.ec != Success {
      RefuseKeeps(s, Refused(s.ec));
    } else {
      RecvPushKeeps(s, sid, buffer);
    }
  }

  /** The list holds only sends. */
  lemma ListStatus(order: seq<OpId>, sops: map<OpId, SendOp>, rops: map<OpId, RecvOp>,
                   forks: seq<Fork>, idMap: map<Sid, nat>, nextOp: nat, status: map<OpId, Status>,
                   op: OpId, st: Status)
    requires ListOf(order, sops, status)
    requires op !in sops
    ensures ListOf(order, sops, status[op := st])
  {
  }

  lemma SendPcStatus(spc: SendPc, order: seq<OpId>, status: map<OpId, Status>,
                     ec: Code, dangling: bool, sstat: TaskStatus, op: OpId, st: Status)
    requires SendPcOf(spc, order, status, ec, dangling, sstat)
    requires op !in order || st != NotStarted
    ensures SendPcOf(spc, order, status[op := st], ec, dangling, sstat)
  {
  }

  lemma ListNotIn(order: seq<OpId>, sops: map<OpId, SendOp>, status: map<OpId, Status>, op: OpId)
    requires ListOf(order, sops, status) && op !in sops
    ensures op !in order
  {
  }

  lemma FrontPush(x: OpId, recvQ: seq<seq<OpId>>, rops: map<OpId, RecvOp>, status: map<OpId, Status>,
                  idMap: map<Sid, nat>, i: nat, op: OpId, r: RecvOp, st: Status)
    requires FrontIs(x, recvQ, rops, status, idMap)
    requires i < |recvQ| && op !in rops
    ensures FrontIs(x, recvQ[i := recvQ[i] + [op]], rops[op := r], status[op := st], idMap)
  {
  }

  /** A running receive task, and one waiting for another fork, ignore a new recv. */
  lemma RecvPcIgnores(s: Sched, i: nat, op: OpId, r: RecvOp)
    requires RecvPcOf(s.rpc, s.recvQ, s.rops, s.status, s.idMap, s.remoteMap, s.numRecvs, s.ec, s.rstat)
    requires s.ec == Success && !s.rpc.RIdle?
    requires s.rpc.RWait? ==> s.remoteMap[s.rpc.slot] != i
    requires i < |s.recvQ| && op !in s.rops
    ensures RecvPcOf(s.rpc, s.recvQ[i := s.recvQ[i] + [op]], s.rops[op := r], s.status[op := NotStarted],
                     s.idMap, s.remoteMap, s.numRecvs + 1, s.ec, s.rstat)
  {
    if s.rpc.RMatched? || s.rpc.RBody? || s.rpc.RGood? {
      FrontPush(s.rpc.op, s.recvQ, s.rops, s.status, s.idMap, i, op, r, NotStarted);
      hide FrontIs;
    } else if s.rpc.RBad? && s.rpc.prev.Some? {
      FrontPush(s.rpc.prev.value, s.recvQ, s.rops, s.status, s.idMap, i, op, r, NotStarted);
      hide FrontIs;
    }
  }

  lemma WaitFork(s: Sched, i: nat)
    requires IdsOf(s.forks, s.idMap, s.remoteMap, s.nextLocal) && i < |s.forks|
    requires s.rpc.RWait? && s.rpc.slot in s.remoteMap
    ensures s.forks[i].remoteId == s.rpc.slot <==> s.remoteMap[s.rpc.slot] == i
  {
  }

  /** A task parked for this very fork is resumed with the new recv. */
  lemma RecvPcMatch(s: Sched, i: nat, op: OpId, r: RecvOp)
    requires IdsOf(s.forks, s.idMap, s.remoteMap, s.nextLocal) && |s.recvQ| == |s.forks|
    requires RecvPcOf(s.rpc, s.recvQ, s.rops, s.status, s.idMap, s.remoteMap, s.numRecvs, s.ec, s.rstat)
    requires s.rpc.RWait? && r.sid in s.idMap && s.idMap[r.sid] == i < |s.forks|
    requires s.forks[i].remoteId == s.rpc.slot
    ensures RecvPcOf(RMatched(op, s.rpc.size, s.rpc.slot), s.recvQ[i := s.recvQ[i] + [op]], s.rops[op := r],
                     s.status[op := InProgress], s.idMap, s.remoteMap, s.numRecvs + 1, s.ec, InUse)
  {
    WaitFork(s, i);
    hide IdsOf;
  }

  /** The bytes of the frame being received stay as they are. */
  lemma RecvStreams(s: Sched, rpc: RecvPc)
    requires s.ec == Success
    requires rpc == s.rpc || (s.rpc.RIdle? && rpc.RHead?)
             || (s.rpc.RWait? && rpc.RMatched? && rpc.size == s.rpc.size && rpc.slot == s.rpc.slot)
    requires RxOf(s.h.rx, s.h.read, s.part, s.rpc)
    requires CountsOf(s.bytesSent, s.h.sent, s.spc, s.sops, s.bytesReceived, s.h.read, s.rpc, s.part)
    ensures RxOf(s.h.rx, s.h.read, s.part, rpc)
    ensures CountsOf(s.bytesSent, s.h.sent, s.spc, s.sops, s.bytesReceived, s.h.read, rpc, s.part)
  {
    hide Encode, Header, ValidFrames, Announced;
  }

  /** The tables and queues after a recv has been queued with status `st`. */
  lemma RecvTables(s: Sched, r: RecvOp, st: Status)
    requires Inv(s) && LocalIn(s.forks, s.idMap, r.sid)
    ensures var op, i := s.nextOp, s.idMap[r.sid];
            && i < |s.recvQ|
            && op !in s.rops
            && OpsOf(s.sops, s.rops[op := r], s.forks, s.idMap, op + 1)
            && ListOf(s.order, s.sops, s.status[op := st])
            && SendPcOf(s.spc, s.order, s.status[op := st], s.ec, s.dangling, s.sstat)
            && RecvQOf(s.recvQ[i := s.recvQ[i] + [op]], s.rops[op := r], s.status[op := st], s.idMap, s.numRecvs + 1)
            && LedgerOf(s.h.accepted, s.h.withdrawn, s.h.begun, s.order, s.h.headBegun, s.spc.SDone?, op + 1)
            && OnceOf(s.order, s.recvQ[i := s.recvQ[i] + [op]], s.q.log, op + 1)
            && FlushOf(s.q, s.order, s.recvQ[i := s.recvQ[i] + [op]], s.sops, s.rops[op := r],
                       s.h.snaps, s.h.orphans)
  {
    hide IdsOf, OpsOf, ListOf, SendPcOf, SendQOf, RecvQOf, RecvPcOf, TxOf, BodiesOf, WireOf, MetaOf,
         LedgerOf, RxOf, RxMapOf, GivenOf, OnceOf, CountsOf, FlushOf, Flatten, On;
    var op := s.nextOp;
    OpsRecv(s.sops, s.rops, s.forks, s.idMap, op, r);
    ListStatus(s.order, s.sops, s.rops, s.forks, s.idMap, op, s.status, op, st);
    ListNotIn(s.order, s.sops, s.status, op);
    SendPcStatus(s.spc, s.order, s.status, s.ec, s.dangling, s.sstat, op, st);
    RecvQPush(s.recvQ, s.rops, s.status, s.idMap, s.numRecvs, op, r, st);
    LedgerMore(s);
    RecvFlush(s, s.idMap[r.sid], r);
  }

  lemma RecvPushKeeps(s: Sched, sid: Sid, buffer: Buffer)
    requires Inv(s) && IsLocal(s, sid) && s.ec == Success
    ensures Inv(DoRecv(s, sid, buffer))
  {
    hide IdsOf, OpsOf, ListOf, SendPcOf, SendQOf, RecvQOf, TxOf, BodiesOf, WireOf, MetaOf,
         LedgerOf, RxOf, RxMapOf, GivenOf, OnceOf, CountsOf, FlushOf, Flatten, On,
         FrontIs, MatchedOf;
    var op, i, r := s.nextOp, s.idMap[sid], RecvOp(sid, buffer);
    if s.rpc.RIdle? {
      RecvTables(s, r, InProgress);
      RecvStreams(s, RHead);
    } else if s.rpc.RWait? && s.forks[i].remoteId == s.rpc.slot {
      RecvTables(s, r, InProgress);
      RecvPcMatch(s, i, op, r);
      hide RecvPcOf;
      RecvStreams(s, RMatched(op, s.rpc.size, s.rpc.slot));
    } else {
      if s.rpc.RWait? {
        WaitFork(s, i);
      }
      RecvTables(s, r, NotStarted);
      RecvPcIgnores(s, i, op, r);
      hide RecvPcOf;
      RecvStreams(s, s.rpc);
    }
  }

  lemma RecvFlush(s: Sched, i: nat, r: RecvOp)
    requires i < |s.recvQ|
    requires OnceOf(s.order, s.recvQ, s.q.log, s.nextOp)
    requires FlushOf(s.q, s.order, s.recvQ, s.sops, s.rops, s.h.snaps, s.h.orphans)
    ensures var op := s.nextOp;
            && OnceOf(s.order, s.recvQ[i := s.recvQ[i] + [op]], s.q.log, op + 1)
            && FlushOf(s.q, s.order, s.recvQ[i := s.recvQ[i] + [op]], s.sops, s.rops[op := r],
                       s.h.snaps, s.h.orphans)
  {
    var op := s.nextOp;
    hide OnceOf, FlushOf, Pends, Flatten;
    OncePushRecv(s.order, s.recvQ, s.q.log, op, i);
    PendsPushRecv(s.order, s.recvQ, i, op);
    FlushNew(s.q, s.order, s.recvQ, s.sops, s.rops, s.h.snaps, s.h.orphans, op,
             s.order, s.recvQ[i := s.recvQ[i] + [op]], s.sops, s.rops[op := r]);
  }

  // ---- stop callback of a send ------------------------------------------

  /** Completing `op` with a result that delivers nothing. */
  lemma FinishQuiet(s: Sched, op: OpId, r: Result)
    requires GivenOf(s.h.rx, s.q.log) && r.Withdrawn?
    ensures GivenOf(s.h.rx, Finish(s.q, op, r).log)
  {
    FinishLog(s.q, op, r);
    hide Bodies, Given, Finish, FlushBag, DoneBag;
  }

  /** What a stop callback leaves behind is what completing the operation asks for. */
  lemma OrphansLeft(s: Sched, op: OpId)
    requires TokensOf(s.q, PendSet(s.order, s.recvQ), s.h.snaps)
    requires AfterOf(s.q, PendSet(s.order, s.recvQ), s.sops, s.rops, s.h.snaps, s.h.orphans)
    ensures LeftMore(s.h.orphans, Orphaned(s, op), s.h.snaps)
    ensures MayComplete(s.q, PendSet(s.order, s.recvQ), s.sops, s.rops, s.h.snaps, op, Orphaned(s, op))
  {
    hide FlushBag, FlushLate, Held, SameQueue, IsDone, Flatten;
  }

  /** A single cancel: tokens lose a holder. */
  lemma FlushWithdraw(s: Sched, op: OpId, order': seq<OpId>, recvQ': seq<seq<OpId>>)
    requires FlushOf(s.q, s.order, s.recvQ, s.sops, s.rops, s.h.snaps, s.h.orphans)
    requires OnceOf(s.order, s.recvQ, s.q.log, s.nextOp)
    requires Pends(s.order, s.recvQ) == Pends(order', recvQ') + multiset{op}
    ensures FlushOf(Finish(s.q, op, Withdrawn), order', recvQ', s.sops, s.rops, s.h.snaps, Orphaned(s, op))
    ensures OnceOf(order', recvQ', Finish(s.q, op, Withdrawn).log, s.nextOp)
  {
    hide Finish, TokensOf, AfterOf, PendSet, OnceOf, Pends, Orphaned, LeftMore, MayComplete;
    var pend := PendSet(s.order, s.recvQ);
    FinishLog(s.q, op, Withdrawn);
    OnceMove(s.order, s.recvQ, s.q.log, s.nextOp, order', recvQ', Finish(s.q, op, Withdrawn).log, multiset{op});
    assert multiset([op]) == multiset{op};
    PendSetMove(s.order, s.recvQ, order', recvQ', s.q.log, s.nextOp, [op]);
    TokensFinish(s.q, pend, s.h.snaps, op, Withdrawn);
    OrphansLeft(s, op);
    AfterFinish(s.q, pend, s.sops, s.rops, s.h.snaps, s.h.orphans, op, Withdrawn, Orphaned(s, op));
    assert PendSet(order', recvQ') == pend - {op};
  }

  lemma CancelSendKeeps(s: Sched, op: OpId)
    requires Inv(s) && CanCancelSend(s, op)
    ensures Inv(DoCancelSend(s, op))
  {
    hide Inv;
    if s.status[op].NotStarted? {
      WithdrawSendKeeps(s, op);
    } else {
      CancelingSendKeeps(s, op);
    }
  }

  lemma ListCanceling(order: seq<OpId>, sops: map<OpId, SendOp>, status: map<OpId, Status>, op: OpId)
    requires ListOf(order, sops, status)
    requires op in order && op in status && status[op] != NotStarted
    ensures ListOf(order, sops, status[op := Canceling])
  {
  }

  lemma CancelingSendKeeps(s: Sched, op: OpId)
    requires Inv(s) && CanCancelSend(s, op) && s.status[op] != NotStarted
    ensures Inv(s.(status := s.status[op := Canceling]))
  {
    hide IdsOf, OpsOf, ListOf, SendPcOf, SendQOf, RecvQOf, RecvPcOf, TxOf, BodiesOf, WireOf, MetaOf,
         LedgerOf, RxOf, RxMapOf, GivenOf, OnceOf, CountsOf, FlushOf;
    ListCanceling(s.order, s.sops, s.status, op);
    SendPcStatus(s.spc, s.order, s.status, s.ec, s.dangling, s.sstat, op, Canceling);
    RecvQStatus(s.recvQ, s.rops, s.status, s.idMap, s.numRecvs, op, Canceling);
    RecvPcStatus(s.rpc, s.recvQ, s.rops, s.status, s.idMap, s.remoteMap, s.numRecvs, s.ec, s.rstat,
                 op, Canceling);
  }

  /** A send that has not started is behind the head of the list. */
  lemma BehindHead(s: Sched, op: OpId)
    requires ListOf(s.order, s.sops, s.status)
    requires SendPcOf(s.spc, s.order, s.status, s.ec, s.dangling, s.sstat)
    requires op in s.order && op in s.status && s.status[op] == NotStarted
    ensures s.order != [] && s.order[0] != op && op in s.order[1..]
    ensures !s.spc.SIdle? && !s.spc.SDone? && s.spc.op == s.order[0]
    ensures Ascending(s.order)
  {
    assert s.order == [s.order[0]] + s.order[1..];
  }

  lemma WithdrawSendPc(spc: SendPc, order: seq<OpId>, status: map<OpId, Status>,
                       ec: Code, dangling: bool, sstat: TaskStatus, op: OpId, dangling': bool)
    requires SendPcOf(spc, order, status, ec, dangling, sstat)
    requires order != [] && order[0] != op
    ensures SendPcOf(spc, Without(order, {op}), status, ec, dangling', sstat)
  {
    WithoutHead(order, op);
    hide Without;
  }

  lemma OpBound(s: Sched, op: OpId)
    requires OpsOf(s.sops, s.rops, s.forks, s.idMap, s.nextOp) && op in s.sops
    ensures op < s.nextOp && s.sops[op].sid in s.idMap
  {
  }

  lemma WithdrawSendKeeps(s: Sched, op: OpId)
    requires Inv(s) && CanCancelSend(s, op) && s.status[op] == NotStarted
    ensures Inv(DoCancelSend(s, op))
  {
    hide IdsOf, OpsOf, ListOf, SendPcOf, SendQOf, RecvQOf, RecvPcOf, TxOf, BodiesOf, WireOf, MetaOf,
         LedgerOf, RxOf, RxMapOf, GivenOf, OnceOf, CountsOf, FlushOf, Without, Ascending;
    BehindHead(s, op);
    OpBound(s, op);
    ListErase(s.order, s.sops, s.status, op);
    SendQErase(s.sendQ, s.order, s.sops, s.forks, s.idMap, s.remoteMap, s.nextLocal, op);
    WithdrawSendPc(s.spc, s.order, s.status, s.ec, s.dangling, s.sstat, op,
                   s.dangling || s.order[|s.order| - 1] == op);
    LedgerErase(s.h.accepted, s.h.withdrawn, s.h.begun, s.order, s.h.headBegun, s.nextOp, op);
    PendsEraseSend(s.order, s.recvQ, op);
    hide Pends, Finish, Orphaned;
    FlushWithdraw(s, op, Without(s.order, {op}), s.recvQ);
    FinishQuiet(s, op, Withdrawn);
  }

  // ---- stop callback of a recv ------------------------------------------

  lemma CancelRecvKeeps(s: Sched, op: OpId)
    requires Inv(s) && CanCancelRecv(s, op)
    ensures Inv(DoCancelRecv(s, op))
  {
    hide Inv;
    if s.status[op].NotStarted? {
      WithdrawRecvKeeps(s, op);
    } else {
      CancelingRecvKeeps(s, op);
    }
  }

  lemma RecvNotSend(s: Sched, op: OpId)
    requires OpsOf(s.sops, s.rops, s.forks, s.idMap, s.nextOp) && op in s.rops
    ensures op !in s.sops
  {
  }

  lemma CancelingRecvKeeps(s: Sched, op: OpId)
    requires Inv(s) && CanCancelRecv(s, op) && s.status[op] != NotStarted
    ensures Inv(s.(status := s.status[op := Canceling]))
  {
    hide IdsOf, OpsOf, ListOf, SendPcOf, SendQOf, RecvQOf, RecvPcOf, TxOf, BodiesOf, WireOf, MetaOf,
         LedgerOf, RxOf, RxMapOf, GivenOf, OnceOf, CountsOf, FlushOf;
    RecvNotSend(s, op);
    ListStatus(s.order, s.sops, s.rops, s.forks, s.idMap, s.nextOp, s.status, op, Canceling);
    SendPcStatus(s.spc, s.order, s.status, s.ec, s.dangling, s.sstat, op, Canceling);
    RecvQStatus(s.recvQ, s.rops, s.status, s.idMap, s.numRecvs, op, Canceling);
    RecvPcStatus(s.rpc, s.recvQ, s.rops, s.status, s.idMap, s.remoteMap, s.numRecvs, s.ec, s.rstat,
                 op, Canceling);
  }

  /** Erasing a recv that has not started does not disturb the one being filled. */
  lemma WithdrawRecvPc(s: Sched, i: nat, op: OpId)
    requires RecvPcOf(s.rpc, s.recvQ, s.rops, s.status, s.idMap, s.remoteMap, s.numRecvs, s.ec, s.rstat)
    requires op in s.status && s.status[op] == NotStarted && s.numRecvs > 0
    requires i < |s.recvQ| && op in s.recvQ[i]
    ensures RecvPcOf(s.rpc, s.recvQ[i := Without(s.recvQ[i], {op})], s.rops, s.status, s.idMap, s.remoteMap,
                     s.numRecvs - 1, s.ec, s.rstat)
  {
    var q := s.recvQ[i];
    if q[0] != op {
      WithoutHead(q, op);
    }
    hide Without;
  }

  lemma WithdrawRecvKeeps(s: Sched, op: OpId)
    requires Inv(s) && CanCancelRecv(s, op) && s.status[op] == NotStarted
    ensures Inv(DoCancelRecv(s, op))
  {
    hide IdsOf, OpsOf, ListOf, SendPcOf, SendQOf, RecvQOf, RecvPcOf, TxOf, BodiesOf, WireOf, MetaOf,
         LedgerOf, RxOf, RxMapOf, GivenOf, OnceOf, CountsOf, FlushOf, Without, Ascending, Flatten;
    RecvQWhere(s.recvQ, s.rops, s.status, s.idMap, s.numRecvs, op);
    var i := s.idMap[s.rops[op].sid];
    RecvQErase(s.recvQ, s.rops, s.status, s.idMap, s.numRecvs, i, op);
    WithdrawRecvPc(s, i, op);
    RecvQSorted(s.recvQ, s.rops, s.status, s.idMap, s.numRecvs, i);
    PendsEraseRecv(s.order, s.recvQ, i, op);
    FinishQuiet(s, op, Withdrawn);
    hide Pends, Finish, Orphaned;
    FlushWithdraw(s, op, s.order, s.recvQ[i := Without(s.recvQ[i], {op})]);
  }

  lemma RecvQSorted(recvQ: seq<seq<OpId>>, rops: map<OpId, RecvOp>, status: map<OpId, Status>,
                    idMap: map<Sid, nat>, numRecvs: nat, i: nat)
    requires RecvQOf(recvQ, rops, status, idMap, numRecvs) && i < |recvQ|
    ensures Ascending(recvQ[i])
  {
    assert QueueAt(recvQ[i], i, rops, status, idMap);
  }

  // ---- flush ------------------------------------------------------------

  lemma RecvQNone(s: Sched)
    requires RecvQOf(s.recvQ, s.rops, s.status, s.idMap, s.numRecvs)
    ensures s.numRecvs == 0 <==> Flatten(s.recvQ) == []
  {
  }

  /** A flush that does not return at once attaches its token somewhere. */
  lemma FlushAttaches(s: Sched)
    requires Inv(s) && (s.numRecvs != 0 || s.order != [])
    ensures Backs(s.recvQ) + Backs(s.sendQ) != {}
    ensures Backs(s.recvQ) + Backs(s.sendQ) <= PendSet(s.order, s.recvQ)
    ensures forall p :: p in PendSet(s.order, s.recvQ) ==>
                          Held(p, Backs(s.recvQ) + Backs(s.sendQ), s.sops, s.rops)
  {
    hide TxOf, BodiesOf, WireOf, MetaOf, LedgerOf, RxOf, RxMapOf, GivenOf, OnceOf, CountsOf, FlushOf,
         IdsOf, OpsOf, ListOf, SendPcOf, SendQOf, RecvQOf, RecvPcOf, Backs, Flatten, Held;
    BacksHold(s.order, s.recvQ, s.sendQ, s.sops, s.rops, s.status, s.forks, s.idMap, s.remoteMap,
              s.nextLocal, s.nextOp, s.numRecvs);
    RecvQNone(s);
    var p := if s.order != [] then s.order[0] else Flatten(s.recvQ)[0];
    assert p in PendSet(s.order, s.recvQ);
    HeldSome(p, Backs(s.recvQ) + Backs(s.sendQ), s.sops, s.rops);
  }

  lemma HeldSome(p: OpId, holders: set<OpId>, sops: map<OpId, SendOp>, rops: map<OpId, RecvOp>)
    requires Held(p, holders, sops, rops)
    ensures holders != {}
  {
  }

  lemma LogFlush(s: Sched, t: nat)
    requires GivenOf(s.h.rx, s.q.log)
    requires OnceOf(s.order, s.recvQ, s.q.log, s.nextOp)
    ensures var log := s.q.log + [FlushDone(t)];
            && GivenOf(s.h.rx, log)
            && OnceOf(s.order, s.recvQ, log, s.nextOp)
  {
    LogSnoc(s.q.log, FlushDone(t));
    hide Bodies, Given, Pends, DoneBag;
    assert DoneBag(s.q.log + [FlushDone(t)]) == DoneBag(s.q.log);
  }

  lemma FlushKeeps(s: Sched)
    requires Inv(s) && CanFlush(s)
    ensures Inv(DoFlush(s))
  {
    if s.numRecvs == 0 && s.order == [] {
      NonePending(s);
      FlushIdleKeeps(s);
    } else {
      FlushHeldKeeps(s);
    }
    hide Inv, DoFlush;
  }

  lemma NonePending(s: Sched)
    requires Inv(s) && s.numRecvs == 0 && s.order == []
    ensures PendSet(s.order, s.recvQ) == {}
  {
    hide IdsOf, OpsOf, ListOf, SendPcOf, SendQOf, RecvPcOf, TxOf, BodiesOf, WireOf, MetaOf,
         LedgerOf, RxOf, RxMapOf, GivenOf, OnceOf, CountsOf, TokensOf, AfterOf, Backs;
    RecvQNone(s);
  }

  lemma FlushHeldKeeps(s: Sched)
    requires Inv(s) && CanFlush(s) && (s.numRecvs != 0 || s.order != [])
    ensures Inv(DoFlush(s))
  {
    hide IdsOf, OpsOf, ListOf, SendPcOf, SendQOf, RecvQOf, RecvPcOf, TxOf, BodiesOf, WireOf, MetaOf,
         LedgerOf, RxOf, RxMapOf, GivenOf, OnceOf, CountsOf, TokensOf, AfterOf, Backs;
    FlushAttaches(s);
    FlushAttach(s.q, PendSet(s.order, s.recvQ), s.sops, s.rops, s.h.snaps, s.h.orphans,
                Backs(s.recvQ) + Backs(s.sendQ));
    assert Pending(s) == PendSet(s.order, s.recvQ);
  }

  lemma FlushIdleKeeps(s: Sched)
    requires Inv(s) && CanFlush(s) && s.numRecvs == 0 && s.order == []
    requires PendSet(s.order, s.recvQ) == {}
    ensures Inv(DoFlush(s))
  {
    FlushIdle(s.q, PendSet(s.order, s.recvQ), s.sops, s.rops, s.h.snaps, s.h.orphans);
    LogFlush(s, |s.q.tokens|);
    hide IdsOf, OpsOf, ListOf, SendPcOf, SendQOf, RecvQOf, RecvPcOf, TxOf, BodiesOf, WireOf, MetaOf,
         LedgerOf, RxOf, RxMapOf, GivenOf, OnceOf, CountsOf, TokensOf, AfterOf;
    assert Pending(s) == PendSet(s.order, s.recvQ);
  }
}
