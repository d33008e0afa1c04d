/** One endpoint over whole runs: for every sequence of user calls, stop callbacks,
    transport events and task turns. */
module Endpoint {
  import opened Common
  import opened Framing
  import opened Streams
  import opened Scheduler
  import opened Lists
  import opened Invariants
  import opened QueueProofs
  import opened FlushProofs
  import opened UserSteps
  import opened CallbackSteps
  import opened SendSteps
  import opened CompleteSteps
  import opened RecvSteps
  import opened AnySteps
  import opened Follow

  lemma StartTables(root: Sid)
    ensures var s := Start(root);
            && IdsOf(s.forks, s.idMap, s.remoteMap, s.nextLocal)
            && |s.recvQ| == |s.forks|
            && OpsOf(s.sops, s.rops, s.forks, s.idMap, s.nextOp)
            && ListOf(s.order, s.sops, s.status)
            && SendPcOf(s.spc, s.order, s.status, s.ec, s.dangling, s.sstat)
  {
  }

  lemma StartQueues(root: Sid)
    ensures var s := Start(root);
            && Flatten(s.recvQ) == []
            && SendQOf(s.sendQ, s.order, s.sops, s.forks)
            && RecvQOf(s.recvQ, s.rops, s.status, s.idMap, s.numRecvs)
            && RecvPcOf(s.rpc, s.recvQ, s.rops, s.status, s.idMap, s.remoteMap, s.numRecvs, s.ec, s.rstat)
  {
    var s := Start(root);
    assert Flatten(s.recvQ) == [];
    assert QueueAt([], 0, s.rops, s.status, s.idMap);
  }

  lemma StartStreams(root: Sid)
    ensures var s := Start(root);
            && TxOf(s.h.tx, s.forks)
            && BodiesOf(s.h.tx, s.h.begun, s.sops)
            && WireOf(s.h.sent, s.h.tx, s.spc, s.sops, s.h.headBegun)
            && MetaOf(s.spc, s.sops, s.forks, s.idMap)
            && LedgerOf(s.h.accepted, s.h.withdrawn, s.h.begun, s.order, s.h.headBegun, s.spc.SDone?, s.nextOp)
            && RxOf(s.h.rx, s.h.read, s.part, s.rpc)
            && RxMapOf(s.h.rx, s.remoteMap, s.forks)
            && CountsOf(s.bytesSent, s.h.sent, s.spc, s.sops, s.bytesReceived, s.h.read, s.rpc, s.part)
  {
  }

  lemma StartLog(root: Sid)
    requires Flatten(Start(root).recvQ) == []
    ensures var s := Start(root);
            && GivenOf(s.h.rx, s.q.log)
            && OnceOf(s.order, s.recvQ, s.q.log, s.nextOp)
            && FlushOf(s.q, s.order, s.recvQ, s.sops, s.rops, s.h.snaps, s.h.orphans)
  {
  }

  lemma StartInv(root: Sid)
    ensures Inv(Start(root))
  {
    StartTables(root);
    StartQueues(root);
    StartStreams(root);
    StartLog(root);
    hide IdsOf, OpsOf, ListOf, SendPcOf, SendQOf, RecvQOf, RecvPcOf, TxOf, BodiesOf, WireOf, MetaOf,
         LedgerOf, RxOf, RxMapOf, GivenOf, OnceOf, CountsOf, FlushOf, Flatten;
  }

  /** Every step keeps the invariant. */
  lemma StepKeeps(s: Sched, st: Step)
    requires Inv(s) && Enabled(s, st)
    ensures Inv(Apply(s, st))
  {
    hide Inv, DoFork, DoSend, DoRecv, DoCancelSend, DoCancelRecv, DoFlush, DoClose, DoBegin, DoSendBytes,
         DoSendEnd, DoNextSend, DoRecvBytes, DoRecvEnd, DoInit, DoAsk, DoFill, DoAny;
    match st
    case UFork(sid) => ForkKeeps(s, sid);
    case USend(sid, body) => SendKeeps(s, sid, body);
    case URecv(sid, buffer) => RecvKeeps(s, sid, buffer);
    case UCancelSend(op) => CancelSendKeeps(s, op);
    case UCancelRecv(op) => CancelRecvKeeps(s, op);
    case UFlush => FlushKeeps(s);
    case UClose => CloseKeeps(s);
    case TBegin => BeginKeeps(s);
    case TSendBytes(n) => SendBytesKeeps(s, n);
    case TSendEnd(e) => SendEndKeeps(s, e);
    case TNextSend => NextSendKeeps(s);
    case TRecvBytes(chunk) => RecvBytesKeeps(s, chunk);
    case TRecvEnd(e) => RecvEndKeeps(s, e);
    case TInit => InitKeeps(s);
    case TAsk => AskKeeps(s);
    case TFill => FillKeeps(s);
    case TAny => AnyKeeps(s);
  }

  /** `steps` take the scheduler from `a` to `b`. */
  ghost predicate Runs(a: Sched, steps: seq<Step>, b: Sched)
    decreases |steps|
  {
    if steps == [] then a == b
    else Enabled(a, steps[0]) && Runs(Apply(a, steps[0]), steps[1..], b)
  }

  lemma {:induction false} RunKeeps(a: Sched, steps: seq<Step>, b: Sched)
    requires Inv(a) && Runs(a, steps, b)
    ensures Inv(b)
    decreases |steps|
  {
    hide Inv, Apply, Enabled;
    if steps != [] {
      StepKeeps(a, steps[0]);
      RunKeeps(Apply(a, steps[0]), steps[1..], b);
    }
  }

  /** A state some run of a new scheduler reaches. */
  ghost predicate Reachable(root: Sid, s: Sched) {
    exists steps :: Runs(Start(root), steps, s)
  }

  lemma ReachableInv(root: Sid, s: Sched)
    requires Reachable(root, s)
    ensures Inv(s)
  {
    hide Inv, Runs, Start;
    var steps :| Runs(Start(root), steps, s);
    StartInv(root);
    RunKeeps(Start(root), steps, s);
  }

  // ---- the code's assertions ----------------------------------------------

  /** The stop callback of a pending operation runs to its end exactly if the operation has
      started or its queue can erase it by its address. */
  ghost predicate SendFindable(s: Sched, op: OpId) {
    op in s.status
    && (CanCancelSend(s, op) <==> s.status[op] != NotStarted || CanErase(s.sendR, sOf(s, op), op))
  }

  ghost predicate RecvFindable(s: Sched, op: OpId) {
    op in s.status
    && (CanCancelRecv(s, op) <==> s.status[op] != NotStarted || CanErase(s.recvR, rOf(s, op), op))
  }

  /** Wherever a task or a callback is, what the code asserts there holds: the
      operation worked on is the head of the list and the front of its fork, and a stop
      callback fails on a pending operation only in the erase by address. */
  lemma AssertionsHold(root: Sid, s: Sched)
    requires Reachable(root, s)
    ensures s.spc.SGot? ==> CanBegin(s)
    ensures s.spc.SFinish? ==> CanNextSend(s)
    ensures s.rpc.RMatched? ==> s.rpc.op in s.rops
    ensures s.rpc.RGood? || s.rpc.RBad? ==> CanAny(s)
    ensures forall op :: op in s.order ==> SendFindable(s, op)
    ensures forall op :: op in Flatten(s.recvQ) ==> RecvFindable(s, op)
    ensures s.spc.SIdle? ==> s.order == [] && !s.dangling
  {
    ReachableInv(root, s);
    SendAsserts(s);
    RecvAsserts(s);
    hide Inv, CanBegin, CanNextSend, CanAny, SendFindable, RecvFindable;
  }

  lemma SendAsserts(s: Sched)
    requires Inv(s)
    ensures s.spc.SGot? ==> CanBegin(s)
    ensures s.spc.SFinish? ==> CanNextSend(s)
    ensures forall op :: op in s.order ==> SendFindable(s, op)
    ensures s.spc.SIdle? ==> s.order == [] && !s.dangling
  {
    hide RecvQOf, RecvPcOf, TxOf, BodiesOf, WireOf, MetaOf, LedgerOf, RxOf, RxMapOf, GivenOf, OnceOf,
         CountsOf, FlushOf, SendQOf;
    SendQSize(s);
    if s.spc.SFinish? {
      HeadFacts(s, s.spc.op);
      SendQPop(s.sendQ, s.order, s.sops, s.forks, s.idMap, s.remoteMap, s.nextLocal);
    }
  }

  lemma RecvAsserts(s: Sched)
    requires Inv(s)
    ensures s.rpc.RMatched? ==> s.rpc.op in s.rops
    ensures s.rpc.RGood? || s.rpc.RBad? ==> CanAny(s)
    ensures forall op :: op in Flatten(s.recvQ) ==> RecvFindable(s, op)
  {
    hide CanErase, IdsOf, OpsOf, ListOf, SendPcOf, SendQOf, TxOf, BodiesOf, WireOf, MetaOf, LedgerOf, RxOf, RxMapOf,
         GivenOf, OnceOf, CountsOf, FlushOf, RecvQOf, Flatten;
    if s.rpc.RGood? {
      GoodFrame(s);
    }
    if (s.rpc.RGood? || s.rpc.RBad?) && PrevRecv(s.rpc).Some? {
      var op := PrevRecv(s.rpc).value;
      RecvQPop(s.recvQ, s.rops, s.status, s.idMap, s.numRecvs, rOf(s, op));
    }
    forall op | op in Flatten(s.recvQ)
      ensures RecvFindable(s, op)
    {
      RecvQWhere(s.recvQ, s.rops, s.status, s.idMap, s.numRecvs, op);
    }
  }

  // ---- the send list and the receive task ---------------------------------

  /** The global send list restricted to a fork is the fork's queue, only the head
      has started, and the send task is parked exactly when the list is empty. */
  lemma SendListAgrees(root: Sid, s: Sched)
    requires Reachable(root, s)
    ensures |s.sendQ| == |s.forks|
    ensures forall i :: 0 <= i < |s.forks| ==> s.sendQ[i] == On(s.order, s.sops, s.forks[i].sid)
    ensures forall op :: op in s.order && op in s.status && s.status[op] != NotStarted ==> op == s.order[0]
    ensures s.ec == Success ==> (s.spc.SIdle? <==> s.order == []) && (s.spc.SIdle? <==> s.sstat.Idle?)
    ensures s.order != [] ==> s.order[0] in s.status && s.status[s.order[0]] != NotStarted
  {
    hide IdsOf, OpsOf, RecvQOf, RecvPcOf, TxOf, BodiesOf, WireOf, MetaOf, LedgerOf, RxOf, RxMapOf, GivenOf,
         OnceOf, CountsOf, FlushOf, On;
    ReachableInv(root, s);
    forall op | op in s.order && op in s.status && s.status[op] != NotStarted
      ensures op == s.order[0]
    {
      assert s.order == [s.order[0]] + s.order[1..];
    }
  }

  /** The receive task: the count of recvs, the status against the parked awaiters,
      and the operation being filled at the front of its fork. */
  lemma ReceiveTask(root: Sid, s: Sched)
    requires Reachable(root, s)
    ensures s.numRecvs == |Flatten(s.recvQ)|
    ensures s.ec == Success && s.rpc != RCrash ==>
              && (s.rstat.Idle? <==> s.rpc.RIdle?)
              && (s.rstat.RequestedRecvOp? <==> s.rpc.RWait?)
    ensures s.rpc.RIdle? ==> forall i :: 0 <= i < |s.recvQ| ==> s.recvQ[i] == []
    ensures s.rpc.RWait? ==>
              s.rpc.slot in s.remoteMap && s.remoteMap[s.rpc.slot] < |s.recvQ|
              && s.recvQ[s.remoteMap[s.rpc.slot]] == []
    ensures s.rpc.RMatched? || s.rpc.RBody? || s.rpc.RGood? ==>
              && s.rpc.slot in s.remoteMap && s.remoteMap[s.rpc.slot] < |s.recvQ|
              && s.recvQ[s.remoteMap[s.rpc.slot]] != []
              && s.recvQ[s.remoteMap[s.rpc.slot]][0] == s.rpc.op
              && s.rpc.op in s.status && s.status[s.rpc.op] != NotStarted
  {
    hide IdsOf, OpsOf, ListOf, SendPcOf, SendQOf, TxOf, BodiesOf, WireOf, MetaOf, LedgerOf, RxOf, RxMapOf,
         GivenOf, OnceOf, CountsOf, FlushOf, Flatten;
    ReachableInv(root, s);
    if s.numRecvs == 0 {
      FlattenNil(s.recvQ);
    }
  }

  // ---- every handle once --------------------------------------------------

  /** Exactly-once completion: the handle of every call is queued exactly once, or
      the operation is still in its queue and nowhere else; a task that has exited
      left nothing behind. */
  lemma ExactlyOnce(root: Sid, s: Sched)
    requires Reachable(root, s)
    ensures forall op: OpId :: DoneBag(s.q.log)[op] <= 1
    ensures forall op: OpId :: op < s.nextOp ==> (IsDone(op, s.q.log) <==> !IsPending(op, s.order, s.recvQ))
    ensures forall op: OpId :: op >= s.nextOp ==> !IsDone(op, s.q.log) && !IsPending(op, s.order, s.recvQ)
    ensures s.spc.SDone? ==> s.ec != Success && forall i :: 0 <= i < |s.sendQ| ==> s.sendQ[i] == []
    ensures s.rpc.RDone? ==> s.ec != Success && forall i :: 0 <= i < |s.recvQ| ==> s.recvQ[i] == []
  {
    hide Inv, OnceOf, DoneBag, IsDone, IsPending, Reachable;
    ReachableInv(root, s);
    OnceHolds(s);
    ExitedQueues(s);
    forall op: OpId
      ensures DoneBag(s.q.log)[op] <= 1
      ensures op < s.nextOp ==> (IsDone(op, s.q.log) <==> !IsPending(op, s.order, s.recvQ))
      ensures op >= s.nextOp ==> !IsDone(op, s.q.log) && !IsPending(op, s.order, s.recvQ)
    {
      OnceFor(s, op);
    }
  }

  lemma OnceHolds(s: Sched)
    requires Inv(s)
    ensures OnceOf(s.order, s.recvQ, s.q.log, s.nextOp)
  {
    hide IdsOf, OpsOf, ListOf, SendPcOf, SendQOf, RecvQOf, RecvPcOf, TxOf, BodiesOf, WireOf, MetaOf, LedgerOf,
         RxOf, RxMapOf, GivenOf, OnceOf, CountsOf, FlushOf;
  }

  lemma ExitedQueues(s: Sched)
    requires Inv(s)
    ensures s.spc.SDone? ==> s.ec != Success && forall i :: 0 <= i < |s.sendQ| ==> s.sendQ[i] == []
    ensures s.rpc.RDone? ==> s.ec != Success && forall i :: 0 <= i < |s.recvQ| ==> s.recvQ[i] == []
  {
    hide IdsOf, OpsOf, ListOf, RecvQOf, TxOf, BodiesOf, WireOf, MetaOf, LedgerOf, RxOf, RxMapOf, OnceOf,
         GivenOf, CountsOf, FlushOf, Flatten, FrontIs, MatchedOf;
    if s.rpc.RDone? {
      RecvQNone(s);
      FlattenNil(s.recvQ);
    }
  }

  lemma OnceFor(s: Sched, op: OpId)
    requires OnceOf(s.order, s.recvQ, s.q.log, s.nextOp)
    ensures DoneBag(s.q.log)[op] <= 1
    ensures IsDone(op, s.q.log) <==> DoneBag(s.q.log)[op] > 0
    ensures op < s.nextOp ==> (IsDone(op, s.q.log) <==> !IsPending(op, s.order, s.recvQ))
    ensures op >= s.nextOp ==> !IsDone(op, s.q.log) && !IsPending(op, s.order, s.recvQ)
  {
    DoneCounted(op, s.q.log);
    PendsMember(s.order, s.recvQ);
    hide DoneBag, IsDone, Pends, Flatten;
    assert (Pends(s.order, s.recvQ) + DoneBag(s.q.log))[op] == if op < s.nextOp then 1 else 0;
    assert op in PendSet(s.order, s.recvQ) <==> IsPending(op, s.order, s.recvQ);
  }

  // ---- after an error -----------------------------------------------------

  /** A call of send or recv is completed at once, with the error `e` or for its empty
      body, and nothing is queued. */
  ghost predicate Refuses(s: Sched, st: Step, e: Code)
    requires Enabled(s, st)
  {
    var t := Apply(s, st);
    && t.q.log == s.q.log + [OpDone(s.nextOp, Refused(if st.USend? && st.body == [] then SendLengthZeroMsg else e))]
    && t.order == s.order && t.recvQ == s.recvQ
  }

  lemma LateSend(s: Sched, sid: Sid, body: Bytes)
    requires s.ec != Success && CanSend(s, sid, body)
    ensures Refuses(s, USend(sid, body), s.ec)
  {
    hide PushTo;
    if body == [] {
    }
  }

  lemma LateRecv(s: Sched, sid: Sid, buffer: Buffer)
    requires s.ec != Success && IsLocal(s, sid)
    ensures Refuses(s, URecv(sid, buffer), s.ec)
  {
    hide PushTo;
  }

  lemma LateAllowed(s: Sched, sid: Sid, body: Bytes)
    requires s.ec != Success && IsLocal(s, sid) && |body| < U32 - 1
    ensures Enabled(s, USend(sid, body))
  {
  }

  lemma LateCall(s: Sched, st: Step)
    requires s.ec != Success && Enabled(s, st) && (st.USend? || st.URecv?)
    ensures Refuses(s, st, s.ec)
  {
    hide Refuses, DoSend, DoRecv;
    if st.USend? {
      LateSend(s, st.sid, st.body);
    } else {
      LateRecv(s, st.sid, st.buffer);
    }
  }

  lemma {:induction false} RunFollows(a: Sched, steps: seq<Step>, b: Sched)
    requires Runs(a, steps, b)
    ensures Follows(a, b)
    decreases |steps|
  {
    hide Apply, Enabled;
    if steps != [] {
      StepFollows(a, steps[0]);
      RunFollows(Apply(a, steps[0]), steps[1..], b);
    }
  }

  /** The end of a scheduler is final: from the first error on, over any further run,
      the error stays, every call is refused at once, no completion is undone, and a task
      that has exited stays exited with the queues of its direction empty. */
  lemma ErrorIsFinal(root: Sid, s: Sched, steps: seq<Step>, t: Sched)
    requires Reachable(root, s) && s.ec != Success && Runs(s, steps, t)
    ensures t.ec == s.ec && t.h.accepted == s.h.accepted && t.rops == s.rops && s.q.log <= t.q.log
    ensures forall st :: Enabled(t, st) && (st.USend? || st.URecv?) ==> Refuses(t, st, s.ec)
    ensures forall sid, body: Bytes :: IsLocal(t, sid) && |body| < U32 - 1 ==> Enabled(t, USend(sid, body))
    ensures s.spc.SDone? ==> t.spc.SDone? && t.order == []
    ensures s.rpc.RDone? ==> t.rpc.RDone? && t.numRecvs == 0
  {
    hide Inv, Runs, Reachable, Enabled, Refuses, IsLocal;
    ReachableInv(root, s);
    RunKeeps(s, steps, t);
    RunFollows(s, steps, t);
    Exited(t);
    forall sid, body: Bytes | IsLocal(t, sid) && |body| < U32 - 1
      ensures Enabled(t, USend(sid, body))
    {
      LateAllowed(t, sid, body);
    }
    forall st | Enabled(t, st) && (st.USend? || st.URecv?)
      ensures Refuses(t, st, s.ec)
    {
      LateCall(t, st);
    }
  }

  lemma Exited(s: Sched)
    requires Inv(s)
    ensures s.spc.SDone? ==> s.order == []
    ensures s.rpc.RDone? ==> s.numRecvs == 0
  {
    hide IdsOf, OpsOf, ListOf, SendQOf, RecvQOf, TxOf, BodiesOf, WireOf, MetaOf, LedgerOf, RxOf, RxMapOf,
         GivenOf, OnceOf, CountsOf, FlushOf, FrontIs, MatchedOf;
  }

  // ---- flush --------------------------------------------------------------

  /** The handle of every flush is queued exactly once: when the last operation that
      holds its token has completed. With nothing pending, all have been queued. */
  lemma FlushOnce(root: Sid, s: Sched, t: nat)
    requires Reachable(root, s)
    ensures t < |s.q.tokens| ==> FlushBag(s.q.log)[t] == if s.q.tokens[t] == {} then 1 else 0
    ensures t >= |s.q.tokens| ==> FlushBag(s.q.log)[t] == 0
    ensures t < |s.q.tokens| && s.order == [] && s.numRecvs == 0 ==> FlushBag(s.q.log)[t] == 1
  {
    ReachableInv(root, s);
    hide IdsOf, OpsOf, ListOf, SendPcOf, SendQOf, RecvPcOf, TxOf, BodiesOf, WireOf, MetaOf, LedgerOf,
         RxOf, RxMapOf, GivenOf, OnceOf, CountsOf, FlushBag, AfterOf;
    RecvQNone(s);
  }

  /** A flush that does not return at once attaches its token to an operation. */
  lemma FlushWaits(root: Sid, s: Sched)
    requires Reachable(root, s) && CanFlush(s) && (s.numRecvs != 0 || s.order != [])
    ensures var t := DoFlush(s);
            && |t.q.tokens| == |s.q.tokens| + 1
            && t.q.tokens[|s.q.tokens|] != {}
            && (forall op :: op in t.q.tokens[|s.q.tokens|] ==> IsPending(op, s.order, s.recvQ))
            && t.q.log == s.q.log
  {
    hide Inv, Backs, Flatten, Reachable, Held, DoFlush, CanFlush;
    ReachableInv(root, s);
    FlushAttaches(s);
    FlushQueued(s);
  }

  lemma FlushQueued(s: Sched)
    requires CanFlush(s) && (s.numRecvs != 0 || s.order != [])
    ensures DoFlush(s).q == s.q.(tokens := s.q.tokens + [Backs(s.recvQ) + Backs(s.sendQ)])
  {
    hide Backs, Pending;
  }

  /** The step is the stop callback of an operation that has not started and holds the
      token `t`, and one queued before it in its fork and direction is pending. */
  ghost predicate LeavesEarlier(s: Sched, st: Step, t: nat) {
    && IsCancel(st) && st.op in s.status && s.status[st.op].NotStarted?
    && t < |s.q.tokens| && st.op in s.q.tokens[t]
    && exists p: OpId :: p < st.op && IsPending(p, s.order, s.recvQ) && SameQueue(p, st.op, s.sops, s.rops)
  }

  ghost predicate NoneLeft(s: Sched, steps: seq<Step>, t: nat)
    decreases |steps|
  {
    steps == [] || (Enabled(s, steps[0]) ==>
                      !LeavesEarlier(s, steps[0], t) && NoneLeft(Apply(s, steps[0]), steps[1..], t))
  }

  lemma OrphanedSame(s: Sched, op: OpId, t: nat)
    requires t < |s.h.orphans|
    requires t < |s.q.tokens| && op in s.q.tokens[t] ==>
               forall p: OpId :: p < op && IsPending(p, s.order, s.recvQ) ==> !SameQueue(p, op, s.sops, s.rops)
    ensures Orphaned(s, op)[t] == s.h.orphans[t]
  {
    hide Flatten, SameQueue;
    if t < |s.q.tokens| && op in s.q.tokens[t] {
      assert Earlier(s, op) == {};
    }
  }

  lemma OrphansCancel(s: Sched, op: OpId)
    requires op in s.status
    ensures CanCancelSend(s, op) ==>
              DoCancelSend(s, op).h.orphans == if s.status[op].NotStarted? then Orphaned(s, op) else s.h.orphans
    ensures CanCancelRecv(s, op) ==>
              DoCancelRecv(s, op).h.orphans == if s.status[op].NotStarted? then Orphaned(s, op) else s.h.orphans
  {
    hide Without, Finish, EraseFrom, Orphaned, CanErase, Flatten;
  }

  lemma OrphansStep(s: Sched, st: Step, t: nat)
    requires Enabled(s, st) && !LeavesEarlier(s, st, t) && t < |s.h.orphans|
    ensures t < |Apply(s, st).h.orphans| && Apply(s, st).h.orphans[t] == s.h.orphans[t]
  {
    hide Follows, DoFork, DoSend, DoRecv, DoCancelSend, DoCancelRecv, DoFlush, DoClose, DoBegin, DoSendBytes,
         DoSendEnd, DoNextSend, DoRecvBytes, DoRecvEnd, DoInit, DoAsk, DoFill, DoAny, Orphaned, Flatten, SameQueue,
         CanErase, sOf, rOf;
    if IsCancel(st) {
      OrphansCancel(s, st.op);
      if s.status[st.op].NotStarted? {
        OrphanedSame(s, st.op, t);
      }
    } else {
      StepFollows(s, st);
    }
  }

  lemma {:induction false} OrphansRun(a: Sched, steps: seq<Step>, b: Sched, t: nat)
    requires Runs(a, steps, b) && NoneLeft(a, steps, t) && t < |a.h.orphans|
    ensures t < |b.h.orphans| && b.h.orphans[t] == a.h.orphans[t]
    decreases |steps|
  {
    hide Apply, Enabled, LeavesEarlier;
    if steps != [] {
      OrphansStep(a, steps[0], t);
      OrphansRun(Apply(a, steps[0]), steps[1..], b, t);
    }
  }

  /** A run in which a flush is called in state `f`, and what is known at its end. */
  lemma FlushRun(root: Sid, before: seq<Step>, f: Sched, after: seq<Step>, s: Sched)
    requires Runs(Start(root), before, f) && CanFlush(f) && Runs(DoFlush(f), after, s)
    ensures Inv(f) && Inv(s) && f.q.log <= s.q.log
    ensures var t := |f.q.tokens|; t < |s.h.snaps| == |s.h.orphans| && s.h.snaps[t] == Pending(f)
    ensures NoneLeft(DoFlush(f), after, |f.q.tokens|) ==> s.h.orphans[|f.q.tokens|] == {}
  {
    hide Inv, Runs, DoFlush, NoneLeft, Follows, Pending;
    var g, t := DoFlush(f), |f.q.tokens|;
    StartInv(root);
    RunKeeps(Start(root), before, f);
    FlushKeeps(f);
    RunKeeps(g, after, s);
    FlushSnap(f);
    FlushFollows(f);
    RunFollows(g, after, s);
    LogKept(f, g, s);
    SnapsSize(s);
    if NoneLeft(g, after, t) {
      OrphansRun(g, after, s, t);
    }
  }

  lemma LogKept(f: Sched, g: Sched, s: Sched)
    requires Follows(f, g) && Follows(g, s)
    ensures f.q.log <= s.q.log && g.h.snaps <= s.h.snaps
  {
  }

  /** Flush order, in every run: the handle of a flush called in state `f` comes after the
      handle of every operation pending in `f`, in any fork and in both directions, except
      those that a cancelled holder of its token left behind it. There are none if no holder
      is cancelled while an operation before it in its fork and direction is pending. */
  lemma FlushOrder(root: Sid, before: seq<Step>, f: Sched, after: seq<Step>, s: Sched, k: nat)
    requires Runs(Start(root), before, f) && CanFlush(f) && Runs(DoFlush(f), after, s)
    requires k < |s.q.log| && s.q.log[k] == FlushDone(|f.q.tokens|)
    ensures |f.q.tokens| < |s.h.orphans|
    ensures forall op :: IsPending(op, f.order, f.recvQ) && op !in s.h.orphans[|f.q.tokens|] ==>
                           IsDone(op, s.q.log[..k])
    ensures NoneLeft(DoFlush(f), after, |f.q.tokens|) ==>
              forall op :: IsPending(op, f.order, f.recvQ) ==> IsDone(op, s.q.log[..k])
  {
    hide Inv, Runs, DoFlush, IsDone, NoneLeft, Flatten;
    FlushRun(root, before, f, after, s);
    FlushAfter(s, k);
  }

  lemma InvOnce(s: Sched)
    requires Inv(s)
    ensures OnceOf(s.order, s.recvQ, s.q.log, s.nextOp)
  {
  }

  /** An operation called before `f` that is pending in `s` was pending in `f`. */
  lemma PendingSince(f: Sched, s: Sched, p: OpId)
    requires Inv(f) && Inv(s) && f.q.log <= s.q.log && p < f.nextOp && IsPending(p, s.order, s.recvQ)
    ensures IsPending(p, f.order, f.recvQ)
  {
    hide Inv, IsPending;
    InvOnce(f);
    InvOnce(s);
    hide OnceOf;
    OnceFor(f, p);
    OnceFor(s, p);
    DoneLater(p, f.q.log, s.q.log);
  }

  /** A flush that one operation still holds: something else it waits for is pending exactly
      if something is pending before the holder in its fork and direction, or something that
      an earlier holder left behind. When the holder goes, the flush overtakes it. */
  lemma LastHolder(root: Sid, before: seq<Step>, f: Sched, after: seq<Step>, s: Sched, op: OpId)
    requires Runs(Start(root), before, f) && CanFlush(f) && Runs(DoFlush(f), after, s)
    requires |f.q.tokens| < |s.q.tokens| && s.q.tokens[|f.q.tokens|] == {op}
    ensures |f.q.tokens| < |s.h.orphans|
    ensures (exists p: OpId :: p != op && IsPending(p, f.order, f.recvQ) && IsPending(p, s.order, s.recvQ))
            <==> || (exists p: OpId :: p < op && IsPending(p, s.order, s.recvQ) && SameQueue(p, op, s.sops, s.rops))
                 || OrphanPending(s, |f.q.tokens|, op)
  {
    hide Inv, Runs, DoFlush, NoneLeft, SameQueue, Flatten, IsDone;
    var t := |f.q.tokens|;
    FlushRun(root, before, f, after, s);
    HolderFacts(s, t, op);
    HolderSince(f, s, t, op);
    forall p: OpId | p < op && IsPending(p, s.order, s.recvQ)
      ensures IsPending(p, f.order, f.recvQ)
    {
      PendingSince(f, s, p);
    }
  }

  lemma HolderFacts(s: Sched, t: nat, op: OpId)
    requires Inv(s) && t < |s.q.tokens| && s.q.tokens[t] == {op}
    ensures t < |s.h.snaps| == |s.h.orphans| && op in s.h.snaps[t] && s.h.orphans[t] <= s.h.snaps[t]
    ensures IsPending(op, s.order, s.recvQ)
    ensures forall p :: p in s.h.snaps[t] && IsPending(p, s.order, s.recvQ) && p != op && p !in s.h.orphans[t] ==>
                          p < op && SameQueue(p, op, s.sops, s.rops)
  {
    hide IdsOf, OpsOf, ListOf, SendPcOf, SendQOf, RecvQOf, RecvPcOf, TxOf, BodiesOf, WireOf, MetaOf, LedgerOf,
         RxOf, RxMapOf, GivenOf, OnceOf, CountsOf, Flatten, FlushBag, FlushLate, IsDone, SameQueue;
    forall p | p in s.h.snaps[t] && IsPending(p, s.order, s.recvQ) && p != op && p !in s.h.orphans[t]
      ensures p < op && SameQueue(p, op, s.sops, s.rops)
    {
      assert p in PendSet(s.order, s.recvQ);
    }
  }

  /** The handle of the flush called in `f` comes before that of an operation that was
      pending then. */
  ghost predicate Overtakes(f: Sched, s: Sched) {
    exists k, p :: 0 <= k < |s.q.log| && s.q.log[k] == FlushDone(|f.q.tokens|) && IsPending(p, f.order, f.recvQ)
                   && !IsDone(p, s.q.log[..k])
  }

  /** Something that an earlier holder left behind is pending. */
  ghost predicate OrphanPending(s: Sched, t: nat, op: OpId)
    requires t < |s.h.orphans|
  {
    exists p: OpId :: p != op && IsPending(p, s.order, s.recvQ) && p in s.h.orphans[t]
  }

  /** The step that fires a flush. If no holder has left anything behind yet, the flush
      overtakes an operation that was pending at its call exactly if the step is the stop
      callback of a holder before which, in its fork and direction, another is pending. A
      stop callback makes it overtake one, in any run, exactly in that case or if something
      left behind is pending. */
  lemma FlushEarly(root: Sid, before: seq<Step>, f: Sched, after: seq<Step>, s: Sched, st: Step)
    requires Runs(Start(root), before, f) && CanFlush(f) && Runs(DoFlush(f), after, s) && Enabled(s, st)
    requires Fires(s, st, |f.q.tokens|)
    ensures |f.q.tokens| < |s.h.orphans|
    ensures NoneLeft(DoFlush(f), after, |f.q.tokens|) ==>
              (Overtakes(f, Apply(s, st)) <==> LeavesEarlier(s, st, |f.q.tokens|))
    ensures IsCancel(st) ==>
              (Overtakes(f, Apply(s, st)) <==>
                 LeavesEarlier(s, st, |f.q.tokens|) || OrphanPending(s, |f.q.tokens|, st.op))
  {
    hide Inv, Runs, DoFlush, NoneLeft, LeavesEarlier, Apply, Enabled, Overtakes, Fires, OrphanPending;
    var t := |f.q.tokens|;
    FlushRun(root, before, f, after, s);
    if IsCancel(st) {
      CancelOvertakes(root, before, f, after, s, st);
      if s.h.orphans[t] == {} {
        NoOrphans(s, t, st.op);
      }
    } else if NoneLeft(DoFlush(f), after, t) {
      NotCancel(s, st, t);
      NeverOvertakes(root, before, f, after, s, st);
    }
  }

  /** The step releases the last reference to the token. */
  predicate Fires(s: Sched, st: Step, t: nat)
    requires Enabled(s, st)
  {
    t < |s.q.tokens| && s.q.tokens[t] != {} && t < |Apply(s, st).q.tokens| && Apply(s, st).q.tokens[t] == {}
  }

  lemma NoOrphans(s: Sched, t: nat, op: OpId)
    requires t < |s.h.orphans| && s.h.orphans[t] == {}
    ensures !OrphanPending(s, t, op)
  {
  }

  lemma NotCancel(s: Sched, st: Step, t: nat)
    requires !IsCancel(st)
    ensures !LeavesEarlier(s, st, t)
  {
  }

  lemma NeverOvertakes(root: Sid, before: seq<Step>, f: Sched, after: seq<Step>, s: Sched, st: Step)
    requires Runs(Start(root), before, f) && CanFlush(f) && Runs(DoFlush(f), after, s) && Enabled(s, st)
    requires NoneLeft(DoFlush(f), after, |f.q.tokens|) && !LeavesEarlier(s, st, |f.q.tokens|)
    ensures !Overtakes(f, Apply(s, st))
  {
    hide Inv, Runs, DoFlush, NoneLeft, LeavesEarlier, Apply, Enabled, IsPending, IsDone;
    var t, u := |f.q.tokens|, Apply(s, st);
    RunSnoc(DoFlush(f), after, s, st);
    NoneLeftSnoc(DoFlush(f), after, s, st, t);
    forall k | 0 <= k < |u.q.log| && u.q.log[k] == FlushDone(t)
      ensures forall op :: IsPending(op, f.order, f.recvQ) ==> IsDone(op, u.q.log[..k])
    {
      FlushOrder(root, before, f, after + [st], u, k);
    }
  }

  /** A stop callback that fires a flush is that of its last holder, which has not started,
      and its handle comes before that of the flush. */
  lemma CancelFires(s: Sched, st: Step, t: nat)
    requires Enabled(s, st) && IsCancel(st) && Fires(s, st, t)
    ensures st.op in s.status && s.status[st.op].NotStarted?
    ensures t < |s.q.tokens| && s.q.tokens[t] == {st.op}
    ensures Apply(s, st).q == Finish(s.q, st.op, Withdrawn)
  {
    hide EraseFrom, Orphaned, CanErase, Flatten, Without, Fired;
  }

  lemma CancelOvertakes(root: Sid, before: seq<Step>, f: Sched, after: seq<Step>, s: Sched, st: Step)
    requires Runs(Start(root), before, f) && CanFlush(f) && Runs(DoFlush(f), after, s) && Enabled(s, st)
    requires IsCancel(st) && Fires(s, st, |f.q.tokens|)
    ensures |f.q.tokens| < |s.h.orphans|
    ensures Overtakes(f, Apply(s, st)) <==>
              LeavesEarlier(s, st, |f.q.tokens|) || OrphanPending(s, |f.q.tokens|, st.op)
  {
    hide Inv, Runs, DoFlush, Apply, Enabled, IsPending, IsDone, SameQueue, Fires, Finish, Overtakes;
    var t := |f.q.tokens|;
    CancelFires(s, st, t);
    LastHolder(root, before, f, after, s, st.op);
    if p: OpId :| p != st.op && IsPending(p, f.order, f.recvQ) && IsPending(p, s.order, s.recvQ) {
      LeftOvertaken(root, before, f, after, s, st, p);
    } else if Overtakes(f, Apply(s, st)) {
      var p := Overtaken(root, before, f, after, s, st);
    }
  }

  /** What a flush fired by a stop callback overtakes is pending. */
  lemma Overtaken(root: Sid, before: seq<Step>, f: Sched, after: seq<Step>, s: Sched, st: Step) returns (p: OpId)
    requires Runs(Start(root), before, f) && CanFlush(f) && Runs(DoFlush(f), after, s) && Enabled(s, st)
    requires IsCancel(st) && Fires(s, st, |f.q.tokens|) && Overtakes(f, Apply(s, st))
    ensures p != st.op && IsPending(p, f.order, f.recvQ) && IsPending(p, s.order, s.recvQ)
  {
    hide Inv, Runs, DoFlush, Apply, Enabled, IsPending, IsDone, Fires, Fired, Release;
    var t, u := |f.q.tokens|, Apply(s, st);
    FlushRun(root, before, f, after, s);
    CancelFires(s, st, t);
    var k: nat;
    k, p :| 0 <= k < |u.q.log| && u.q.log[k] == FlushDone(t) && IsPending(p, f.order, f.recvQ)
            && !IsDone(p, u.q.log[..k]);
    var mid := s.q.log + [OpDone(st.op, Withdrawn)];
    NotYet(s, t, u.q.log, k);
    assert mid <= u.q.log[..k];
    DoneLater(p, mid, u.q.log[..k]);
    DoneLater(p, s.q.log, mid);
    DoneLast(st.op, s.q.log);
    WasPending(s, t, p, f);
  }

  lemma DoneLast(op: OpId, log: seq<Handle>)
    ensures IsDone(op, log + [OpDone(op, Withdrawn)])
  {
    assert (log + [OpDone(op, Withdrawn)])[|log|] == OpDone(op, Withdrawn);
  }

  lemma WasPending(s: Sched, t: nat, p: OpId, f: Sched)
    requires Inv(s) && t < |s.h.snaps| && s.h.snaps[t] == Pending(f) && IsPending(p, f.order, f.recvQ)
    ensures IsPending(p, s.order, s.recvQ) || IsDone(p, s.q.log)
  {
    hide IdsOf, OpsOf, ListOf, SendPcOf, SendQOf, RecvQOf, RecvPcOf, TxOf, BodiesOf, WireOf, MetaOf, LedgerOf,
         RxOf, RxMapOf, GivenOf, OnceOf, CountsOf, Flatten, FlushBag, FlushLate, IsDone, Held, TokensOf;
  }

  /** A flush that is still held is not in the log. */
  lemma NotYet(s: Sched, t: nat, log: seq<Handle>, k: nat)
    requires Inv(s) && t < |s.q.tokens| && s.q.tokens[t] != {}
    requires s.q.log <= log && k < |log| && log[k] == FlushDone(t)
    ensures k >= |s.q.log|
  {
    hide IdsOf, OpsOf, ListOf, SendPcOf, SendQOf, RecvQOf, RecvPcOf, TxOf, BodiesOf, WireOf, MetaOf, LedgerOf,
         RxOf, RxMapOf, GivenOf, OnceOf, CountsOf, Flatten, FlushBag, AfterOf;
    FlushCounted(s.q.log, t, k);
  }

  lemma {:induction false} FlushCounted(log: seq<Handle>, t: nat, k: nat)
    ensures k < |log| && log[k] == FlushDone(t) ==> FlushBag(log)[t] > 0
    decreases |log|
  {
    if log != [] {
      FlushCounted(log[..|log| - 1], t, k);
    }
  }

  lemma {:induction false} NoneLeftSnoc(a: Sched, steps: seq<Step>, b: Sched, st: Step, t: nat)
    requires Runs(a, steps, b) && NoneLeft(a, steps, t) && !LeavesEarlier(b, st, t)
    ensures NoneLeft(a, steps + [st], t)
    decreases |steps|
  {
    hide Apply, Enabled, LeavesEarlier;
    if steps == [] {
      assert [st][1..] == [];
    } else {
      NoneLeftSnoc(Apply(a, steps[0]), steps[1..], b, st, t);
      assert (steps + [st])[1..] == steps[1..] + [st];
    }
  }

  lemma {:induction false} RunSnoc(a: Sched, steps: seq<Step>, b: Sched, st: Step)
    requires Runs(a, steps, b) && Enabled(b, st)
    ensures Runs(a, steps + [st], Apply(b, st))
    decreases |steps|
  {
    hide Apply, Enabled;
    if steps == [] {
      assert [st][1..] == [];
    } else {
      RunSnoc(Apply(a, steps[0]), steps[1..], b, st);
      assert (steps + [st])[1..] == steps[1..] + [st];
    }
  }

  lemma LeftOvertaken(root: Sid, before: seq<Step>, f: Sched, after: seq<Step>, s: Sched, st: Step, p: OpId)
    requires Runs(Start(root), before, f) && CanFlush(f) && Runs(DoFlush(f), after, s) && Enabled(s, st)
    requires IsCancel(st) && Fires(s, st, |f.q.tokens|)
    requires p != st.op && IsPending(p, f.order, f.recvQ) && IsPending(p, s.order, s.recvQ)
    ensures Overtakes(f, Apply(s, st))
  {
    hide Inv, Runs, DoFlush, Apply, Enabled, IsPending, IsDone, SameQueue;
    var t, u := |f.q.tokens|, Apply(s, st);
    FlushRun(root, before, f, after, s);
    StepKeeps(s, st);
    CancelPending(s, st, p);
    var k := FlushEntry(u, t);
    InvOnce(u);
    hide OnceOf;
    OnceFor(u, p);
    DoneLater(p, u.q.log[..k], u.q.log);
  }

  lemma HolderSince(f: Sched, s: Sched, t: nat, op: OpId)
    requires Inv(f) && Inv(s) && t < |s.q.tokens| && op in s.q.tokens[t]
    requires t < |s.h.snaps| && s.h.snaps[t] == Pending(f)
    ensures op < f.nextOp
  {
    hide IdsOf, OpsOf, ListOf, SendPcOf, SendQOf, RecvQOf, RecvPcOf, TxOf, BodiesOf, WireOf, MetaOf, LedgerOf,
         RxOf, RxMapOf, GivenOf, OnceOf, CountsOf, Flatten, FlushBag, AfterOf;
    OnceFor(f, op);
  }

  lemma FlushEntry(s: Sched, t: nat) returns (k: nat)
    requires Inv(s) && t < |s.q.tokens| && s.q.tokens[t] == {}
    ensures k < |s.q.log| && s.q.log[k] == FlushDone(t)
  {
    hide IdsOf, OpsOf, ListOf, SendPcOf, SendQOf, RecvQOf, RecvPcOf, TxOf, BodiesOf, WireOf, MetaOf, LedgerOf,
         RxOf, RxMapOf, GivenOf, OnceOf, CountsOf, Flatten, FlushBag, AfterOf;
    k := FlushAt(s.q.log, t);
  }

  lemma {:induction false} FlushAt(log: seq<Handle>, t: nat) returns (k: nat)
    requires FlushBag(log)[t] > 0
    ensures k < |log| && log[k] == FlushDone(t)
    decreases |log|
  {
    var n := |log| - 1;
    if log[n] == FlushDone(t) {
      k := n;
    } else {
      k := FlushAt(log[..n], t);
    }
  }

  /** The stop callback of an operation leaves the others pending. */
  lemma CancelPending(s: Sched, st: Step, p: OpId)
    requires Enabled(s, st) && IsCancel(st) && p != st.op && IsPending(p, s.order, s.recvQ)
    ensures IsPending(p, Apply(s, st).order, Apply(s, st).recvQ)
  {
    hide Finish, EraseFrom, Orphaned, CanErase, Flatten, Without;
    WithoutMembers(s.order, {st.op});
    if st.UCancelRecv? && s.status[st.op].NotStarted? {
      var i := rOf(s, st.op);
      var q := s.recvQ[i := Without(s.recvQ[i], {st.op})];
      WithoutMembers(s.recvQ[i], {st.op});
      FlattenMembers(s.recvQ);
      FlattenMembers(q);
      if p in Flatten(s.recvQ) {
        var j :| 0 <= j < |s.recvQ| && p in s.recvQ[j];
        assert p in q[j];
      }
    }
  }

  lemma FlushSnap(f: Sched)
    requires Inv(f) && CanFlush(f)
    ensures var g := DoFlush(f);
            && |f.h.snaps| == |f.h.orphans| == |f.q.tokens| && g.h.snaps == f.h.snaps + [Pending(f)]
            && g.h.orphans == f.h.orphans + [{}]
  {
    hide Inv, Pending, CanFlush, DoFlush;
    SnapsSize(f);
    FlushMarks(f);
  }

  lemma FlushMarks(f: Sched)
    requires CanFlush(f)
    ensures DoFlush(f).h.snaps == f.h.snaps + [Pending(f)] && DoFlush(f).h.orphans == f.h.orphans + [{}]
  {
    hide Pending, Backs;
    if f.numRecvs == 0 && f.order == [] {
    }
  }

  lemma SnapsSize(f: Sched)
    requires Inv(f)
    ensures |f.h.snaps| == |f.h.orphans| == |f.q.tokens|
  {
    hide IdsOf, OpsOf, ListOf, SendPcOf, SendQOf, RecvQOf, RecvPcOf, TxOf, BodiesOf, WireOf, MetaOf, LedgerOf,
         RxOf, RxMapOf, GivenOf, OnceOf, CountsOf, Flatten, FlushBag, Held, FlushLate;
  }

  lemma FlushAfter(s: Sched, k: nat)
    requires Inv(s)
    requires k < |s.q.log| && s.q.log[k].FlushDone?
    ensures var t := s.q.log[k].token;
            && t < |s.h.snaps| == |s.h.orphans|
            && forall op :: op in s.h.snaps[t] && op !in s.h.orphans[t] ==> IsDone(op, s.q.log[..k])
  {
    hide IdsOf, OpsOf, ListOf, SendPcOf, SendQOf, RecvQOf, RecvPcOf, TxOf, BodiesOf, WireOf, MetaOf, LedgerOf,
         RxOf, RxMapOf, GivenOf, OnceOf, CountsOf, Flatten, FlushBag, TokensOf, Held;
    assert FlushLate(s.q.log, k, s.h.snaps, s.h.orphans);
  }

  // ---- byte accounting ----------------------------------------------------

  /** Number of announced forks among the first `n`. */
  function Initiated(forks: seq<Fork>, n: nat): nat
    requires n <= |forks|
  {
    if n == 0 then 0 else Initiated(forks, n - 1) + if forks[n - 1].initiated then 1 else 0
  }

  /** The local slots of the announced forks among the first `n`. */
  function InitiatedIds(forks: seq<Fork>, n: nat): set<nat>
    requires n <= |forks|
  {
    set i | 0 <= i < n && forks[i].initiated :: forks[i].localId
  }

  lemma {:induction false} InitiatedSlots(forks: seq<Fork>, n: nat)
    requires n <= |forks|
    requires forall i, j :: 0 <= i < j < |forks| && forks[i].initiated && forks[j].initiated ==>
                              forks[i].localId != forks[j].localId
    ensures Initiated(forks, n) == |InitiatedIds(forks, n)|
  {
    hide InitiatedIds;
    if n == 0 {
      InitiatedNone(forks);
    } else {
      InitiatedSlots(forks, n - 1);
      InitiatedNext(forks, n - 1);
    }
  }

  lemma InitiatedNone(forks: seq<Fork>)
    ensures InitiatedIds(forks, 0) == {}
  {
  }

  lemma InitiatedNext(forks: seq<Fork>, n: nat)
    requires n < |forks|
    requires forall i, j :: 0 <= i < j < |forks| && forks[i].initiated && forks[j].initiated ==>
                              forks[i].localId != forks[j].localId
    ensures InitiatedIds(forks, n + 1)
            == InitiatedIds(forks, n) + if forks[n].initiated then {forks[n].localId} else {}
    ensures forks[n].initiated ==> forks[n].localId !in InitiatedIds(forks, n)
  {
  }

  lemma InitiatedApart(forks: seq<Fork>, idMap: map<Sid, nat>, remoteMap: map<nat, nat>, nextLocal: nat)
    requires IdsOf(forks, idMap, remoteMap, nextLocal)
    ensures forall i, j :: 0 <= i < j < |forks| && forks[i].initiated && forks[j].initiated ==>
                             forks[i].localId != forks[j].localId
  {
  }

  lemma InitiatedCount(forks: seq<Fork>, tx: seq<Frame>, idMap: map<Sid, nat>,
                       remoteMap: map<nat, nat>, nextLocal: nat)
    requires TxOf(tx, forks) && IdsOf(forks, idMap, remoteMap, nextLocal)
    ensures |Slots(tx)| == Initiated(forks, |forks|)
  {
    InitiatedApart(forks, idMap, remoteMap, nextLocal);
    hide IdsOf;
    InitiatedSlots(forks, |forks|);
    assert Slots(tx).Keys == InitiatedIds(forks, |forks|);
    assert |Slots(tx)| == |Slots(tx).Keys|;
  }

  /** With the send task parked, `mBytesSent` is one meta message per announced fork
      and one header and body per send that was not cancelled before it started. */
  lemma BytesSent(root: Sid, s: Sched)
    requires Reachable(root, s) && s.spc.SIdle?
    ensures s.bytesSent == META * Initiated(s.forks, |s.forks|)
                           + BodyCost(BodiesAll(Without(s.h.accepted, s.h.withdrawn), s.sops))
  {
    ReachableInv(root, s);
    hide OpsOf, ListOf, SendQOf, RecvQOf, RecvPcOf, MetaOf, RxOf, RxMapOf, GivenOf, OnceOf, FlushOf,
         IdsOf;
    EncodeCost(s.h.tx);
    CostByParts(s.h.tx);
    InitiatedCount(s.forks, s.h.tx, s.idMap, s.remoteMap, s.nextLocal);
    hide Encode, Cost, BodyCost, BodiesAll, AllBodies, Initiated, Without, Slots;
    assert s.h.begun + [] == s.h.begun;
  }
}
