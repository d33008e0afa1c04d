/** Which steps there are in a reachable state: what a call, a task or the transport needs
    before it can move, in terms a caller can check. */
module Guards {
  import opened Common
  import opened Framing
  import opened Scheduler
  import opened Lists
  import opened Invariants
  import opened Endpoint

  /** The user holds a socket of the session. */
  predicate UserHolds(forks: seq<Fork>, sid: Sid) {
    exists i :: 0 <= i < |forks| && forks[i].sid == sid && forks[i].localId != NO_SLOT
  }

  lemma LocalIsHeld(s: Sched, sid: Sid)
    requires Inv(s)
    ensures IsLocal(s, sid) <==> UserHolds(s.forks, sid)
    ensures sid in s.idMap ==> s.idMap[sid] < |s.forks| && (UserHolds(s.forks, sid) <==> s.forks[s.idMap[sid]].localId != NO_SLOT)
    ensures sid !in s.idMap ==> !UserHolds(s.forks, sid)
  {
    hide OpsOf, ListOf, SendPcOf, RecvQOf, RecvPcOf, TxOf, BodiesOf, WireOf, MetaOf, LedgerOf, RxOf, RxMapOf, GivenOf,
         OnceOf, CountsOf, FlushOf;
  }

  /** A session can be forked exactly if its user holds no socket of it and a slot is left;
      a send or recv can be called exactly on a session the user holds; close always. */
  lemma CallsOpen(root: Sid, s: Sched, sid: Sid, body: Bytes, buffer: Buffer)
    requires Reachable(root, s)
    ensures Enabled(s, UFork(sid)) <==> !UserHolds(s.forks, sid) && s.nextLocal < NO_SLOT
    ensures Enabled(s, USend(sid, body)) <==>
              && UserHolds(s.forks, sid) && |body| < U32 - 1
              && (body == [] || s.ec != Success || !s.dangling)
    ensures Enabled(s, URecv(sid, buffer)) <==> UserHolds(s.forks, sid)
    ensures Enabled(s, UClose)
  {
    hide Inv, Reachable, UserHolds;
    ReachableInv(root, s);
    LocalIsHeld(s, sid);
  }

  /** A task that is not parked, done or waiting for the transport can always move. */
  lemma TasksOpen(root: Sid, s: Sched)
    requires Reachable(root, s)
    ensures Enabled(s, TBegin) <==> s.spc.SGot?
    ensures Enabled(s, TNextSend) <==> s.spc.SFinish?
    ensures Enabled(s, TInit) <==> s.rpc.RInit?
    ensures Enabled(s, TAsk) <==> s.rpc.RAsk?
    ensures Enabled(s, TFill) <==> s.rpc.RMatched?
    ensures Enabled(s, TAny) <==> s.rpc.RGood? || s.rpc.RBad?
  {
    hide Inv, Reachable, Enabled;
    ReachableInv(root, s);
    TasksAt(s);
  }

  lemma TasksAt(s: Sched)
    requires Inv(s)
    ensures Enabled(s, TBegin) <==> s.spc.SGot?
    ensures Enabled(s, TNextSend) <==> s.spc.SFinish?
    ensures Enabled(s, TInit) <==> s.rpc.RInit?
    ensures Enabled(s, TAsk) <==> s.rpc.RAsk?
    ensures Enabled(s, TFill) <==> s.rpc.RMatched?
    ensures Enabled(s, TAny) <==> s.rpc.RGood? || s.rpc.RBad?
  {
    hide Inv, SendFindable, RecvFindable;
    SendAsserts(s);
    RecvAsserts(s);
  }

  /** A message is being handed to the transport. */
  predicate InFlight(spc: SendPc) {
    spc.SMeta? || spc.SHead? || spc.SBody?
  }

  /** What the receive task still waits for. */
  function Missing(s: Sched): int {
    match s.rpc
    case RHead => 8 - |s.part|
    case RMeta(_) => 24 - |s.part|
    case RBody(_, size, _) => 8 + size - |s.part|
    case _ => 0
  }

  lemma SpanLeft(s: Sched)
    requires Inv(s) && InFlight(s.spc)
    ensures s.spc.op in s.sops && sOf(s, s.spc.op) < |s.forks| == |s.sendQ|
    ensures |s.spc.rest| <= SpanSize(s)
  {
    hide RecvQOf, RecvPcOf, TxOf, BodiesOf, MetaOf, LedgerOf, RxOf, RxMapOf, GivenOf, OnceOf, CountsOf, FlushOf;
  }

  lemma PartBegun(s: Sched)
    requires Inv(s) && Reading(s)
    ensures Before(s.rpc) <= |s.part| <= Wanted(s.rpc)
  {
    hide IdsOf, OpsOf, ListOf, SendPcOf, SendQOf, RecvQOf, RecvPcOf, TxOf, BodiesOf, WireOf, MetaOf, LedgerOf, RxMapOf,
         GivenOf, OnceOf, CountsOf, FlushOf;
  }

  /** The transport may take or deliver any part of what it was given or asked for, and end
      at any time with any code of its own; success means that nothing is left. */
  lemma TransportOpen(root: Sid, s: Sched, n: nat, chunk: Bytes, e: Code)
    requires Reachable(root, s)
    ensures Enabled(s, TSendBytes(n)) <==> InFlight(s.spc) && 0 < n <= |s.spc.rest|
    ensures Enabled(s, TRecvBytes(chunk)) <==> chunk != [] && |chunk| <= Missing(s)
    ensures Enabled(s, TSendEnd(e)) <==>
              && InFlight(s.spc) && e != BadCoprotoMessageHeader && e != BadBufferSize
              && (e == Success ==> s.spc.rest == [])
    ensures Enabled(s, TRecvEnd(e)) <==>
              && (s.rpc.RHead? || s.rpc.RMeta? || s.rpc.RBody?)
              && e != BadCoprotoMessageHeader && e != BadBufferSize
              && (e == Success ==> Missing(s) == 0)
  {
    hide Inv, Reachable, Enabled;
    ReachableInv(root, s);
    TransportAt(s, n, chunk, e);
  }

  lemma TransportAt(s: Sched, n: nat, chunk: Bytes, e: Code)
    requires Inv(s)
    ensures Enabled(s, TSendBytes(n)) <==> InFlight(s.spc) && 0 < n <= |s.spc.rest|
    ensures Enabled(s, TRecvBytes(chunk)) <==> chunk != [] && |chunk| <= Missing(s)
    ensures Enabled(s, TSendEnd(e)) <==>
              && InFlight(s.spc) && e != BadCoprotoMessageHeader && e != BadBufferSize
              && (e == Success ==> s.spc.rest == [])
    ensures Enabled(s, TRecvEnd(e)) <==>
              && (s.rpc.RHead? || s.rpc.RMeta? || s.rpc.RBody?)
              && e != BadCoprotoMessageHeader && e != BadBufferSize
              && (e == Success ==> Missing(s) == 0)
  {
    hide Inv, CanSendBytes, CanSendEnd, CanRecvBytes, CanRecvEnd, Missing;
    SendTransport(s, n, e);
    RecvTransport(s, chunk, e);
  }

  lemma SendTransport(s: Sched, n: nat, e: Code)
    requires Inv(s)
    ensures CanSendBytes(s, n) <==> InFlight(s.spc) && 0 < n <= |s.spc.rest|
    ensures CanSendEnd(s, e) <==>
              && InFlight(s.spc) && e != BadCoprotoMessageHeader && e != BadBufferSize
              && (e == Success ==> s.spc.rest == [])
  {
    hide Inv, sOf, SpanSize;
    if InFlight(s.spc) {
      SpanLeft(s);
    }
  }

  lemma RecvTransport(s: Sched, chunk: Bytes, e: Code)
    requires Inv(s)
    ensures CanRecvBytes(s, chunk) <==> chunk != [] && |chunk| <= Missing(s)
    ensures CanRecvEnd(s, e) <==>
              && (s.rpc.RHead? || s.rpc.RMeta? || s.rpc.RBody?)
              && e != BadCoprotoMessageHeader && e != BadBufferSize
              && (e == Success ==> Missing(s) == 0)
  {
    hide Inv;
    if Reading(s) {
      PartBegun(s);
    }
  }

  /** A stop callback runs for a pending operation: one that has started is marked, one
      that has not must be found by its address. */
  lemma CallbacksOpen(root: Sid, s: Sched, op: OpId)
    requires Reachable(root, s)
    ensures Enabled(s, UCancelSend(op)) <==>
              op in s.order && op in s.status && (s.status[op] != NotStarted || CanErase(s.sendR, sOf(s, op), op))
    ensures Enabled(s, UCancelRecv(op)) <==>
              op in Flatten(s.recvQ) && op in s.status && (s.status[op] != NotStarted || CanErase(s.recvR, rOf(s, op), op))
  {
    hide Inv, Reachable, CanErase, Flatten;
    AssertionsHold(root, s);
    if op in s.order {
      assert SendFindable(s, op);
    }
    if op in Flatten(s.recvQ) {
      assert RecvFindable(s, op);
    }
  }
}
