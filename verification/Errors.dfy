/** Where errors come from and whom they reach: the error a scheduler records, what close
    does, and the code each task carries to the operation it fails. */
module Errors {
  import opened Common
  import opened Framing
  import opened Streams
  import opened Scheduler
  import opened Lists
  import opened Invariants
  import opened Shapes
  import opened QueueProofs
  import opened Follow
  import opened Endpoint
  import opened Blocks
  import opened Newest
  import opened Failures

  // ---- the error recorded ---------------------------------------------------------

  /** The error a step records if there is none yet: what close is called with, cancel when
      a task has failed an operation of its own, the error that stopped the receive task
      without one, or the bad header of an unknown slot. */
  function Recorded(s: Sched, st: Step): Code {
    match st
    case UClose => Closed
    case TNextSend => if s.spc.SFinish? && s.spc.ec != Success then Cancel else Success
    case TAny => if s.rpc.RBad? then (if s.rpc.prev.Some? then Cancel else s.rpc.ec) else Success
    case TAsk => if s.rpc.RAsk? && s.rpc.slot !in s.remoteMap then BadCoprotoMessageHeader else Success
    case _ => Success
  }

  lemma StopCode(s: Sched, caller: Caller, e: Code)
    ensures Stop(s, caller, e).ec == if s.ec != Success then s.ec else e
  {
    StopOnly(s, caller, e);
  }

  lemma DrainCodes(s: Sched, e: Code)
    ensures DrainSends(s, e).ec == DrainRecvs(s, e).ec == s.ec
    ensures DrainSends(s, e).spc == DrainRecvs(s, e).spc == s.spc
    ensures DrainSends(s, e).rpc == DrainRecvs(s, e).rpc == s.rpc
    ensures DrainSends(s, e).part == DrainRecvs(s, e).part == s.part
  {
    hide DrainOps, DrainAll, NoQueues, Flatten;
  }

  lemma NextCode(s: Sched)
    requires CanNextSend(s)
    ensures DoNextSend(s).ec == if s.ec != Success then s.ec else if s.spc.ec != Success then Cancel else Success
  {
    hide CompleteSend, DrainSends, Stop, StartNext;
    var s1 := CompleteSend(s);
    CompleteSendStays(s);
    StopCode(s1, Sender, Cancel);
    StopCode(s1, Sender, Success);
    DrainCodes(Stop(s1, Sender, Cancel), Cancel);
    DrainCodes(Stop(s1, Sender, Success), Success);
    StartNextOnly(s1);
  }

  lemma CompleteSendStays(s: Sched)
    requires CanNextSend(s)
    ensures var t := CompleteSend(s);
            t.ec == s.ec && t.spc == s.spc && t.rpc == s.rpc && t.part == s.part && t.rops == s.rops
  {
    hide Finish, PopFrom, sOf;
  }

  lemma CompleteRecvStays(s: Sched)
    requires CanAny(s)
    ensures CompleteRecv(s).ec == s.ec && CompleteRecv(s).spc == s.spc && CompleteRecv(s).rpc == s.rpc
  {
    hide Finish, PopFrom, rOf;
    if PrevRecv(s.rpc).Some? {
      CompleteRecvOnly(s);
      hide CompleteRecv;
    }
  }

  lemma AnyCode(s: Sched)
    requires CanAny(s)
    ensures DoAny(s).ec == if s.ec != Success then s.ec else CarriedError(s.rpc)
  {
    hide CompleteRecv, DrainRecvs, Stop, ReadNext, CarriedError, CanAny;
    var s1, e := CompleteRecv(s), CarriedError(s.rpc);
    CompleteRecvStays(s);
    StopCode(s1, Recver, e);
    DrainCodes(Stop(s1, Recver, e), e);
    ReadNextOnly(s1);
  }

  lemma AskCode(s: Sched)
    requires s.rpc.RAsk?
    ensures DoAsk(s).ec == if s.ec != Success || s.rpc.slot in s.remoteMap then s.ec else BadCoprotoMessageHeader
  {
    hide DrainRecvs, Stop, MatchHeader;
    var t := Stop(s, Recver, BadCoprotoMessageHeader);
    StopCode(s, Recver, BadCoprotoMessageHeader);
    DrainCodes(t, BadCoprotoMessageHeader);
    MatchOnly(s, s.rpc.size, s.rpc.slot);
    MatchOnly(DrainRecvs(t, BadCoprotoMessageHeader), s.rpc.size, s.rpc.slot);
  }

  lemma InitCode(s: Sched)
    requires s.rpc.RInit?
    ensures DoInit(s).ec == s.ec
  {
    hide RemoteFork, BindSlot;
    if s.rpc.slot != NO_SLOT {
      RemoteCode(s, s.rpc.sid);
      BindOnly(RemoteFork(s, s.rpc.sid), s.rpc.slot, s.rpc.sid);
    }
  }

  lemma RemoteCode(s: Sched, sid: Sid)
    ensures sid in RemoteFork(s, sid).idMap && RemoteFork(s, sid).ec == s.ec
  {
    hide EmptyRing;
  }

  /** What calls and stop callbacks leave alone. */
  ghost predicate TasksStay(s: Sched, t: Sched) {
    t.ec == s.ec && t.rpc == s.rpc && t.part == s.part && t.rops == s.rops
  }

  lemma SendStays(s: Sched, sid: Sid, body: Bytes)
    requires CanSend(s, sid, body)
    ensures TasksStay(s, DoSend(s, sid, body))
  {
    hide PushTo;
    if body == [] {
    } else if s.ec != Success {
    } else if s.spc.SIdle? {
    }
  }

  lemma CancelStays(s: Sched, op: OpId)
    ensures CanCancelSend(s, op) ==> TasksStay(s, DoCancelSend(s, op)) && DoCancelSend(s, op).spc == s.spc
    ensures CanCancelRecv(s, op) ==> TasksStay(s, DoCancelRecv(s, op)) && DoCancelRecv(s, op).spc == s.spc
  {
    hide Finish, Without, EraseFrom, Orphaned, CanErase, sOf, rOf, Flatten;
  }

  lemma ForkStays(s: Sched, sid: Sid)
    requires CanFork(s, sid)
    ensures TasksStay(s, DoFork(s, sid)) && DoFork(s, sid).spc == s.spc
  {
    hide EmptyRing;
  }

  lemma CallStays(s: Sched, st: Step)
    requires Enabled(s, st) && (st.UFork? || st.USend? || IsCancel(st) || st.UFlush?)
    ensures TasksStay(s, Apply(s, st)) && (!st.USend? ==> Apply(s, st).spc == s.spc)
  {
    hide DoFork, DoSend, DoCancelSend, DoCancelRecv, DoFlush, CanFork, CanSend, CanCancelSend, CanCancelRecv, CanFlush;
    match st
    case UFork(sid) => ForkStays(s, sid);
    case USend(sid, body) => SendStays(s, sid, body);
    case UFlush => FlushOnly(s);
    case UCancelSend(op) => CancelStays(s, op);
    case UCancelRecv(op) => CancelStays(s, op);
  }

  lemma RecvCode(s: Sched, sid: Sid, buffer: Buffer)
    requires IsLocal(s, sid)
    ensures DoRecv(s, sid, buffer).ec == s.ec
  {
    hide WakeReceiver, PushTo;
    if s.ec == Success {
      RecvOnly(s, sid, buffer);
      hide DoRecv;
    }
  }

  /** The error of a scheduler is the first that a step records. */
  lemma FirstError(s: Sched, st: Step)
    requires Enabled(s, st)
    ensures Apply(s, st).ec == if s.ec != Success then s.ec else Recorded(s, st)
  {
    hide DoFork, DoSend, DoRecv, DoCancelSend, DoCancelRecv, DoFlush, DoClose, DoBegin, DoSendBytes, DoSendEnd,
         DoNextSend, DoRecvBytes, DoRecvEnd, DoInit, DoAsk, DoFill, DoAny, CanNextSend, CanAny, CanCancelSend,
         CanCancelRecv, CanSend, CanFork, CanFlush;
    match st
    case UClose => CloseCode(s);
    case TBegin => BeginOnly(s);
    case TSendBytes(n) => SendBytesOnly(s, n);
    case TSendEnd(e) => SendEndOnly(s, e);
    case TNextSend =>
      NextTask(s);
      NextCode(s);
    case TRecvBytes(chunk) => RecvBytesOnly(s, chunk);
    case TRecvEnd(e) => RecvEndOnly(s, e);
    case TInit => InitCode(s);
    case TAsk => AskCode(s);
    case TFill => FillOnly(s);
    case TAny =>
      AnyTask(s);
      AnyCode(s);
    case URecv(sid, buffer) => RecvCode(s, sid, buffer);
    case _ => CallStays(s, st);
  }

  lemma NextTask(s: Sched)
    requires CanNextSend(s)
    ensures s.spc.SFinish?
  {
  }

  lemma AnyTask(s: Sched)
    requires CanAny(s)
    ensures s.rpc.RGood? || s.rpc.RBad?
  {
    hide rOf;
  }

  lemma CloseCode(s: Sched)
    ensures DoClose(s).ec == if s.ec != Success then s.ec else Closed
  {
    StopCode(s, Extern, Closed);
    hide Stop;
  }

  // ---- a task is moved only by its own steps, or by the first error ------------------

  predicate OfReceiver(st: Step) {
    st.TRecvBytes? || st.TRecvEnd? || st.TInit? || st.TAsk? || st.TFill? || st.TAny?
  }

  predicate OfSender(st: Step) {
    st.TBegin? || st.TSendBytes? || st.TSendEnd? || st.TNextSend?
  }

  lemma StopMoves(s: Sched, caller: Caller, e: Code)
    ensures var t := Stop(s, caller, e);
            && t.rpc == (if s.ec == Success then StoppedRecv(s.rpc, caller, e) else s.rpc)
            && t.spc == (if s.ec == Success && s.spc.SIdle? then SDone else s.spc)
            && t.rops == s.rops && t.part == s.part
  {
    hide StoppedRecv;
    if s.ec != Success {
    }
  }

  lemma DrainSendsOnly(s: Sched, e: Code)
    ensures DrainSends(s, e).rops == s.rops && DrainRecvs(s, e).rops == s.rops
  {
    hide DrainOps, DrainAll, NoQueues, Flatten;
  }

  /** The receive task, its buffer and the recvs during a step of anyone else. */
  lemma OutsideReceiver(s: Sched, st: Step)
    requires Enabled(s, st) && !OfReceiver(st) && !st.URecv?
    ensures var t, e := Apply(s, st), Recorded(s, st);
            && t.rops == s.rops && t.part == s.part
            && t.rpc == if s.ec == Success && e != Success
                        then StoppedRecv(s.rpc, if st.UClose? then Extern else Sender, e) else s.rpc
  {
    hide DoFork, DoSend, DoCancelSend, DoCancelRecv, DoFlush, DoBegin, DoSendBytes, DoSendEnd, DoNextSend, StoppedRecv,
         CanNextSend, CanCancelSend, CanCancelRecv, CanSend, CanFork, CanFlush, Stop;
    match st
    case UClose => StopMoves(s, Extern, Closed);
    case TBegin => BeginOnly(s);
    case TSendBytes(n) => SendBytesOnly(s, n);
    case TSendEnd(e) => SendEndOnly(s, e);
    case TNextSend =>
      NextTask(s);
      NextOutside(s);
    case _ => CallStays(s, st);
  }

  lemma NextOutside(s: Sched)
    requires CanNextSend(s)
    ensures var t := DoNextSend(s);
            && t.rops == s.rops && t.part == s.part
            && t.rpc == if s.ec == Success && s.spc.ec != Success then StoppedRecv(s.rpc, Sender, Cancel) else s.rpc
  {
    hide CompleteSend, DrainSends, Stop, StartNext, StoppedRecv;
    var s1, e := CompleteSend(s), if s.spc.ec == Success then Success else Cancel;
    CompleteSendStays(s);
    StopMoves(s1, Sender, e);
    DrainCodes(Stop(s1, Sender, e), e);
    DrainSendsOnly(Stop(s1, Sender, e), e);
    StartNextOnly(s1);
  }

  /** The send task during a step of anyone else. */
  lemma OutsideSender(s: Sched, st: Step)
    requires Enabled(s, st) && !OfSender(st) && !st.USend?
    ensures Apply(s, st).spc == if s.ec == Success && Recorded(s, st) != Success && s.spc.SIdle? then SDone else s.spc
  {
    hide DoFork, DoRecv, DoCancelSend, DoCancelRecv, DoFlush, DoRecvBytes, DoRecvEnd, DoInit, DoAsk, DoFill, DoAny,
         StoppedRecv, CanAny, CanCancelSend, CanCancelRecv, CanFork, CanFlush, Stop;
    match st
    case UClose => StopMoves(s, Extern, Closed);
    case URecv(sid, buffer) => RecvSpc(s, sid, buffer);
    case TRecvBytes(chunk) => RecvBytesOnly(s, chunk);
    case TRecvEnd(e) => RecvEndOnly(s, e);
    case TInit => InitSpc(s);
    case TAsk => AskSpc(s);
    case TFill => FillOnly(s);
    case TAny =>
      AnyTask(s);
      AnySpc(s);
    case _ => CallStays(s, st);
  }

  lemma RecvSpc(s: Sched, sid: Sid, buffer: Buffer)
    requires IsLocal(s, sid)
    ensures DoRecv(s, sid, buffer).spc == s.spc
  {
    hide WakeReceiver, PushTo;
    if s.ec == Success {
      RecvOnly(s, sid, buffer);
      hide DoRecv;
    }
  }

  lemma InitSpc(s: Sched)
    requires s.rpc.RInit?
    ensures DoInit(s).spc == s.spc && DoInit(s).rops == s.rops
  {
    hide RemoteFork, BindSlot;
    if s.rpc.slot != NO_SLOT {
      RemoteSpc(s, s.rpc.sid);
      BindOnly(RemoteFork(s, s.rpc.sid), s.rpc.slot, s.rpc.sid);
    }
  }

  lemma RemoteSpc(s: Sched, sid: Sid)
    ensures sid in RemoteFork(s, sid).idMap && RemoteFork(s, sid).spc == s.spc && RemoteFork(s, sid).rops == s.rops
  {
    hide EmptyRing;
  }

  lemma AskSpc(s: Sched)
    requires s.rpc.RAsk?
    ensures DoAsk(s).spc == if s.ec == Success && s.rpc.slot !in s.remoteMap && s.spc.SIdle? then SDone else s.spc
    ensures DoAsk(s).rops == s.rops && DoAsk(s).part == s.part
  {
    hide DrainRecvs, Stop, MatchHeader, StoppedRecv;
    var t := Stop(s, Recver, BadCoprotoMessageHeader);
    StopMoves(s, Recver, BadCoprotoMessageHeader);
    DrainCodes(t, BadCoprotoMessageHeader);
    DrainSendsOnly(t, BadCoprotoMessageHeader);
    MatchOnly(s, s.rpc.size, s.rpc.slot);
    MatchOnly(DrainRecvs(t, BadCoprotoMessageHeader), s.rpc.size, s.rpc.slot);
  }

  lemma AnySpc(s: Sched)
    requires CanAny(s)
    ensures DoAny(s).spc == if s.ec == Success && CarriedError(s.rpc) != Success && s.spc.SIdle? then SDone else s.spc
  {
    hide CompleteRecv, DrainRecvs, Stop, ReadNext, CarriedError, CanAny, StoppedRecv;
    var s1, e := CompleteRecv(s), CarriedError(s.rpc);
    CompleteRecvStays(s);
    StopMoves(s1, Recver, e);
    DrainCodes(Stop(s1, Recver, e), e);
    ReadNextOnly(s1);
  }

  // ---- close ------------------------------------------------------------------------

  /** close: an error is recorded, closed if there was none; no task is parked any more; a
      receive task that waited for a recv of one fork carries the code to the next recv, and
      one that waited for any recv exits with the send task that waited for a send. */
  lemma CloseStops(root: Sid, s: Sched)
    requires Reachable(root, s)
    ensures var t := Apply(s, UClose);
            && t.ec == (if s.ec == Success then Closed else s.ec) && t.ec != Success
            && !t.spc.SIdle? && !t.rpc.RIdle? && !t.rpc.RWait?
            && (s.spc.SIdle? ==> t.spc.SDone?) && (s.rpc.RIdle? ==> t.rpc.RDone?)
            && (s.rpc.RWait? ==> t.rpc == RBad(None, Closed))
            && (!s.spc.SIdle? ==> t.spc == s.spc) && (!s.rpc.RIdle? && !s.rpc.RWait? ==> t.rpc == s.rpc)
            && t.order == s.order && t.recvQ == s.recvQ && t.q == s.q
  {
    hide Reachable, DoClose;
    ParkedNoError(root, s);
    FirstError(s, UClose);
    OutsideReceiver(s, UClose);
    OutsideSender(s, UClose);
    CloseOnly(s);
  }

  /** A parked task means that no error has been recorded. */
  lemma ParkedNoError(root: Sid, s: Sched)
    requires Reachable(root, s)
    ensures s.spc.SIdle? || s.rpc.RIdle? || s.rpc.RWait? ==> s.ec == Success
  {
    hide Reachable, IdsOf, OpsOf, ListOf, SendQOf, RecvQOf, TxOf, BodiesOf, WireOf, MetaOf, LedgerOf, RxOf, RxMapOf,
         GivenOf, OnceOf, CountsOf, FlushOf, FrontIs, MatchedOf;
    ReachableInv(root, s);
  }

  lemma {:induction false} ReachableStep(root: Sid, s: Sched, st: Step)
    requires Reachable(root, s) && Enabled(s, st)
    ensures Reachable(root, Apply(s, st))
  {
    hide Apply, Enabled, Start;
    var steps :| Runs(Start(root), steps, s);
    RunSnoc(Start(root), steps, s, st);
  }

  /** After close, over any further run: the error stays, and every call of send or recv is
      refused at once with it. */
  lemma CloseRefuses(root: Sid, s: Sched, steps: seq<Step>, t: Sched)
    requires Reachable(root, s) && Runs(Apply(s, UClose), steps, t)
    ensures t.ec == if s.ec == Success then Closed else s.ec
    ensures forall st :: Enabled(t, st) && (st.USend? || st.URecv?) ==> Refuses(t, st, t.ec)
    ensures !t.spc.SIdle? && !t.rpc.RIdle? && !t.rpc.RWait?
  {
    assert Enabled(s, UClose);
    hide Reachable, Runs, Refuses, Apply, Enabled;
    CloseStops(root, s);
    ReachableStep(root, s, UClose);
    ErrorIsFinal(root, Apply(s, UClose), steps, t);
    ReachableRun(root, Apply(s, UClose), steps, t);
    ParkedNoError(root, t);
  }

  lemma {:induction false} ReachableRun(root: Sid, s: Sched, steps: seq<Step>, t: Sched)
    requires Reachable(root, s) && Runs(s, steps, t)
    ensures Reachable(root, t)
    decreases |steps|
  {
    hide Reachable, Apply, Enabled;
    if steps != [] {
      ReachableStep(root, s, steps[0]);
      ReachableRun(root, Apply(s, steps[0]), steps[1..], t);
    }
  }

  // ---- the code a task carries ---------------------------------------------------------

  /** A send task whose transfer has ended goes on only at its next await. */
  lemma {:induction false} FinishStays(s: Sched, steps: seq<Step>, t: Sched)
    requires Runs(s, steps, t) && s.spc.SFinish? && TNextSend !in steps
    ensures t.spc == s.spc
    decreases |steps|
  {
    hide Apply, Enabled, Recorded;
    if steps != [] {
      var st := steps[0];
      FinishStep(s, st);
      assert forall x :: x in steps[1..] ==> x in steps;
      FinishStays(Apply(s, st), steps[1..], t);
    }
  }

  lemma FinishStep(s: Sched, st: Step)
    requires Enabled(s, st) && s.spc.SFinish? && st != TNextSend
    ensures Apply(s, st).spc == s.spc
  {
    hide Recorded, DoSend;
    if st.USend? {
      SendSpc(s, st.sid, st.body);
    } else if !OfSender(st) {
      hide Apply, Enabled;
      OutsideSender(s, st);
    }
  }

  lemma SendSpc(s: Sched, sid: Sid, body: Bytes)
    requires CanSend(s, sid, body) && !s.spc.SIdle?
    ensures DoSend(s, sid, body).spc == s.spc
  {
    hide PushTo;
    if body == [] {
    }
  }

  /** A receive task that has failed goes on only at its next await. */
  lemma {:induction false} BadStays(s: Sched, steps: seq<Step>, t: Sched)
    requires Runs(s, steps, t) && s.rpc.RBad? && TAny !in steps
    ensures t.rpc == s.rpc
    decreases |steps|
  {
    hide Apply, Enabled, Recorded;
    if steps != [] {
      var st := steps[0];
      BadStep(s, st);
      assert forall x :: x in steps[1..] ==> x in steps;
      BadStays(Apply(s, st), steps[1..], t);
    }
  }

  lemma BadStep(s: Sched, st: Step)
    requires Enabled(s, st) && s.rpc.RBad? && st != TAny
    ensures Apply(s, st).rpc == s.rpc
  {
    hide Recorded, DoRecv, DoFork, DoSend, DoCancelSend, DoCancelRecv, DoFlush, DoClose, DoBegin, DoSendBytes,
         DoSendEnd, DoNextSend, CanNextSend, CanCancelSend, CanCancelRecv, CanSend, CanFork, CanFlush;
    if st.URecv? {
      RecvRpc(s, st.sid, st.buffer);
    } else if !OfReceiver(st) {
      OutsideReceiver(s, st);
    }
  }

  lemma RecvRpc(s: Sched, sid: Sid, buffer: Buffer)
    requires IsLocal(s, sid) && !s.rpc.RIdle? && !s.rpc.RWait?
    ensures DoRecv(s, sid, buffer).rpc == s.rpc
  {
    hide QueueRecv;
    assert QueueRecv(s, sid, buffer).forks == s.forks && QueueRecv(s, sid, buffer).rpc == s.rpc by {
      QueueRecvOnly(s, sid, buffer);
    }
  }

  lemma QueueRecvOnly(s: Sched, sid: Sid, buffer: Buffer)
    requires IsLocal(s, sid)
    ensures var t := QueueRecv(s, sid, buffer); t.forks == s.forks && t.rpc == s.rpc && t.part == s.part && t.ec == s.ec
  {
    hide PushTo;
  }

  /** A send whose transfer failed is completed with the code of the transport, whatever
      comes before the task goes on, and first of all that its stopping task fails. */
  lemma SendCode(root: Sid, s: Sched, e: Code, more: seq<Step>, t: Sched)
    requires Reachable(root, s) && Enabled(s, TSendEnd(e)) && e != Success
    requires Runs(Apply(s, TSendEnd(e)), more, t) && TNextSend !in more
    ensures Enabled(t, TNextSend) && s.order != [] && s.order[0] == s.spc.op
    ensures var u := Apply(t, TNextSend);
            && u.spc.SDone? && u.order == []
            && Fails(u.q.log, SendDir) == Fails(t.q.log, SendDir) + [(s.order[0], e)] + Coded(t.order[1..], Cancel)
  {
    hide Reachable, Runs, Coded, Fails, Start;
    SendAtWork(root, s);
    SendEndCode(s, e);
    ReachableStep(root, s, TSendEnd(e));
    FinishStays(Apply(s, TSendEnd(e)), more, t);
    ReachableRun(root, Apply(s, TSendEnd(e)), more, t);
    AssertionsHold(root, t);
    hide Apply, Enabled;
    NextFails(root, t);
  }

  lemma SendAtWork(root: Sid, s: Sched)
    requires Reachable(root, s)
    ensures !s.spc.SIdle? && !s.spc.SDone? ==> s.order != [] && s.order[0] == s.spc.op
  {
    hide Reachable, IdsOf, OpsOf, ListOf, SendQOf, RecvQOf, TxOf, BodiesOf, WireOf, MetaOf, LedgerOf, RxOf, RxMapOf,
         GivenOf, OnceOf, CountsOf, FlushOf, RecvPcOf;
    ReachableInv(root, s);
  }

  lemma SendEndCode(s: Sched, e: Code)
    requires CanSendEnd(s, e) && e != Success
    ensures DoSendEnd(s, e).spc == SFinish(s.spc.op, e)
  {
    hide sOf;
  }

  lemma NextFails(root: Sid, t: Sched)
    requires Reachable(root, t) && Enabled(t, TNextSend) && t.spc.SFinish? && t.spc.ec != Success
    ensures t.order != []
    ensures var u := Apply(t, TNextSend);
            && u.spc.SDone? && u.order == []
            && Fails(u.q.log, SendDir) == Fails(t.q.log, SendDir) + [(t.spc.op, t.spc.ec)] + Coded(t.order[1..], Cancel)
  {
    hide Reachable, Fails, Coded, DoNextSend;
    StepAdds(t, TNextSend);
    NextStops(t);
    ReachableStep(root, t, TNextSend);
    SendAtWork(root, t);
    DoneEmpty(root, DoNextSend(t));
    assert Fails(t.q.log, SendDir) + ([(t.spc.op, t.spc.ec)] + Coded(t.order[1..], Cancel))
           == Fails(t.q.log, SendDir) + [(t.spc.op, t.spc.ec)] + Coded(t.order[1..], Cancel);
  }

  lemma DoneEmpty(root: Sid, s: Sched)
    requires Reachable(root, s)
    ensures s.spc.SDone? ==> s.order == []
    ensures s.rpc.RDone? ==> s.numRecvs == 0
  {
    hide Reachable, Inv;
    ReachableInv(root, s);
    Exited(s);
  }

  // ---- why a receive task fails ----------------------------------------------------------

  /** The message announces a slot the protocol reserves, or a session announced before. */
  ghost predicate Malformed(rx: seq<Frame>, slot: nat, sid: Sid) {
    slot == NO_SLOT || exists k :: k in Slots(rx) && Slots(rx)[k] == sid
  }

  /** The recv a step makes the receive task fail, if it has one, and the code: that of the
      transport, the bad size of a buffer, the bad header of a message that cannot be used,
      or the error for which a waiting task is stopped. */
  ghost function Cause(s: Sched, st: Step): Option<(Option<OpId>, Code)> {
    match st
    case TRecvEnd(e) =>
      if e != Success && Reading(s) then Some((if s.rpc.RBody? then Some(s.rpc.op) else None, e)) else None
    case TFill =>
      if s.rpc.RMatched? && s.rpc.op in s.rops && !Fits(s.rops[s.rpc.op].buffer, s.rpc.size)
      then Some((Some(s.rpc.op), BadBufferSize)) else None
    case TInit =>
      if s.rpc.RInit? && Malformed(s.h.rx, s.rpc.slot, s.rpc.sid) then Some((None, BadCoprotoMessageHeader)) else None
    case TAsk =>
      if !s.rpc.RAsk? then None
      else if s.ec != Success then Some((None, s.ec))
      else if s.rpc.slot !in Slots(s.h.rx) then Some((None, BadCoprotoMessageHeader))
      else None
    case UClose => if s.ec == Success && s.rpc.RWait? then Some((None, Closed)) else None
    case TNextSend =>
      if s.ec == Success && s.rpc.RWait? && s.spc.SFinish? && s.spc.ec != Success then Some((None, Cancel)) else None
    case _ => None
  }

  lemma KnownSlots(s: Sched)
    requires Inv(s)
    ensures forall slot :: slot in s.remoteMap <==> slot in Slots(s.h.rx)
    ensures forall slot :: slot in s.remoteMap ==> slot < NO_SLOT && s.remoteMap[slot] < |s.recvQ| == |s.forks|
    ensures forall sid :: sid in s.idMap ==>
              s.idMap[sid] < |s.forks|
              && (s.forks[s.idMap[sid]].remoteId != NO_SLOT <==>
                    exists k :: k in Slots(s.h.rx) && Slots(s.h.rx)[k] == sid)
    ensures forall sid :: sid !in s.idMap ==> forall k :: k in Slots(s.h.rx) ==> Slots(s.h.rx)[k] != sid
  {
    hide OpsOf, ListOf, SendPcOf, SendQOf, RecvQOf, RecvPcOf, TxOf, BodiesOf, WireOf, MetaOf, LedgerOf, RxOf,
         GivenOf, OnceOf, CountsOf, FlushOf, Slots;
    assert forall k :: k in Slots(s.h.rx) ==>
                         s.forks[s.remoteMap[k]].remoteId == k && s.forks[s.remoteMap[k]].sid == Slots(s.h.rx)[k];
    forall sid | sid in s.idMap && s.forks[s.idMap[sid]].remoteId != NO_SLOT
      ensures exists k :: k in Slots(s.h.rx) && Slots(s.h.rx)[k] == sid
    {
      assert Slots(s.h.rx)[s.forks[s.idMap[sid]].remoteId] == sid;
    }
  }

  lemma InitFails(s: Sched)
    requires Inv(s) && s.rpc.RInit?
    ensures Malformed(s.h.rx, s.rpc.slot, s.rpc.sid) ==> DoInit(s).rpc == RBad(None, BadCoprotoMessageHeader)
    ensures !Malformed(s.h.rx, s.rpc.slot, s.rpc.sid) ==>
              DoInit(s).rpc == if s.rpc.slot in Slots(s.h.rx) then RCrash else RHead
  {
    KnownSlots(s);
    hide Inv, Slots, EmptyRing;
    var slot, sid := s.rpc.slot, s.rpc.sid;
    if slot != NO_SLOT {
      var t := RemoteFork(s, sid);
      RemoteOnly(s, sid);
      hide RemoteFork;
      BindRpc(t, slot, sid);
    }
  }

  lemma RemoteOnly(s: Sched, sid: Sid)
    requires forall x :: x in s.idMap ==> s.idMap[x] < |s.forks|
    ensures var t := RemoteFork(s, sid);
            && sid in t.idMap && t.idMap[sid] < |t.forks| && t.remoteMap == s.remoteMap && t.rpc == s.rpc && t.h == s.h
            && t.forks[t.idMap[sid]].remoteId == if sid in s.idMap then s.forks[s.idMap[sid]].remoteId else NO_SLOT
  {
    hide EmptyRing;
  }

  lemma BindRpc(s: Sched, slot: nat, sid: Sid)
    requires sid in s.idMap && s.idMap[sid] < |s.forks|
    ensures BindSlot(s, slot, sid).rpc
            == if s.forks[s.idMap[sid]].remoteId != NO_SLOT then RBad(None, BadCoprotoMessageHeader)
               else if slot in s.remoteMap then RCrash else RHead
  {
  }

  lemma MatchRpc(s: Sched, size: nat, slot: nat)
    ensures s.ec != Success ==> MatchHeader(s, size, slot).rpc == RBad(None, s.ec)
    ensures s.ec == Success ==> !MatchHeader(s, size, slot).rpc.RBad?
  {
    if s.ec == Success && slot in s.remoteMap && s.remoteMap[slot] < |s.recvQ| {
    }
  }

  lemma AskFails(s: Sched)
    requires Inv(s) && s.rpc.RAsk?
    ensures s.ec != Success ==> DoAsk(s).rpc == RBad(None, s.ec)
    ensures s.ec == Success && s.rpc.slot !in Slots(s.h.rx) ==> DoAsk(s).rpc == RBad(None, BadCoprotoMessageHeader)
    ensures s.ec == Success && s.rpc.slot in Slots(s.h.rx) ==> !DoAsk(s).rpc.RBad?
  {
    KnownSlots(s);
    hide Inv, Slots, DrainRecvs, Stop, MatchHeader;
    var t := Stop(s, Recver, BadCoprotoMessageHeader);
    StopCode(s, Recver, BadCoprotoMessageHeader);
    DrainCodes(t, BadCoprotoMessageHeader);
    MatchRpc(s, s.rpc.size, s.rpc.slot);
    MatchRpc(DrainRecvs(t, BadCoprotoMessageHeader), s.rpc.size, s.rpc.slot);
  }

  lemma FillFails(s: Sched)
    requires s.rpc.RMatched? && s.rpc.op in s.rops
    ensures DoFill(s).rpc == if Fits(s.rops[s.rpc.op].buffer, s.rpc.size) then RBody(s.rpc.op, s.rpc.size, s.rpc.slot)
                             else RBad(Some(s.rpc.op), BadBufferSize)
  {
    hide Fits;
  }

  lemma OwnRpc(s: Sched, st: Step)
    requires Inv(s) && Enabled(s, st) && OfReceiver(st) && st != TAny
    ensures Apply(s, st).rpc.RBad? <==> Cause(s, st).Some?
    ensures Cause(s, st).Some? ==> Apply(s, st).rpc == RBad(Cause(s, st).value.0, Cause(s, st).value.1)
  {
    hide Inv, DoRecvBytes, DoInit, DoAsk, DoFill, Slots, Malformed, Fits, HeaderSize, HeaderSlot;
    match st
    case TRecvBytes(chunk) => RecvBytesOnly(s, chunk);
    case TRecvEnd(e) =>
    case TInit => InitFails(s);
    case TAsk => AskFails(s);
    case TFill => FillFails(s);
  }

  lemma AnyRpc(s: Sched)
    requires CanAny(s)
    ensures !DoAny(s).rpc.RBad?
  {
    hide CompleteRecv, DrainRecvs, Stop;
  }

  lemma WokenRpc(s: Sched, sid: Sid, buffer: Buffer)
    requires IsLocal(s, sid) && !s.rpc.RBad?
    ensures !DoRecv(s, sid, buffer).rpc.RBad?
  {
    hide PushTo, QueueRecv;
    QueueRecvOnly(s, sid, buffer);
  }

  /** The receive task fails exactly for the causes above. */
  lemma FailsFor(s: Sched, st: Step)
    requires Inv(s) && Enabled(s, st) && !s.rpc.RBad?
    ensures Apply(s, st).rpc.RBad? <==> Cause(s, st).Some?
    ensures Cause(s, st).Some? ==> Apply(s, st).rpc == RBad(Cause(s, st).value.0, Cause(s, st).value.1)
  {
    hide Inv, DoRecv, DoAny, CanAny;
    if st.URecv? {
      WokenRpc(s, st.sid, st.buffer);
    } else if st == TAny {
      AnyRpc(s);
    } else if OfReceiver(st) {
      hide Apply, Enabled, Cause;
      OwnRpc(s, st);
    } else {
      OutsideReceiver(s, st);
      hide Apply, Enabled;
    }
  }

  /** What a failed receive task reports at its next await, whatever comes before: its own
      recv fails with the code it carries and all others with cancel, or without an own recv
      the first one pending fails with the code; and that code, or cancel, is recorded if it
      is the first error. */
  lemma RecvCodes(root: Sid, s: Sched, st: Step, more: seq<Step>, t: Sched)
    requires Reachable(root, s) && Enabled(s, st) && !s.rpc.RBad? && Cause(s, st).Some?
    requires Runs(Apply(s, st), more, t) && TAny !in more
    ensures Enabled(t, TAny)
    ensures var u, prev, e := Apply(t, TAny), Cause(s, st).value.0, Cause(s, st).value.1;
            && u.rpc.RDone? && u.numRecvs == 0
            && Fails(u.q.log, RecvDir)
               == Fails(t.q.log, RecvDir)
                  + (if prev.Some? then [(prev.value, e)] + Coded(LeftRecvs(t, prev.value), Cancel)
                     else Coded(Flatten(t.recvQ), e))
            && u.ec == if t.ec != Success then t.ec else if prev.Some? then Cancel else e
  {
    hide Reachable, Inv, Runs, Coded, Fails, Start, Cause, LeftRecvs, Flatten, Enabled, Apply;
    ReachableInv(root, s);
    FailsFor(s, st);
    ReachableStep(root, s, st);
    BadStays(Apply(s, st), more, t);
    ReachableRun(root, Apply(s, st), more, t);
    AnyReady(root, t);
    AnyFails(root, t);
  }

  lemma AnyReady(root: Sid, t: Sched)
    requires Reachable(root, t) && t.rpc.RBad?
    ensures Enabled(t, TAny) && t.rpc.ec != Success
  {
    hide Reachable, CanAny, Inv;
    AssertionsHold(root, t);
    ReachableInv(root, t);
    AnyFacts(t);
  }

  lemma AnyFails(root: Sid, t: Sched)
    requires Reachable(root, t) && Enabled(t, TAny) && t.rpc.RBad? && t.rpc.ec != Success
    ensures var u := Apply(t, TAny);
            && u.rpc.RDone? && u.numRecvs == 0
            && Fails(u.q.log, RecvDir)
               == Fails(t.q.log, RecvDir)
                  + (match t.rpc.prev
                     case Some(op) => [(op, t.rpc.ec)] + Coded(LeftRecvs(t, op), Cancel)
                     case None => Coded(Flatten(t.recvQ), t.rpc.ec))
            && u.ec == if t.ec != Success then t.ec else if t.rpc.prev.Some? then Cancel else t.rpc.ec
  {
    hide Reachable, Fails, Coded, DoAny, CanAny, LeftRecvs, Flatten;
    StepAdds(t, TAny);
    AnyStops(t);
    FirstError(t, TAny);
  }

  // ---- nothing is left waiting --------------------------------------------------------------

  /** Once an error has been recorded the send task can always finish, in at most three more
      steps, and no send is left. */
  lemma SenderFinishes(root: Sid, s: Sched) returns (steps: seq<Step>, t: Sched)
    requires Reachable(root, s) && s.ec != Success
    ensures Runs(s, steps, t) && |steps| <= 3 && t.spc.SDone? && t.order == []
  {
    hide Reachable, Apply, Enabled, Runs;
    ParkedNoError(root, s);
    steps, t := [], s;
    NoSteps(s);
    if t.spc.SGot? {
      var u := SendStep(root, t, TBegin);
      RunSnoc(s, steps, t, TBegin);
      steps, t := steps + [TBegin], u;
    }
    if t.spc.SMeta? || t.spc.SHead? || t.spc.SBody? {
      var u := SendStep(root, t, TSendEnd(Cancel));
      RunSnoc(s, steps, t, TSendEnd(Cancel));
      steps, t := steps + [TSendEnd(Cancel)], u;
    }
    if t.spc.SFinish? {
      var u := SendStep(root, t, TNextSend);
      RunSnoc(s, steps, t, TNextSend);
      steps, t := steps + [TNextSend], u;
    }
    DoneEmpty(root, t);
  }

  lemma NoSteps(s: Sched)
    ensures Runs(s, [], s)
  {
  }

  /** One step of a send task after an error. */
  lemma SendStep(root: Sid, s: Sched, st: Step) returns (t: Sched)
    requires Reachable(root, s) && s.ec != Success
    requires || (st == TBegin && s.spc.SGot?)
             || (st == TSendEnd(Cancel) && (s.spc.SMeta? || s.spc.SHead? || s.spc.SBody?))
             || (st == TNextSend && s.spc.SFinish?)
    ensures Enabled(s, st) && t == Apply(s, st) && Reachable(root, t) && t.ec != Success
    ensures st == TBegin ==> t.spc.SMeta? || t.spc.SHead?
    ensures st == TSendEnd(Cancel) ==> t.spc.SFinish?
    ensures st == TNextSend ==> t.spc.SDone?
  {
    hide Reachable, Recorded, DoNextSend;
    AssertionsHold(root, s);
    SendEndable(root, s);
    FirstError(s, st);
    ReachableStep(root, s, st);
    if st == TNextSend {
      NextStops(s);
    }
    t := Apply(s, st);
    hide CanSendEnd, CanBegin, CanNextSend, Header, EncFrame;
  }

  lemma SendEndable(root: Sid, s: Sched)
    requires Reachable(root, s)
    ensures s.spc.SMeta? || s.spc.SHead? || s.spc.SBody? ==> CanSendEnd(s, Cancel)
  {
    hide Reachable, RecvQOf, RecvPcOf, TxOf, BodiesOf, MetaOf, LedgerOf, RxOf, RxMapOf, GivenOf, OnceOf, CountsOf,
         FlushOf, Encode, EncFrame, Header;
    ReachableInv(root, s);
  }

  /** One step of a receive task after an error. */
  lemma RecvStep(root: Sid, s: Sched, st: Step) returns (t: Sched)
    requires Reachable(root, s) && s.ec != Success
    requires || (st == TFill && s.rpc.RMatched?) || (st == TInit && s.rpc.RInit?) || (st == TAsk && s.rpc.RAsk?)
             || (st == TRecvEnd(Cancel) && Reading(s)) || (st == TAny && (s.rpc.RGood? || s.rpc.RBad?))
    ensures Enabled(s, st) && t == Apply(s, st) && Reachable(root, t) && t.ec != Success
    ensures st == TFill ==> t.rpc.RBody? || t.rpc.RBad?
    ensures st == TInit ==> t.rpc.RHead? || t.rpc.RBad? || t.rpc.RCrash?
    ensures st == TAsk || st == TRecvEnd(Cancel) ==> t.rpc.RBad?
    ensures st == TAny ==> t.rpc.RDone?
  {
    hide Reachable, Inv, Recorded, DoAny, DoAsk, DoInit, CanAny, Malformed, Fits;
    ReachableInv(root, s);
    AssertionsHold(root, s);
    RecvEndable(root, s);
    FirstError(s, st);
    ReachableStep(root, s, st);
    t := Apply(s, st);
    if st == TInit {
      InitFails(s);
    } else if st == TAsk {
      AskFails(s);
    } else if st == TAny {
      AnyStops(s);
    }
    hide CanRecvEnd;
  }

  lemma RecvEndable(root: Sid, s: Sched)
    requires Reachable(root, s)
    ensures Reading(s) ==> CanRecvEnd(s, Cancel)
  {
    hide Reachable, IdsOf, OpsOf, ListOf, SendPcOf, SendQOf, RecvQOf, RecvPcOf, TxOf, BodiesOf, WireOf, MetaOf, LedgerOf,
         RxMapOf, GivenOf, OnceOf, CountsOf, FlushOf, Encode, Header, ValidFrames, Announced;
    ReachableInv(root, s);
  }

  /** Once an error has been recorded the receive task can always finish too, in at most
      three more steps, and no recv is left, unless an assertion of the code fails. */
  lemma ReceiverFinishes(root: Sid, s: Sched) returns (steps: seq<Step>, t: Sched)
    requires Reachable(root, s) && s.ec != Success
    ensures Runs(s, steps, t) && |steps| <= 3 && (t.rpc.RCrash? || (t.rpc.RDone? && t.numRecvs == 0))
  {
    hide Reachable, Apply, Enabled, Runs, Reading;
    ParkedNoError(root, s);
    steps, t := [], s;
    NoSteps(s);
    if t.rpc.RMatched? || t.rpc.RInit? || t.rpc.RAsk? {
      var st := if t.rpc.RMatched? then TFill else if t.rpc.RInit? then TInit else TAsk;
      var u := RecvStep(root, t, st);
      RunSnoc(s, steps, t, st);
      steps, t := steps + [st], u;
    }
    if t.rpc.RHead? || t.rpc.RMeta? || t.rpc.RBody? {
      ReadsOn(t);
      var u := RecvStep(root, t, TRecvEnd(Cancel));
      RunSnoc(s, steps, t, TRecvEnd(Cancel));
      steps, t := steps + [TRecvEnd(Cancel)], u;
    }
    if t.rpc.RGood? || t.rpc.RBad? {
      var u := RecvStep(root, t, TAny);
      RunSnoc(s, steps, t, TAny);
      steps, t := steps + [TAny], u;
    }
    DoneEmpty(root, t);
  }

  lemma ReadsOn(s: Sched)
    ensures Reading(s) <==> s.rpc.RHead? || s.rpc.RMeta? || s.rpc.RBody?
  {
  }

  // ---- the stop callback of an operation that has started -------------------------------------

  /** It completes nothing: the operation, marked, stays pending, and a send that has started
      is the one at work. */
  lemma StartedStays(root: Sid, s: Sched, st: Step)
    requires Reachable(root, s) && Enabled(s, st) && IsCancel(st)
    ensures st.op in s.status
    ensures s.status[st.op] != NotStarted ==>
              && Apply(s, st) == s.(status := s.status[st.op := Canceling])
              && IsPending(st.op, s.order, s.recvQ)
              && (st.UCancelSend? ==> s.order[0] == st.op && !s.spc.SIdle? && !s.spc.SDone? && s.spc.op == st.op)
  {
    hide Reachable, Finish, Without, EraseFrom, Orphaned, CanErase, sOf, rOf, Flatten;
    SendAtWork(root, s);
    SendListAgrees(root, s);
    ParkedNoError(root, s);
    DoneEmpty(root, s);
    AssertionsHold(root, s);
    if st.UCancelSend? {
    }
  }
}
