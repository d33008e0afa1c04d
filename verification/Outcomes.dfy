/** Every handle in the execution queue reports a result that its operation may have. */
module Outcomes {
  import opened Common
  import opened Framing
  import opened Streams
  import opened Scheduler
  import opened Lists
  import opened Invariants
  import opened Shapes
  import opened QueueProofs
  import opened StreamProofs
  import opened FlushProofs
  import opened Follow
  import opened Endpoint
  import opened Blocks
  import opened Newest
  import opened Failures
  import opened Errors
  import opened Results

  /** The transport has taken the message of a send: the first `i` frames begun, which are
      wholly on the wire, carry the bodies of the sends begun up to it, on their sessions. */
  ghost predicate OnWire(tx: seq<Frame>, begun: seq<OpId>, sops: map<OpId, SendOp>, sent: Bytes, op: OpId) {
    exists k, i :: 0 <= k < |begun| && 0 <= i <= |tx| && begun[k] == op && WireUpTo(tx, begun, sops, sent, k, i)
  }

  ghost predicate WireUpTo(tx: seq<Frame>, begun: seq<OpId>, sops: map<OpId, SendOp>, sent: Bytes, k: nat, i: nat)
    requires k < |begun| && i <= |tx|
  {
    BodiesOf(tx[..i], begun[..k + 1], sops) && Encode(tx[..i]) <= sent
  }

  /** The result is one the operation may have. */
  ghost predicate Rightful(s: Sched, op: OpId, r: Result) {
    match r
    case Sent => op in s.sops && OnWire(s.h.tx, s.h.begun, s.sops, s.h.sent, op)
    case Received(sid, body) => op in s.rops && s.rops[op].sid == sid && Fits(s.rops[op].buffer, |body|)
    case Refused(_) => op !in s.sops && op !in s.rops
    case Withdrawn => op in s.h.withdrawn || op in s.rops
    case Failed(dir, _) => if dir.SendDir? then op in s.sops else op in s.rops
  }

  ghost predicate LogOk(s: Sched, log: seq<Handle>) {
    forall k :: 0 <= k < |log| && log[k].OpDone? ==> Rightful(s, log[k].op, log[k].result)
  }

  // ---- logs ---------------------------------------------------------------------

  lemma OkAppend(s: Sched, log: seq<Handle>, more: seq<Handle>)
    requires LogOk(s, log) && LogOk(s, more)
    ensures LogOk(s, log + more)
  {
    hide Rightful;
  }

  lemma OkOne(s: Sched, op: OpId, r: Result)
    requires Rightful(s, op, r)
    ensures LogOk(s, [OpDone(op, r)])
  {
    hide Rightful;
  }

  lemma OkFired(s: Sched, tokens: seq<set<OpId>>, op: OpId)
    ensures LogOk(s, Fired(tokens, op, 0))
  {
    hide Rightful;
    var f := Fired(tokens, op, 0);
    forall k | 0 <= k < |f|
      ensures f[k].FlushDone?
    {
      var u := FiredEntry(tokens, op, 0, k);
    }
  }

  lemma OkFinish(s: Sched, q: Queued, op: OpId, r: Result)
    requires LogOk(s, q.log) && Rightful(s, op, r)
    ensures LogOk(s, Finish(q, op, r).log)
  {
    hide Rightful, Fired;
    OkOne(s, op, r);
    OkFired(s, q.tokens, op);
    hide LogOk;
    OkAppend(s, q.log, [OpDone(op, r)]);
    OkAppend(s, q.log + [OpDone(op, r)], Fired(q.tokens, op, 0));
  }

  lemma {:induction false} OkDrain(s: Sched, q: Queued, ops: seq<OpId>, dir: Dir, e: Code)
    requires LogOk(s, q.log)
    requires forall op :: op in ops ==> if dir.SendDir? then op in s.sops else op in s.rops
    ensures LogOk(s, DrainOps(q, ops, dir, e).log)
    decreases |ops|
  {
    hide LogOk, Finish;
    if ops != [] {
      assert ops[0] in ops;
      OkFinish(s, q, ops[0], Failed(dir, e));
      OkDrain(s, Finish(q, ops[0], Failed(dir, e)), ops[1..], dir, Cancel);
    }
  }

  // ---- what was right stays right ---------------------------------------------------

  /** Operations are only added, with new numbers, and history only grows. */
  ghost predicate MoreKnown(s: Sched, t: Sched) {
    && s.h.tx <= t.h.tx && s.h.begun <= t.h.begun && s.h.sent <= t.h.sent && s.h.withdrawn <= t.h.withdrawn
    && (t.sops == s.sops || (s.nextOp in t.sops && t.sops == s.sops[s.nextOp := t.sops[s.nextOp]]))
    && (t.rops == s.rops || (s.nextOp in t.rops && t.rops == s.rops[s.nextOp := t.rops[s.nextOp]]))
  }

  lemma WireStays(s: Sched, t: Sched, op: OpId)
    requires MoreKnown(s, t) && s.nextOp !in s.sops
    requires OnWire(s.h.tx, s.h.begun, s.sops, s.h.sent, op)
    ensures OnWire(t.h.tx, t.h.begun, t.sops, t.h.sent, op)
  {
    hide BodiesOf, Encode;
    var k, i :| 0 <= k < |s.h.begun| && 0 <= i <= |s.h.tx| && s.h.begun[k] == op
                && WireUpTo(s.h.tx, s.h.begun, s.sops, s.h.sent, k, i);
    assert t.h.tx[..i] == s.h.tx[..i] && t.h.begun[..k + 1] == s.h.begun[..k + 1];
    if t.sops != s.sops {
      BodiesFresh(s.h.tx[..i], s.h.begun[..k + 1], s.sops, s.nextOp, t.sops[s.nextOp]);
    }
    assert WireUpTo(t.h.tx, t.h.begun, t.sops, t.h.sent, k, i);
  }

  lemma RightfulStays(s: Sched, t: Sched, op: OpId, r: Result)
    requires MoreKnown(s, t) && s.nextOp !in s.sops && s.nextOp !in s.rops && op < s.nextOp && Rightful(s, op, r)
    ensures Rightful(t, op, r)
  {
    hide Fits;
    if r.Sent? {
      WireStays(s, t, op);
    }
    hide OnWire;
  }

  lemma OkStays(s: Sched, t: Sched)
    requires Inv(s) && MoreKnown(s, t) && LogOk(s, s.q.log)
    ensures LogOk(t, s.q.log)
  {
    hide MoreKnown, Rightful, Inv;
    OpsBelow(s);
    forall k | 0 <= k < |s.q.log| && s.q.log[k].OpDone?
      ensures Rightful(t, s.q.log[k].op, s.q.log[k].result)
    {
      DoneBefore(s, k);
      RightfulStays(s, t, s.q.log[k].op, s.q.log[k].result);
    }
  }

  lemma DoneBefore(s: Sched, k: nat)
    requires Inv(s) && k < |s.q.log| && s.q.log[k].OpDone?
    ensures s.q.log[k].op < s.nextOp
  {
    InvOnce(s);
    hide Inv, OnceOf;
    OnceFor(s, s.q.log[k].op);
    assert IsDone(s.q.log[k].op, s.q.log);
  }

  // ---- the send at work -------------------------------------------------------------

  /** Once its data message has begun, the send at work is the last one begun. */
  ghost predicate HeadBegun(s: Sched) {
    s.h.headBegun ==>
      && (s.spc.SHead? || s.spc.SBody? || s.spc.SFinish?)
      && s.h.begun != [] && s.h.begun[|s.h.begun| - 1] == s.spc.op
  }

  /** What only the send task and its stop callbacks change of the history. */
  ghost predicate SendsStay(s: Sched, t: Sched) {
    && t.h.tx == s.h.tx && t.h.begun == s.h.begun && t.h.sent == s.h.sent && t.h.headBegun == s.h.headBegun
    && s.h.withdrawn <= t.h.withdrawn
  }

  lemma SendHistory(s: Sched, sid: Sid, body: Bytes)
    requires CanSend(s, sid, body)
    ensures SendsStay(s, DoSend(s, sid, body))
  {
    hide PushTo;
    if body == [] {
    } else if s.ec != Success {
    } else if s.spc.SIdle? {
    }
  }

  lemma ForkHistory(s: Sched, sid: Sid)
    requires CanFork(s, sid)
    ensures SendsStay(s, DoFork(s, sid))
  {
    hide EmptyRing;
  }

  lemma CancelHistory(s: Sched, op: OpId)
    ensures CanCancelSend(s, op) ==> SendsStay(s, DoCancelSend(s, op))
    ensures CanCancelRecv(s, op) ==> SendsStay(s, DoCancelRecv(s, op))
    ensures CanCancelSend(s, op) && s.status[op].NotStarted? ==> op in DoCancelSend(s, op).h.withdrawn
  {
    hide Finish, Without, EraseFrom, Orphaned, CanErase, sOf, rOf, Flatten;
  }

  lemma RecvHistory(s: Sched, sid: Sid, buffer: Buffer)
    requires IsLocal(s, sid)
    ensures DoRecv(s, sid, buffer).h == s.h
  {
    hide WakeReceiver, PushTo;
    if s.ec == Success {
      RecvOnly(s, sid, buffer);
      hide DoRecv;
    }
  }

  lemma InitHistory(s: Sched)
    requires s.rpc.RInit?
    ensures SendsStay(s, DoInit(s))
  {
    hide RemoteFork, BindSlot;
    if s.rpc.slot != NO_SLOT {
      RemoteHistory(s, s.rpc.sid);
      BindHistory(RemoteFork(s, s.rpc.sid), s.rpc.slot, s.rpc.sid);
    }
  }

  lemma RemoteHistory(s: Sched, sid: Sid)
    ensures sid in RemoteFork(s, sid).idMap && RemoteFork(s, sid).h == s.h
  {
    hide EmptyRing;
  }

  lemma BindHistory(s: Sched, slot: nat, sid: Sid)
    requires sid in s.idMap
    ensures SendsStay(s, BindSlot(s, slot, sid))
  {
    var i := s.idMap[sid];
    if i >= |s.forks| {
    } else if s.forks[i].remoteId != NO_SLOT {
    } else if slot in s.remoteMap {
    }
  }

  lemma AskHistory(s: Sched)
    requires s.rpc.RAsk?
    ensures DoAsk(s).h == s.h
  {
    hide DrainOps, DrainAll, NoQueues, Flatten, MatchHeader, StoppedRecv;
    var t := DrainRecvs(Stop(s, Recver, BadCoprotoMessageHeader), BadCoprotoMessageHeader);
    MatchOnly(s, s.rpc.size, s.rpc.slot);
    MatchOnly(t, s.rpc.size, s.rpc.slot);
  }

  lemma AnyHistory(s: Sched)
    requires CanAny(s)
    ensures SendsStay(s, DoAny(s))
  {
    hide CompleteRecv, StopReading, ReadNext, CanAny;
    var s1, e := CompleteRecv(s), CarriedError(s.rpc);
    CompleteHistory(s);
    StopHistory(s1, e);
    ReadNextOnly(s1);
  }

  lemma CompleteHistory(s: Sched)
    requires CanAny(s)
    ensures SendsStay(s, CompleteRecv(s))
  {
    hide Finish, PopFrom, rOf;
    if s.rpc.RGood? {
    } else if s.rpc.prev.Some? {
    }
  }

  lemma StopHistory(s: Sched, e: Code)
    ensures StopReading(s, e).h == s.h && StopSending(s, e).h == s.h
  {
    StopOnly(s, Recver, e);
    StopOnly(s, Sender, e);
    hide Stop, DrainOps, DrainAll, NoQueues, Flatten;
  }

  lemma OtherHistory(s: Sched, st: Step)
    requires Enabled(s, st) && !OfSender(st)
    ensures SendsStay(s, Apply(s, st))
  {
    hide DoFork, DoSend, DoRecv, DoCancelSend, DoCancelRecv, DoFlush, DoClose, DoRecvBytes, DoRecvEnd, DoInit, DoAsk,
         DoFill, DoAny, CanAny, CanFlush, CanSend, CanFork, CanCancelSend, CanCancelRecv;
    match st
    case UFork(sid) => ForkHistory(s, sid);
    case USend(sid, body) => SendHistory(s, sid, body);
    case UFlush => FlushOnly(s);
    case UClose => CloseOnly(s);
    case URecv(sid, buffer) => RecvHistory(s, sid, buffer);
    case UCancelSend(op) => CancelHistory(s, op);
    case UCancelRecv(op) => CancelHistory(s, op);
    case TRecvBytes(chunk) => ReadHistory(s, chunk);
    case TRecvEnd(e) => RecvEndOnly(s, e);
    case TInit => InitHistory(s);
    case TAsk => AskHistory(s);
    case TFill => FillOnly(s);
    case TAny => AnyHistory(s);
  }

  lemma ReadHistory(s: Sched, chunk: Bytes)
    requires CanRecvBytes(s, chunk)
    ensures SendsStay(s, DoRecvBytes(s, chunk))
  {
    hide Wanted;
  }

  lemma SenderHistory(s: Sched, st: Step)
    requires Enabled(s, st) && (st.TBegin? || st.TSendBytes? || st.TSendEnd?)
    ensures MoreKnown(s, Apply(s, st))
    ensures HeadBegun(s) ==> HeadBegun(Apply(s, st))
  {
    hide DoBegin, DoSendBytes, DoSendEnd, CanBegin, CanSendBytes, CanSendEnd, MoreKnown, HeadBegun;
    match st
    case TBegin => BeginHistory(s);
    case TSendBytes(n) => BytesHistory(s, n);
    case TSendEnd(e) => EndHistory(s, e);
  }

  lemma BeginHistory(s: Sched)
    requires CanBegin(s)
    ensures MoreKnown(s, DoBegin(s)) && (HeadBegun(s) ==> HeadBegun(DoBegin(s)))
  {
    hide Header, EncFrame, sOf;
    if s.forks[sOf(s, s.spc.op)].initiated {
    }
  }

  lemma BytesHistory(s: Sched, n: nat)
    requires CanSendBytes(s, n)
    ensures MoreKnown(s, DoSendBytes(s, n)) && (HeadBegun(s) ==> HeadBegun(DoSendBytes(s, n)))
  {
  }

  lemma EndHistory(s: Sched, e: Code)
    requires CanSendEnd(s, e)
    ensures MoreKnown(s, DoSendEnd(s, e)) && (HeadBegun(s) ==> HeadBegun(DoSendEnd(s, e)))
  {
    hide BeginHead;
    if e != Success {
    } else if s.spc.SMeta? {
      var s1 := s.(bytesSent := s.bytesSent + SpanSize(s) - |s.spc.rest|);
      HeadHistory(s1, s.spc.op);
    }
  }

  lemma HeadHistory(s: Sched, op: OpId)
    requires op in s.sops && sOf(s, op) < |s.forks| == |s.sendQ|
    ensures var t := BeginHead(s, op);
            && s.h.tx <= t.h.tx && t.h.begun == s.h.begun + [op] && t.h.sent == s.h.sent && t.h.withdrawn == s.h.withdrawn
            && t.sops == s.sops && t.rops == s.rops && t.spc.SHead? && t.spc.op == op
  {
    hide Header, sOf;
  }

  lemma NextHistory(s: Sched)
    requires CanNextSend(s)
    ensures var t := DoNextSend(s);
            && t.h == s.h.(headBegun := false) && t.sops == s.sops && t.rops == s.rops
  {
    hide CompleteSend, StopSending, StartNext;
    NextMakes(s);
    FinishHistory(s);
    StopHistory(CompleteSend(s), if s.spc.ec == Success then Success else Cancel);
    StartNextOnly(CompleteSend(s));
  }

  lemma FinishHistory(s: Sched)
    requires CanNextSend(s)
    ensures CompleteSend(s).h == s.h.(headBegun := false)
  {
    hide Finish, PopFrom, sOf;
  }

  // ---- every step ---------------------------------------------------------------------

  lemma StepKnown(s: Sched, st: Step)
    requires Inv(s) && Enabled(s, st)
    ensures MoreKnown(s, Apply(s, st))
  {
    hide Inv, DoSend, DoRecv;
    if AcceptsSend(s, st) {
      SendShape(s, st.sid, st.body);
      SendHistory(s, st.sid, st.body);
    } else if AcceptsRecv(s, st) {
      RecvShape(s, st.sid, st.buffer);
      OtherHistory(s, st);
    } else if st.TBegin? || st.TSendBytes? || st.TSendEnd? {
      hide Apply, Enabled;
      SenderHistory(s, st);
    } else if st == TNextSend {
      NextHistory(s);
      hide DoNextSend;
    } else {
      hide Apply, Enabled;
      NoneStep(s, st);
      OtherHistory(s, st);
    }
  }

  lemma StepHead(s: Sched, st: Step)
    requires Inv(s) && HeadBegun(s) && Enabled(s, st)
    ensures HeadBegun(Apply(s, st))
  {
    hide Inv, DoNextSend, DoSend;
    if st.TBegin? || st.TSendBytes? || st.TSendEnd? {
      hide Apply, Enabled;
      SenderHistory(s, st);
    } else if st == TNextSend {
      NextHistory(s);
    } else if st.USend? {
      SendHistory(s, st.sid, st.body);
      PostSpc(s, st.sid, st.body);
    } else {
      hide Apply, Enabled, Recorded;
      OtherHistory(s, st);
      OutsideSender(s, st);
    }
  }

  lemma PostSpc(s: Sched, sid: Sid, body: Bytes)
    requires CanSend(s, sid, body)
    ensures s.spc == DoSend(s, sid, body).spc || (s.spc.SIdle? && DoSend(s, sid, body).spc.SGot?)
  {
    hide PushTo;
    if body == [] {
    }
  }

  // ---- what is queued -------------------------------------------------------------------

  /** The send at work succeeded: everything begun is on the wire. */
  lemma WholeWire(s: Sched)
    requires Inv(s) && HeadBegun(s) && s.spc.SFinish? && s.spc.ec == Success
    ensures OnWire(s.h.tx, s.h.begun, s.sops, s.h.sent, s.spc.op)
  {
    hide IdsOf, OpsOf, ListOf, SendPcOf, SendQOf, RecvQOf, RecvPcOf, TxOf, BodiesOf, MetaOf, LedgerOf, RxOf, RxMapOf,
         GivenOf, OnceOf, CountsOf, FlushOf, Encode;
    var k, i := |s.h.begun| - 1, |s.h.tx|;
    assert s.h.tx[..i] == s.h.tx && s.h.begun[..k + 1] == s.h.begun;
    assert WireUpTo(s.h.tx, s.h.begun, s.sops, s.h.sent, k, i);
  }

  lemma OwnSend(s: Sched)
    requires Inv(s)
    ensures forall op :: op in s.order ==> op in s.sops
    ensures forall op :: op in Flatten(s.recvQ) ==> op in s.rops
    ensures s.spc.SFinish? ==> s.order != [] && s.order[0] == s.spc.op
    ensures s.rpc.RGood? ==> s.rpc.op in s.rops && s.rpc.op in Flatten(s.recvQ)
    ensures s.rpc.RBad? && s.rpc.prev.Some? ==> s.rpc.prev.value in s.rops
  {
    hide IdsOf, OpsOf, SendQOf, TxOf, BodiesOf, WireOf, MetaOf, LedgerOf, RxOf, RxMapOf, GivenOf, OnceOf, CountsOf,
         FlushOf, Flatten, RecvQOf;
    forall op | op in Flatten(s.recvQ)
      ensures op in s.rops
    {
      RecvQWhere(s.recvQ, s.rops, s.status, s.idMap, s.numRecvs, op);
    }
    FlattenMembers(s.recvQ);
  }

  lemma SendOk(s: Sched, t: Sched, sid: Sid, body: Bytes)
    requires CanSend(s, sid, body) && LogOk(t, s.q.log) && t == DoSend(s, sid, body)
    requires s.nextOp !in s.sops && s.nextOp !in s.rops
    ensures LogOk(t, t.q.log)
  {
    hide LogOk, PushTo;
    if body == [] {
      OkOne(t, s.nextOp, Refused(SendLengthZeroMsg));
      OkAppend(t, s.q.log, [OpDone(s.nextOp, Refused(SendLengthZeroMsg))]);
    } else if s.ec != Success {
      OkOne(t, s.nextOp, Refused(s.ec));
      OkAppend(t, s.q.log, [OpDone(s.nextOp, Refused(s.ec))]);
    }
  }

  lemma RecvOk(s: Sched, t: Sched, sid: Sid, buffer: Buffer)
    requires IsLocal(s, sid) && LogOk(t, s.q.log) && t == DoRecv(s, sid, buffer)
    requires s.nextOp !in s.sops && s.nextOp !in s.rops
    ensures LogOk(t, t.q.log)
  {
    hide LogOk, WakeReceiver, PushTo;
    if s.ec != Success {
      OkOne(t, s.nextOp, Refused(s.ec));
      OkAppend(t, s.q.log, [OpDone(s.nextOp, Refused(s.ec))]);
    } else {
      RecvOnly(s, sid, buffer);
      hide DoRecv;
    }
  }

  lemma CancelOk(s: Sched, t: Sched, st: Step)
    requires Enabled(s, st) && IsCancel(st) && LogOk(t, s.q.log) && t == Apply(s, st)
    ensures LogOk(t, t.q.log)
  {
    hide LogOk, Rightful;
    CancelQueued(s, st);
    if s.status[st.op].NotStarted? {
      OkFinish(t, s.q, st.op, Withdrawn);
    }
    hide Apply, Enabled, Finish;
  }

  lemma CancelQueued(s: Sched, st: Step)
    requires Enabled(s, st) && IsCancel(st)
    ensures st.op in s.status
    ensures Apply(s, st).q == if s.status[st.op].NotStarted? then Finish(s.q, st.op, Withdrawn) else s.q
    ensures s.status[st.op].NotStarted? ==> Rightful(Apply(s, st), st.op, Withdrawn)
  {
    hide Finish, Without, EraseFrom, Orphaned, CanErase, sOf, rOf, Flatten, OnWire;
    if st.UCancelSend? {
    }
  }

  lemma FlushOk(s: Sched, t: Sched)
    requires CanFlush(s) && LogOk(t, s.q.log) && t == DoFlush(s)
    ensures LogOk(t, t.q.log)
  {
    hide Rightful, Backs, Pending, CanFlush;
    if s.numRecvs == 0 && s.order == [] {
      OkAppend(t, s.q.log, [FlushDone(|s.q.tokens|)]);
    }
  }

  lemma NextOk(s: Sched, t: Sched)
    requires Inv(s) && HeadBegun(s) && CanNextSend(s) && LogOk(t, s.q.log) && t == DoNextSend(s)
    ensures LogOk(t, t.q.log)
  {
    hide Inv, LogOk, Finish, DrainOps, CompleteSend, StopSending, StartNext, sOf, HeadBegun, DoNextSend;
    NextHistory(s);
    OwnSend(s);
    NextTask(s);
    SentRight(s, t);
    var s1 := CompleteSend(s);
    CompleteQueued(s);
    OkFinish(t, s.q, s.spc.op, if s.spc.ec == Success then Sent else Failed(SendDir, s.spc.ec));
    NextQueued(s);
    OkDrain(t, s1.q, s1.order, SendDir, if s.spc.ec == Success then Success else Cancel);
  }

  lemma SentRight(s: Sched, t: Sched)
    requires Inv(s) && HeadBegun(s) && s.spc.SFinish? && s.spc.op in s.sops
    requires t.h == s.h.(headBegun := false) && t.sops == s.sops && t.rops == s.rops
    ensures Rightful(t, s.spc.op, if s.spc.ec == Success then Sent else Failed(SendDir, s.spc.ec))
  {
    hide Inv, OnWire, HeadBegun;
    if s.spc.ec == Success {
      WholeWire(s);
    }
  }

  lemma CompleteQueued(s: Sched)
    requires CanNextSend(s)
    ensures var r := if s.spc.ec == Success then Sent else Failed(SendDir, s.spc.ec);
            CompleteSend(s).q == Finish(s.q, s.spc.op, r) && CompleteSend(s).order == s.order[1..]
  {
    hide Finish, PopFrom, sOf;
  }

  lemma NextQueued(s: Sched)
    requires CanNextSend(s)
    ensures var s1 := CompleteSend(s); var e := if s.spc.ec == Success then Success else Cancel;
            DoNextSend(s).q == if s.spc.ec != Success || s.ec != Success then DrainOps(s1.q, s1.order, SendDir, e) else s1.q
  {
    hide CompleteSend, StopSending, StartNext, DrainOps;
    StopSendingLog(CompleteSend(s), if s.spc.ec == Success then Success else Cancel);
    StartNextLog(CompleteSend(s));
  }

  lemma AnyOk(s: Sched, t: Sched)
    requires Inv(s) && BufferOf(s) && CanAny(s) && LogOk(t, s.q.log) && t == DoAny(s) && t.rops == s.rops
    ensures LogOk(t, t.q.log)
  {
    hide Inv, LogOk, DrainOps, CompleteRecv, StopReading, ReadNext, CanAny, Flatten, DoAny, CarriedError, BufferOf;
    OwnSend(s);
    LeftQueued(s);
    CompleteOk(s, t);
    AnyQueued(s);
    OkDrain(t, CompleteRecv(s).q, Flatten(CompleteRecv(s).recvQ), RecvDir, CarriedError(s.rpc));
  }

  lemma CompleteOk(s: Sched, t: Sched)
    requires Inv(s) && BufferOf(s) && CanAny(s) && LogOk(t, s.q.log) && t.rops == s.rops
    ensures LogOk(t, CompleteRecv(s).q.log)
  {
    hide Inv, LogOk, Finish, BufferOf, CompleteRecv, Rightful;
    OwnSend(s);
    FinishedRecv(s);
    if s.rpc.RGood? {
      GivenRight(s, t);
      OkFinish(t, s.q, s.rpc.op, Received(s.rops[s.rpc.op].sid, s.part[8..]));
    } else if s.rpc.prev.Some? {
      FailedRight(t, s.rpc.prev.value, s.rpc.ec);
      OkFinish(t, s.q, s.rpc.prev.value, Failed(RecvDir, s.rpc.ec));
    }
  }

  lemma FinishedRecv(s: Sched)
    requires CanAny(s)
    ensures s.rpc.RGood? ==>
              |s.part| >= HEADER && s.rpc.op in s.rops
              ==> CompleteRecv(s).q == Finish(s.q, s.rpc.op, Received(s.rops[s.rpc.op].sid, s.part[8..]))
    ensures s.rpc.RBad? && s.rpc.prev.Some? ==>
              CompleteRecv(s).q == Finish(s.q, s.rpc.prev.value, Failed(RecvDir, s.rpc.ec))
    ensures s.rpc.RBad? && s.rpc.prev.None? ==> CompleteRecv(s).q == s.q
    ensures s.rpc.RGood? ==> |s.part| >= HEADER
  {
    hide Finish, PopFrom;
  }

  lemma GivenRight(s: Sched, t: Sched)
    requires BufferOf(s) && s.rpc.RGood? && t.rops == s.rops
    ensures |s.part| >= HEADER && s.rpc.op in s.rops
    ensures Rightful(t, s.rpc.op, Received(s.rops[s.rpc.op].sid, s.part[8..]))
  {
    hide Fits;
  }

  lemma FailedRight(t: Sched, op: OpId, e: Code)
    requires op in t.rops
    ensures Rightful(t, op, Failed(RecvDir, e))
  {
  }

  lemma LeftQueued(s: Sched)
    requires CanAny(s)
    ensures forall op :: op in Flatten(CompleteRecv(s).recvQ) ==> op in Flatten(s.recvQ)
  {
    hide Finish, PopFrom, Flatten;
    FlattenMembers(s.recvQ);
    FlattenMembers(CompleteRecv(s).recvQ);
    if PrevRecv(s.rpc).Some? {
      CompleteRecvOnly(s);
      hide CompleteRecv, CanAny;
      var i := rOf(s, PrevRecv(s.rpc).value);
      forall op, j | 0 <= j < |s.recvQ| && op in s.recvQ[i := s.recvQ[i][1..]][j]
        ensures op in s.recvQ[j]
      {
      }
    }
  }

  lemma AnyQueued(s: Sched)
    requires CanAny(s)
    ensures var s1, e := CompleteRecv(s), CarriedError(s.rpc);
            DoAny(s).q == if e != Success || s.ec != Success then DrainOps(s1.q, Flatten(s1.recvQ), RecvDir, e) else s1.q
  {
    hide CompleteRecv, StopReading, ReadNext, DrainOps, Flatten, CanAny, CarriedError;
    StopReadingLog(CompleteRecv(s), CarriedError(s.rpc));
    ReadNextOnly(CompleteRecv(s));
  }

  lemma AskOk(s: Sched, t: Sched)
    requires Inv(s) && s.rpc.RAsk? && LogOk(t, s.q.log) && t == DoAsk(s) && t.rops == s.rops
    ensures LogOk(t, t.q.log)
  {
    OwnSend(s);
    hide Inv, LogOk, MatchHeader, DrainOps, Flatten, NoQueues, DrainAll, StoppedRecv;
    MatchOnly(s, s.rpc.size, s.rpc.slot);
    StopOnly(s, Recver, BadCoprotoMessageHeader);
    hide Stop;
    MatchOnly(DrainRecvs(Stop(s, Recver, BadCoprotoMessageHeader), BadCoprotoMessageHeader), s.rpc.size, s.rpc.slot);
    OkDrain(t, s.q, Flatten(s.recvQ), RecvDir, BadCoprotoMessageHeader);
  }

  lemma QuietLog(s: Sched, st: Step)
    requires Enabled(s, st)
    requires st.UFork? || st.UClose? || st.TBegin? || st.TSendBytes? || st.TSendEnd? || st.TRecvBytes? || st.TRecvEnd?
             || st.TInit? || st.TFill?
    ensures Apply(s, st).q == s.q
  {
    hide DoFork, DoClose, DoBegin, DoSendBytes, DoSendEnd, DoRecvBytes, DoRecvEnd, DoInit, DoFill, CanFork;
    match st
    case UFork(sid) => ForkLog(s, sid);
    case UClose => CloseOnly(s);
    case TBegin => BeginOnly(s);
    case TSendBytes(n) => SendBytesOnly(s, n);
    case TSendEnd(e) => SendEndOnly(s, e);
    case TRecvBytes(chunk) => RecvBytesOnly(s, chunk);
    case TRecvEnd(e) => RecvEndOnly(s, e);
    case TInit => InitLog(s);
    case TFill => FillOnly(s);
  }

  lemma StepOk(s: Sched, st: Step)
    requires Inv(s) && BufferOf(s) && HeadBegun(s) && LogOk(s, s.q.log) && Enabled(s, st)
    ensures LogOk(Apply(s, st), Apply(s, st).q.log)
  {
    hide Inv, BufferOf, HeadBegun, LogOk, MoreKnown, DoSend, DoRecv, DoFlush, DoNextSend, DoAny, DoAsk,
         CanSend, CanFlush, CanNextSend, CanAny;
    var t := Apply(s, st);
    StepKnown(s, st);
    OkStays(s, t);
    OpsBelow(s);
    if st.USend? {
      SendOk(s, t, st.sid, st.body);
    } else if st.URecv? {
      RecvOk(s, t, st.sid, st.buffer);
    } else {
      TaskOk(s, st);
    }
  }

  lemma TaskOk(s: Sched, st: Step)
    requires Inv(s) && BufferOf(s) && HeadBegun(s) && Enabled(s, st) && !st.USend? && !st.URecv?
    requires LogOk(Apply(s, st), s.q.log)
    ensures LogOk(Apply(s, st), Apply(s, st).q.log)
  {
    hide Inv, BufferOf, HeadBegun, LogOk, DoFlush, DoNextSend, DoAny, DoAsk, CanFlush, CanNextSend, CanAny;
    NoneStep(s, st);
    if st.UFlush? {
      FlushOk(s, DoFlush(s));
    } else if st.TNextSend? {
      NextOk(s, DoNextSend(s));
    } else if st.TAny? {
      AnyOk(s, DoAny(s));
    } else if st.TAsk? {
      AskOk(s, DoAsk(s));
    } else {
      hide Apply, Enabled;
      if IsCancel(st) {
        CancelOk(s, Apply(s, st), st);
      } else {
        QuietLog(s, st);
      }
    }
  }

  // ---- runs -------------------------------------------------------------------------------

  ghost predicate OutcomeInv(s: Sched) {
    BufferOf(s) && HeadBegun(s) && LogOk(s, s.q.log)
  }

  lemma {:induction false} RunOutcomes(a: Sched, steps: seq<Step>, b: Sched)
    requires Inv(a) && OutcomeInv(a) && Runs(a, steps, b)
    ensures OutcomeInv(b)
    decreases |steps|
  {
    hide Inv, BufferOf, HeadBegun, LogOk, Apply, Enabled;
    if steps != [] {
      StepBuffer(a, steps[0]);
      StepHead(a, steps[0]);
      StepOk(a, steps[0]);
      StepKeeps(a, steps[0]);
      RunOutcomes(Apply(a, steps[0]), steps[1..], b);
    }
  }

  /** Over every run each handle reports a result its operation may have: a send is sent only
      with its message and all before it on the wire; a recv is given only a message that its
      buffer holds; only a call that was not accepted is refused, only a send or recv fails in
      its direction. */
  lemma ResultsRight(root: Sid, s: Sched, k: nat)
    requires Reachable(root, s) && k < |s.q.log| && s.q.log[k].OpDone?
    ensures Rightful(s, s.q.log[k].op, s.q.log[k].result)
  {
    hide Inv, Runs, Start, Rightful;
    var steps :| Runs(Start(root), steps, s);
    StartInv(root);
    StartBuffer(root);
    StartOutcomes(root);
    RunOutcomes(Start(root), steps, s);
  }

  lemma StartOutcomes(root: Sid)
    ensures HeadBegun(Start(root)) && LogOk(Start(root), Start(root).q.log)
  {
  }
}
