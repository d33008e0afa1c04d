/** Two schedulers joined by a byte pipe in each direction: what one end reads is a
    prefix of what the other has sent, and every step of either end may come next. */
module Link {
  import opened Common
  import opened Framing
  import opened Streams
  import opened Scheduler
  import opened Shapes
  import opened Lists
  import opened Invariants
  import opened Follow
  import opened Endpoint

  datatype Pair = Pair(a: Sched, b: Sched)

  /** A step of one end; bytes received are the next ones the other end sent. */
  datatype Move = Move(atA: bool, step: Step)

  predicate FromWire(me: Sched, peer: Sched, st: Step) {
    st.TRecvBytes? ==> me.h.read + st.chunk <= peer.h.sent
  }

  predicate CanMove(p: Pair, m: Move) {
    if m.atA then Enabled(p.a, m.step) && FromWire(p.a, p.b, m.step)
    else Enabled(p.b, m.step) && FromWire(p.b, p.a, m.step)
  }

  function DoMove(p: Pair, m: Move): Pair
    requires CanMove(p, m)
  {
    if m.atA then p.(a := Apply(p.a, m.step)) else p.(b := Apply(p.b, m.step))
  }

  ghost predicate PairRuns(p: Pair, moves: seq<Move>, q: Pair)
    decreases |moves|
  {
    if moves == [] then p == q
    else CanMove(p, moves[0]) && PairRuns(DoMove(p, moves[0]), moves[1..], q)
  }

  /** A state of two connected schedulers that some interleaving reaches. */
  ghost predicate Connected(root: Sid, p: Pair) {
    exists moves :: PairRuns(Pair(Start(root), Start(root)), moves, p)
  }

  /** No malformed header has been met and no assertion has failed. */
  predicate Clean(s: Sched) {
    && s.rpc != RCrash
    && s.ec != BadCoprotoMessageHeader
    && (s.rpc.RBad? ==> s.rpc.ec != BadCoprotoMessageHeader)
  }

  ghost predicate Joint(p: Pair) {
    && Inv(p.a) && Inv(p.b)
    && p.a.h.read <= p.b.h.sent && p.b.h.read <= p.a.h.sent
    && Clean(p.a) && Clean(p.b)
  }

  // ---- what the receiver knows of the sender --------------------------------

  lemma SentPrefix(s: Sched)
    requires Inv(s)
    ensures s.h.sent <= Encode(s.h.tx) && ValidFrames(s.h.tx) && Announced(s.h.tx)
    ensures s.spc.SIdle? ==> s.h.sent == Encode(s.h.tx)
  {
    hide IdsOf, OpsOf, ListOf, SendPcOf, SendQOf, RecvQOf, RecvPcOf, BodiesOf, MetaOf, LedgerOf, RxOf, RxMapOf,
         GivenOf, OnceOf, CountsOf, FlushOf, Encode, ValidFrames, Announced;
    if s.spc.SHead? {
      var body := s.sops[s.spc.op].body;
      assert s.h.sent + s.spc.rest + body == s.h.sent + (s.spc.rest + body);
    }
  }

  lemma ReadFrames(s: Sched)
    requires Inv(s)
    ensures s.h.read == Encode(s.h.rx) + s.part && ValidFrames(s.h.rx) && Announced(s.h.rx)
  {
    hide IdsOf, OpsOf, ListOf, SendPcOf, SendQOf, RecvQOf, RecvPcOf, BodiesOf, MetaOf, LedgerOf, RxMapOf, TxOf,
         WireOf, GivenOf, OnceOf, CountsOf, FlushOf, Encode, ValidFrames, Announced;
  }

  /** The frames the receiver has processed are a prefix of the frames the sender has
      begun, and the bytes of its unfinished frame start the next one. */
  lemma FramesAgree(me: Sched, peer: Sched)
    requires Inv(me) && Inv(peer) && me.h.read <= peer.h.sent
    ensures me.h.rx <= peer.h.tx
    ensures me.part <= Encode(peer.h.tx[|me.h.rx|..])
    ensures ValidFrames(peer.h.tx) && Announced(peer.h.tx)
  {
    SentPrefix(peer);
    ReadFrames(me);
    hide Inv, Encode, ValidFrames, Announced;
    PrefixTrans(Encode(me.h.rx) + me.part, peer.h.sent, Encode(peer.h.tx));
    PrefixFrames(me.h.rx, me.part, peer.h.tx);
  }

  lemma {:induction false} SlotsPrefix(a: seq<Frame>, b: seq<Frame>, slot: nat)
    requires a <= b && Announced(b) && slot in Slots(a)
    ensures slot in Slots(b) && Slots(b)[slot] == Slots(a)[slot]
    decreases |b|
  {
    if |a| < |b| {
      AnnouncedPrefix(a, b);
      SlotsPrefix(a, b[..|b| - 1], slot);
    } else {
      assert a == b;
    }
  }

  /** The next frame of the sender may follow what the receiver has processed. */
  lemma NextAllowed(me: Sched, peer: Sched, size: nat, slot: nat, more: Bytes)
    requires Inv(me) && Inv(peer) && me.h.read <= peer.h.sent
    requires me.part == Header(size, slot) + more && size < U32 && slot < U32
    ensures |me.h.rx| < |peer.h.tx|
    ensures var f := peer.h.tx[|me.h.rx|];
            && MayFollow(me.h.rx, f) && f.slot == slot
            && (size != 0 ==> f.Data?)
            && (size == 0 && |more| == 16 ==> f == Meta(slot, more))
  {
    FramesAgree(me, peer);
    hide Inv;
    NextFits(me.h.rx, peer.h.tx, me.part, size, slot, more);
  }

  lemma NextFits(rx: seq<Frame>, tx: seq<Frame>, part: Bytes, size: nat, slot: nat, more: Bytes)
    requires rx <= tx && ValidFrames(tx) && Announced(tx) && part <= Encode(tx[|rx|..])
    requires part == Header(size, slot) + more && size < U32 && slot < U32
    ensures |rx| < |tx|
    ensures var f := tx[|rx|];
            && MayFollow(rx, f) && f.slot == slot
            && (size != 0 ==> f.Data?)
            && (size == 0 && |more| == 16 ==> f == Meta(slot, more))
  {
    hide Encode, Header, Announced, Slots;
    NextHeader(size, slot, more, tx[|rx|..]);
    AnnouncedPrefix(rx, tx);
  }

  // ---- malformed headers are unreachable --------------------------------------

  /** A data header names a slot the receiver knows. */
  lemma AskKnown(me: Sched, peer: Sched)
    requires Inv(me) && Inv(peer) && me.h.read <= peer.h.sent
    requires me.rpc.RAsk?
    ensures me.rpc.slot in me.remoteMap && me.remoteMap[me.rpc.slot] < |me.recvQ|
  {
    hide Inv, Header;
    AskShape(me);
    assert me.part == Header(me.rpc.size, me.rpc.slot) + [];
    NextAllowed(me, peer, me.rpc.size, me.rpc.slot, []);
  }

  lemma AskShape(s: Sched)
    requires Inv(s) && s.rpc.RAsk?
    ensures 0 < s.rpc.size < U32 && s.rpc.slot < U32 && s.part == Header(s.rpc.size, s.rpc.slot)
    ensures s.rpc.slot in Slots(s.h.rx) ==>
              s.rpc.slot in s.remoteMap && s.remoteMap[s.rpc.slot] < |s.recvQ|
  {
    hide IdsOf, OpsOf, ListOf, SendPcOf, SendQOf, RecvQOf, RecvPcOf, BodiesOf, MetaOf, LedgerOf, TxOf,
         WireOf, GivenOf, OnceOf, CountsOf, FlushOf, Encode, ValidFrames, Announced, Header, Slots;
  }

  /** A meta message names a new slot for a session that has none. */
  lemma InitNew(me: Sched, peer: Sched)
    requires Inv(me) && Inv(peer) && me.h.read <= peer.h.sent
    requires me.rpc.RInit?
    ensures me.rpc.slot < NO_SLOT && me.rpc.slot !in me.remoteMap
    ensures me.rpc.sid in me.idMap ==>
              me.idMap[me.rpc.sid] < |me.forks| && me.forks[me.idMap[me.rpc.sid]].remoteId == NO_SLOT
    ensures |me.sendQ| == |me.forks| && |me.recvQ| == |me.forks|
  {
    InitShape(me);
    NextAllowed(me, peer, 0, me.rpc.slot, me.rpc.sid);
    Unbound(me, me.rpc.slot, me.rpc.sid);
    hide Inv, Slots, Header;
  }

  /** A session no processed frame announces has no remote slot. */
  lemma Unbound(s: Sched, slot: nat, sid: Sid)
    requires Inv(s)
    requires slot !in Slots(s.h.rx) && sid !in Slots(s.h.rx).Values
    ensures slot !in s.remoteMap
    ensures sid in s.idMap ==> s.idMap[sid] < |s.forks| && s.forks[s.idMap[sid]].remoteId == NO_SLOT
    ensures |s.sendQ| == |s.forks| && |s.recvQ| == |s.forks|
  {
    hide OpsOf, ListOf, SendPcOf, RecvQOf, RecvPcOf, BodiesOf, MetaOf, LedgerOf, TxOf, RxOf,
         WireOf, GivenOf, OnceOf, CountsOf, FlushOf, Slots;
    forall b | b in s.remoteMap
      ensures s.remoteMap[b] < |s.forks| && s.forks[s.remoteMap[b]].sid != sid
    {
      assert Slots(s.h.rx)[b] in Slots(s.h.rx).Values;
    }
  }

  lemma InitShape(s: Sched)
    requires Inv(s) && s.rpc.RInit?
    ensures s.rpc.slot < U32 && s.part == Header(0, s.rpc.slot) + s.rpc.sid
  {
    hide IdsOf, OpsOf, ListOf, SendPcOf, SendQOf, RecvQOf, RecvPcOf, BodiesOf, MetaOf, LedgerOf, TxOf, RxMapOf,
         WireOf, GivenOf, OnceOf, CountsOf, FlushOf, Encode, ValidFrames, Announced, Header;
  }

  lemma CleanInit(me: Sched, peer: Sched)
    requires Inv(me) && Inv(peer) && me.h.read <= peer.h.sent && Clean(me)
    requires me.rpc.RInit?
    ensures Clean(DoInit(me)) && DoInit(me).rpc.RHead?
    ensures DoInit(me).h.read == me.h.read && DoInit(me).h.sent == me.h.sent
  {
    hide Inv, RemoteFork, BindSlot;
    InitNew(me, peer);
    QuietRemote(me, me.rpc.sid);
    QuietBind(RemoteFork(me, me.rpc.sid), me.rpc.slot, me.rpc.sid);
  }

  lemma QuietRemote(s: Sched, sid: Sid)
    requires sid in s.idMap ==> s.idMap[sid] < |s.forks| && s.forks[s.idMap[sid]].remoteId == NO_SLOT
    ensures var t := RemoteFork(s, sid);
            && t.h == s.h && t.ec == s.ec && t.remoteMap == s.remoteMap
            && sid in t.idMap && t.idMap[sid] < |t.forks| && t.forks[t.idMap[sid]].remoteId == NO_SLOT
  {
  }

  lemma QuietBind(s: Sched, slot: nat, sid: Sid)
    requires sid in s.idMap && s.idMap[sid] < |s.forks| && s.forks[s.idMap[sid]].remoteId == NO_SLOT
    requires slot !in s.remoteMap
    ensures var t := BindSlot(s, slot, sid);
            t.rpc.RHead? && t.ec == s.ec && t.h.read == s.h.read && t.h.sent == s.h.sent
  {
  }

  lemma CleanAsk(me: Sched, peer: Sched)
    requires Inv(me) && Inv(peer) && me.h.read <= peer.h.sent && Clean(me)
    requires me.rpc.RAsk?
    ensures Clean(DoAsk(me))
    ensures DoAsk(me).h.read == me.h.read && DoAsk(me).h.sent == me.h.sent
  {
    AskKnown(me, peer);
    hide Inv;
    QuietMatch(me, me.rpc.size, me.rpc.slot);
    hide Clean, MatchHeader;
  }

  lemma QuietMatch(s: Sched, size: nat, slot: nat)
    requires slot in s.remoteMap && s.remoteMap[slot] < |s.recvQ| && Clean(s)
    ensures var t := MatchHeader(s, size, slot);
            t.h.read == s.h.read && t.h.sent == s.h.sent && Clean(t)
  {
    if s.ec != Success {
    } else if s.recvQ[s.remoteMap[slot]] == [] {
    }
  }

  /** What a step does to the two ends of the wire, and that it meets no bad header. */
  ghost predicate Quiet(s: Sched, t: Sched) {
    t.h.read == s.h.read && s.h.sent <= t.h.sent && (Clean(s) ==> Clean(t))
  }

  lemma QuietFork(s: Sched, sid: Sid)
    requires CanFork(s, sid)
    ensures Quiet(s, DoFork(s, sid))
  {
    if sid in s.idMap {
    }
  }

  lemma QuietPost(s: Sched, sid: Sid, body: Bytes)
    requires CanSend(s, sid, body)
    ensures Quiet(s, DoSend(s, sid, body))
  {
    hide PushTo;
    if body == [] {
    } else if s.ec != Success {
    } else if s.spc.SIdle? {
    }
  }

  lemma QuietAccept(s: Sched, sid: Sid, buffer: Buffer)
    requires IsLocal(s, sid)
    ensures Quiet(s, DoRecv(s, sid, buffer))
  {
    hide Quiet;
    if s.ec != Success {
      QuietSame(s, DoRecv(s, sid, buffer));
    } else if s.rpc.RIdle? || s.rpc.RWait? {
      QuietWake(s, sid, buffer);
    } else {
      QuietSame(s, DoRecv(s, sid, buffer));
    }
  }

  lemma QuietSame(s: Sched, t: Sched)
    requires t.h == s.h && t.ec == s.ec && t.rpc == s.rpc
    ensures Quiet(s, t)
  {
  }

  lemma QuietWake(s: Sched, sid: Sid, buffer: Buffer)
    requires IsLocal(s, sid) && s.ec == Success && (s.rpc.RIdle? || s.rpc.RWait?)
    ensures Quiet(s, DoRecv(s, sid, buffer))
  {
    var t := DoRecv(s, sid, buffer);
    assert t.h == s.h && t.ec == s.ec && (t.rpc == s.rpc || t.rpc.RHead? || t.rpc.RMatched?);
    hide DoRecv;
  }

  lemma QuietCancel(s: Sched, op: OpId)
    ensures CanCancelSend(s, op) ==> Quiet(s, DoCancelSend(s, op))
    ensures CanCancelRecv(s, op) ==> Quiet(s, DoCancelRecv(s, op))
  {
    hide Finish, Without, Flatten;
  }

  lemma QuietFlush(s: Sched)
    requires CanFlush(s)
    ensures Quiet(s, DoFlush(s))
  {
    FlushOnly(s);
    hide DoFlush, CanFlush;
  }

  lemma QuietClose(s: Sched)
    ensures Quiet(s, DoClose(s))
  {
    if s.ec != Success {
    }
  }

  lemma QuietBegin(s: Sched)
    requires CanBegin(s)
    ensures Quiet(s, DoBegin(s))
  {
    hide EncFrame, Header, sOf;
  }

  lemma QuietSendBytes(s: Sched, n: nat)
    requires CanSendBytes(s, n)
    ensures Quiet(s, DoSendBytes(s, n))
  {
  }

  lemma QuietSendEnd(s: Sched, e: Code)
    requires CanSendEnd(s, e)
    ensures Quiet(s, DoSendEnd(s, e))
  {
    hide EncFrame, Header, sOf;
    if e != Success {
    } else if s.spc.SMeta? {
    } else if s.spc.SHead? {
    }
  }

  lemma QuietCompleteSend(s: Sched)
    requires CanNextSend(s)
    ensures var t := CompleteSend(s);
            t.h.read == s.h.read && t.h.sent == s.h.sent && t.ec == s.ec && t.rpc == s.rpc
  {
    hide Finish, PopFrom, sOf;
  }

  lemma QuietStart(s: Sched)
    ensures Quiet(s, StartNext(s))
  {
    if s.order != [] {
    }
  }

  lemma QuietStopSending(s: Sched, e: Code)
    requires e != BadCoprotoMessageHeader
    ensures Quiet(s, StopSending(s, e))
  {
    hide DrainOps, NoQueues, DrainAll;
    if s.ec != Success {
    }
  }

  lemma QuietNext(s: Sched)
    requires CanNextSend(s)
    ensures Quiet(s, DoNextSend(s))
  {
    hide CompleteSend, StopSending, StartNext;
    QuietCompleteSend(s);
    var t := CompleteSend(s);
    if s.spc.ec != Success {
      QuietStopSending(t, Cancel);
    } else if s.ec != Success {
      QuietStopSending(t, Success);
    } else {
      QuietStart(t);
    }
  }

  lemma QuietRecv(s: Sched, e: Code)
    ensures CanRecvEnd(s, e) ==> Quiet(s, DoRecvEnd(s, e))
  {
    hide HeaderSize, HeaderSlot;
    if !CanRecvEnd(s, e) {
    } else if e != Success {
    } else if s.rpc.RHead? {
    } else if s.rpc.RMeta? {
    }
  }

  lemma QuietFill(s: Sched)
    requires s.rpc.RMatched? && s.rpc.op in s.rops
    ensures Quiet(s, DoFill(s))
  {
  }

  lemma QuietAny(s: Sched)
    requires CanAny(s) && Clean(s)
    ensures Quiet(s, DoAny(s))
  {
    QuietComplete(s);
    hide CompleteRecv;
    var t := CompleteRecv(s);
    if CarriedError(s.rpc) != Success || s.ec != Success {
      QuietStop(t, CarriedError(s.rpc));
      hide StopReading;
    } else {
      QuietRead(t);
      hide ReadNext;
    }
  }

  lemma QuietRead(s: Sched)
    ensures var t := ReadNext(s);
            t.h == s.h && t.ec == s.ec && (t.rpc.RHead? || t.rpc.RIdle?)
  {
    if s.numRecvs > 0 {
    }
  }

  lemma QuietComplete(s: Sched)
    requires CanAny(s)
    ensures var t := CompleteRecv(s);
            t.h.read == s.h.read && t.h.sent == s.h.sent && t.ec == s.ec && t.rpc == s.rpc
  {
    hide Finish, rOf;
    if PrevRecv(s.rpc).Some? && s.rpc.RGood? {
    } else if PrevRecv(s.rpc).Some? {
    }
  }

  lemma QuietStop(s: Sched, e: Code)
    requires e != BadCoprotoMessageHeader
    ensures var t := StopReading(s, e);
            t.h.read == s.h.read && t.h.sent == s.h.sent && t.rpc.RDone?
            && (s.ec != BadCoprotoMessageHeader ==> t.ec != BadCoprotoMessageHeader)
  {
    StopEdges(s, Recver, e);
    hide DrainOps, NoQueues, Flatten, Stop;
  }

  lemma StopEdges(s: Sched, caller: Caller, e: Code)
    ensures var t := Stop(s, caller, e);
            t.h == s.h && t.ec == if s.ec != Success then s.ec else e
  {
    hide StoppedRecv;
  }

  lemma MoveKeeps(me: Sched, peer: Sched, st: Step)
    requires Inv(me) && Inv(peer) && Clean(me)
    requires me.h.read <= peer.h.sent && peer.h.read <= me.h.sent
    requires Enabled(me, st) && FromWire(me, peer, st)
    ensures var t := Apply(me, st);
            Clean(t) && t.h.read <= peer.h.sent && peer.h.read <= t.h.sent
  {
    hide Inv, DoFork, DoSend, DoRecv, DoCancelSend, DoCancelRecv, DoFlush, DoClose, DoBegin, DoSendBytes,
         DoSendEnd, DoNextSend, DoRecvEnd, DoInit, DoAsk, DoFill, DoAny;
    match st
    case UFork(sid) => QuietFork(me, sid);
    case USend(sid, body) => QuietPost(me, sid, body);
    case URecv(sid, buffer) => QuietAccept(me, sid, buffer);
    case UCancelSend(op) => QuietCancel(me, op);
    case UCancelRecv(op) => QuietCancel(me, op);
    case UFlush => QuietFlush(me);
    case UClose => QuietClose(me);
    case TBegin => QuietBegin(me);
    case TSendBytes(n) => QuietSendBytes(me, n);
    case TSendEnd(e) => QuietSendEnd(me, e);
    case TNextSend => QuietNext(me);
    case TRecvBytes(chunk) =>
    case TRecvEnd(e) => QuietRecv(me, e);
    case TInit => CleanInit(me, peer);
    case TAsk => CleanAsk(me, peer);
    case TFill => QuietFill(me);
    case TAny => QuietAny(me);
  }

  lemma JointMove(p: Pair, m: Move)
    requires Joint(p) && CanMove(p, m)
    ensures Joint(DoMove(p, m))
  {
    var me, peer := if m.atA then p.a else p.b, if m.atA then p.b else p.a;
    hide Inv, Clean, Apply, Enabled;
    StepKeeps(me, m.step);
    MoveKeeps(me, peer, m.step);
  }

  lemma {:induction false} JointRun(p: Pair, moves: seq<Move>, q: Pair)
    requires Joint(p) && PairRuns(p, moves, q)
    ensures Joint(q)
    decreases |moves|
  {
    hide Joint, CanMove, DoMove;
    if moves != [] {
      JointMove(p, moves[0]);
      JointRun(DoMove(p, moves[0]), moves[1..], q);
    }
  }

  lemma ConnectedJoint(root: Sid, p: Pair)
    requires Connected(root, p)
    ensures Joint(p)
  {
    hide PairRuns, Inv;
    var p0 := Pair(Start(root), Start(root));
    StartInv(root);
    assert Joint(p0);
    hide Start, Joint;
    var moves :| PairRuns(p0, moves, p);
    JointRun(p0, moves, p);
  }

  // ---- the theorems -----------------------------------------------------------

  /** What an endpoint sends: the bytes handed over begin the encoding of its frames, and
      every data frame comes after the one and only meta frame for its slot. */
  lemma WireIsFrames(root: Sid, s: Sched, i: nat) returns (j: nat)
    requires Reachable(root, s) && i < |s.h.tx| && s.h.tx[i].Data?
    ensures s.h.sent <= Encode(s.h.tx) && (s.spc.SIdle? ==> s.h.sent == Encode(s.h.tx))
    ensures j < i && s.h.tx[j].Meta? && s.h.tx[j].slot == s.h.tx[i].slot
    ensures forall k :: 0 <= k < |s.h.tx| && s.h.tx[k].Meta? && s.h.tx[k].slot == s.h.tx[i].slot ==> k == j
  {
    hide Inv, Reachable, Encode, ValidFrames, Announced;
    ReachableInv(root, s);
    SentPrefix(s);
    j := AnnouncedOnce(s.h.tx, i);
  }

  /** The receiver `me` meets no unknown slot, no repeated announcement and no failed
      assertion, and the slots it knows stand for the sessions `peer` gave them to. */
  ghost predicate SlotsAgree(me: Sched, peer: Sched) {
    && Clean(me)
    && (me.rpc.RAsk? ==> me.rpc.slot in me.remoteMap)
    && (me.rpc.RInit? ==> DoInit(me).rpc.RHead?)
    && (forall slot :: slot in me.remoteMap ==> me.remoteMap[slot] < |me.forks| && SlotShared(me, peer, slot))
  }

  ghost predicate SlotShared(me: Sched, peer: Sched, slot: nat)
    requires slot in me.remoteMap && me.remoteMap[slot] < |me.forks|
  {
    exists i :: 0 <= i < |peer.forks| && peer.forks[i].localId == slot
                && peer.forks[i].sid == me.forks[me.remoteMap[slot]].sid
  }

  /** Slot agreement: between two endpoints running this code no unknown slot, no
      repeated announcement and no failed assertion is ever met, and a slot stands
      at the receiver for the session the sender gave it to. */
  lemma SlotAgreement(root: Sid, p: Pair)
    requires Connected(root, p)
    ensures SlotsAgree(p.a, p.b) && SlotsAgree(p.b, p.a)
  {
    hide Connected, Inv, SlotsAgree;
    ConnectedJoint(root, p);
    AgreesOneWay(p.a, p.b);
    AgreesOneWay(p.b, p.a);
  }

  lemma AgreesOneWay(me: Sched, peer: Sched)
    requires Inv(me) && Inv(peer) && me.h.read <= peer.h.sent && Clean(me)
    ensures SlotsAgree(me, peer)
  {
    hide Clean, DoInit, Inv, SlotShared, Encode, ValidFrames, Announced;
    if me.rpc.RAsk? {
      AskKnown(me, peer);
    }
    if me.rpc.RInit? {
      CleanInit(me, peer);
    }
    FramesAgree(me, peer);
    forall slot | slot in me.remoteMap
      ensures me.remoteMap[slot] < |me.forks| && SlotShared(me, peer, slot)
    {
      SlotMeans(me, peer, slot);
    }
  }

  lemma RemoteSlot(s: Sched, slot: nat)
    requires Inv(s) && slot in s.remoteMap
    ensures slot in Slots(s.h.rx) && s.remoteMap[slot] < |s.forks|
    ensures s.forks[s.remoteMap[slot]].sid == Slots(s.h.rx)[slot]
  {
    hide IdsOf, OpsOf, ListOf, SendPcOf, SendQOf, RecvQOf, RecvPcOf, BodiesOf, MetaOf, LedgerOf, TxOf, RxOf,
         WireOf, GivenOf, OnceOf, CountsOf, FlushOf, Slots;
  }

  lemma LocalSlot(s: Sched, slot: nat) returns (i: nat)
    requires Inv(s) && slot in Slots(s.h.tx)
    ensures i < |s.forks| && s.forks[i].localId == slot && s.forks[i].sid == Slots(s.h.tx)[slot]
  {
    hide IdsOf, OpsOf, ListOf, SendPcOf, SendQOf, RecvQOf, RecvPcOf, BodiesOf, MetaOf, LedgerOf, RxMapOf, RxOf,
         WireOf, GivenOf, OnceOf, CountsOf, FlushOf, Slots, ValidFrames, Announced;
    i :| 0 <= i < |s.forks| && s.forks[i].initiated && s.forks[i].localId == slot;
  }

  lemma SlotMeans(me: Sched, peer: Sched, slot: nat)
    requires Inv(me) && Inv(peer) && me.h.rx <= peer.h.tx && Announced(peer.h.tx)
    requires slot in me.remoteMap
    ensures me.remoteMap[slot] < |me.forks| && SlotShared(me, peer, slot)
  {
    hide Inv, Slots, Announced;
    RemoteSlot(me, slot);
    SlotsPrefix(me.h.rx, peer.h.tx, slot);
    var i := LocalSlot(peer, slot);
  }

  /** The bodies sent on a session: all accepted sends in call order, minus those
      cancelled before they started. */
  function SentOn(s: Sched, sid: Sid): seq<Bytes> {
    BodiesOn(Without(s.h.accepted, s.h.withdrawn), s.sops, sid)
  }

  lemma BegunBodies(s: Sched, sid: Sid)
    requires Inv(s)
    ensures Bodies(s.h.tx, sid) == BodiesOn(s.h.begun, s.sops, sid)
    ensures s.h.begun <= Without(s.h.accepted, s.h.withdrawn)
    ensures s.spc.SIdle? ==> s.h.begun == Without(s.h.accepted, s.h.withdrawn)
  {
    hide IdsOf, OpsOf, ListOf, SendQOf, RecvQOf, RecvPcOf, MetaOf, RxMapOf, RxOf, TxOf,
         WireOf, GivenOf, OnceOf, CountsOf, FlushOf, Bodies, BodiesOn, Without, BodiesAll, AllBodies;
    assert s.h.begun + [] == s.h.begun;
  }

  lemma GivenBodies(s: Sched, sid: Sid)
    requires Inv(s)
    ensures Given(s.q.log, sid) == Bodies(s.h.rx, sid)
  {
    hide IdsOf, OpsOf, ListOf, SendPcOf, SendQOf, RecvQOf, RecvPcOf, BodiesOf, MetaOf, LedgerOf, TxOf, RxOf,
         WireOf, RxMapOf, OnceOf, CountsOf, FlushOf, Bodies, Given;
  }

  lemma BodiesOnPrefix(a: seq<OpId>, b: seq<OpId>, sops: map<OpId, SendOp>, sid: Sid)
    requires a <= b
    ensures BodiesOn(a, sops, sid) <= BodiesOn(b, sops, sid)
  {
    BodiesOnAppend(a, b[|a|..], sops, sid);
    assert b == a + b[|a|..];
  }

  /** Fork isolation and order: for every session, the bodies given to successful recvs
      at one end are, message by message, a prefix of the bodies sent on that session
      at the other end, however the forks interleave. */
  lemma ForkIsolation(root: Sid, p: Pair, sid: Sid)
    requires Connected(root, p)
    ensures Given(p.b.q.log, sid) <= SentOn(p.a, sid)
    ensures Given(p.a.q.log, sid) <= SentOn(p.b, sid)
  {
    ConnectedJoint(root, p);
    IsolationOneWay(p.b, p.a, sid);
    IsolationOneWay(p.a, p.b, sid);
    hide Inv, Given, SentOn, Connected;
  }

  lemma IsolationOneWay(me: Sched, peer: Sched, sid: Sid)
    requires Inv(me) && Inv(peer) && me.h.read <= peer.h.sent
    ensures Given(me.q.log, sid) <= SentOn(peer, sid)
  {
    hide Inv, Given, Bodies, BodiesOn, Without;
    FramesAgree(me, peer);
    GivenBodies(me, sid);
    BodiesPrefix(me.h.rx, peer.h.tx, sid);
    BegunBodies(peer, sid);
    BodiesOnPrefix(peer.h.begun, Without(peer.h.accepted, peer.h.withdrawn), peer.sops, sid);
  }

  /** The send task is parked and its peer has consumed the whole wire. */
  predicate Consumed(sender: Sched, receiver: Sched) {
    sender.spc.SIdle? && receiver.h.read == sender.h.sent && receiver.part == []
  }

  /** Nothing is lost: once the send task is parked and the peer has consumed the whole
      wire, every session's recvs were given all that was sent on it. */
  lemma AllDelivered(root: Sid, p: Pair, sid: Sid)
    requires Connected(root, p)
    ensures Consumed(p.a, p.b) ==> Given(p.b.q.log, sid) == SentOn(p.a, sid)
    ensures Consumed(p.b, p.a) ==> Given(p.a.q.log, sid) == SentOn(p.b, sid)
  {
    hide Inv, Given, SentOn, Connected, Consumed;
    ConnectedJoint(root, p);
    if Consumed(p.a, p.b) {
      DeliveredOneWay(p.a, p.b, sid);
    }
    if Consumed(p.b, p.a) {
      DeliveredOneWay(p.b, p.a, sid);
    }
  }

  lemma DeliveredOneWay(me: Sched, peer: Sched, sid: Sid)
    requires Inv(me) && Inv(peer) && Consumed(me, peer)
    ensures Given(peer.q.log, sid) == SentOn(me, sid)
  {
    hide Inv, Given, Bodies, BodiesOn, Without, Encode, ValidFrames, Announced;
    FramesAgree(peer, me);
    SentPrefix(me);
    ReadFrames(peer);
    GivenBodies(peer, sid);
    BegunBodies(me, sid);
    assert peer.h.read == Encode(peer.h.rx);
    SameEncoding(peer.h.rx, me.h.tx);
  }

  lemma EncodeSome(fs: seq<Frame>)
    ensures fs != [] ==> |Encode(fs)| > 0
  {
  }

  /** A prefix with the same encoding is the whole. */
  lemma SameEncoding(a: seq<Frame>, b: seq<Frame>)
    requires a <= b && Encode(a) == Encode(b)
    ensures a == b
  {
    var rest := b[|a|..];
    assert b == a + rest;
    EncodeAppend(a, rest);
    hide Encode;
    EncodeSome(rest);
  }

  /** Byte accounting across the pair: when the sender is parked and its peer has
      consumed the whole wire, the peer has counted as many bytes. */
  lemma BytesAgree(root: Sid, p: Pair)
    requires Connected(root, p)
    ensures Consumed(p.a, p.b) ==> p.b.bytesReceived == p.a.bytesSent
    ensures Consumed(p.b, p.a) ==> p.a.bytesReceived == p.b.bytesSent
  {
    hide Inv, Connected;
    ConnectedJoint(root, p);
    CountsFact(p.a);
    CountsFact(p.b);
  }

  lemma CountsFact(s: Sched)
    requires Inv(s)
    ensures s.spc.SIdle? ==> s.bytesSent == |s.h.sent|
    ensures s.part == [] ==> s.bytesReceived == |s.h.read|
  {
    hide IdsOf, OpsOf, ListOf, SendPcOf, SendQOf, RecvQOf, RecvPcOf, BodiesOf, MetaOf, LedgerOf, TxOf,
         WireOf, RxMapOf, OnceOf, GivenOf, FlushOf, Encode, ValidFrames, Announced, Header;
  }
}
