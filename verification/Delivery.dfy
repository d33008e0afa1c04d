/** What two connected schedulers do when their users make no call and no transport fails:
    they come to rest after a bounded number of steps, and then no message is left behind
    but for want of a recv. */
module Delivery {
  import opened Common
  import opened Framing
  import opened Streams
  import opened Scheduler
  import opened Lists
  import opened Invariants
  import opened Shapes
  import opened Endpoint
  import opened Link
  import opened Errors
  import opened Guards

  /** A step of a task, or of a transport that does not fail. */
  predicate Inner(st: Step) {
    || st.TBegin? || st.TSendBytes? || st.TNextSend? || st.TRecvBytes? || st.TInit? || st.TAsk? || st.TFill? || st.TAny?
    || st == TSendEnd(Success) || st == TRecvEnd(Success)
  }

  ghost predicate InnerRun(moves: seq<Move>) {
    forall k :: 0 <= k < |moves| ==> Inner(moves[k].step)
  }

  // ---- work left --------------------------------------------------------------

  /** More than the steps a send takes from its turn on: at most 24 bytes of a meta message,
      8 of a header, the body, and a few steps in between. */
  function OpWork(sops: map<OpId, SendOp>, op: OpId): nat {
    38 + if op in sops then |sops[op].body| else 0
  }

  function ListWork(sops: map<OpId, SendOp>, ops: seq<OpId>): nat {
    if ops == [] then 0 else OpWork(sops, ops[0]) + ListWork(sops, ops[1..])
  }

  function SendStage(spc: SendPc, sops: map<OpId, SendOp>): nat {
    match spc
    case SGot(op) => OpWork(sops, op) - 1
    case SMeta(op, rest) => |rest| + OpWork(sops, op) - 26
    case SHead(op, rest) => |rest| + OpWork(sops, op) - 35
    case SBody(_, rest) => |rest| + 2
    case SFinish(_, _) => 1
    case _ => 0
  }

  function SendWork(spc: SendPc, order: seq<OpId>, sops: map<OpId, SendOp>): nat {
    if order == [] then 0 else SendStage(spc, sops) + ListWork(sops, order[1..])
  }

  function RecvStage(rpc: RecvPc): nat {
    match rpc
    case RHead => 10
    case RMeta(_) => 9
    case RAsk(_, _) => 9
    case RInit(_, _) => 8
    case RMatched(_, _, _) => 8
    case RBody(_, _, _) => 7
    case RGood(_, _) => 6
    case RBad(_, _) => 5
    case _ => 0
  }

  /** What the sender still has to do and has sent; what the receiver still has to do, less
      what it has read. A byte sent costs its sender more than it gives the receiver. */
  function SendValue(s: Sched): int {
    21 * SendWork(s.spc, s.order, s.sops) + 20 * |s.h.sent|
  }

  function RecvValue(s: Sched): int {
    2 * |s.part| + RecvStage(s.rpc) - 20 * |s.h.read|
  }

  // ---- every inner step takes some of it ------------------------------------------

  lemma BeginValue(s: Sched)
    requires CanBegin(s) && s.order != []
    ensures SendValue(DoBegin(s)) < SendValue(s)
  {
    hide Header, sOf, ListWork;
    if s.forks[sOf(s, s.spc.op)].initiated {
    }
  }

  lemma BytesValue(s: Sched, n: nat)
    requires CanSendBytes(s, n) && s.order != []
    ensures SendValue(DoSendBytes(s, n)) < SendValue(s)
  {
    hide ListWork;
  }

  lemma EndValue(s: Sched)
    requires CanSendEnd(s, Success) && s.order != []
    ensures SendValue(DoSendEnd(s, Success)) < SendValue(s)
  {
    hide Header, sOf, ListWork;
    if s.spc.SMeta? {
    } else if s.spc.SHead? {
    }
  }

  lemma NextValue(s: Sched)
    requires CanNextSend(s)
    ensures SendValue(DoNextSend(s)) + 21 <= SendValue(s)
  {
    hide CompleteSend, StopSending, StartNext, sOf;
    var s1, e := CompleteSend(s), if s.spc.ec == Success then Success else Cancel;
    PoppedValue(s);
    StoppedValue(s1, e);
    StartedValue(s1);
  }

  lemma PoppedValue(s: Sched)
    requires CanNextSend(s)
    ensures var t := CompleteSend(s); t.order == s.order[1..] && t.sops == s.sops && t.h.sent == s.h.sent
  {
    hide Finish, PopFrom, sOf;
  }

  lemma StoppedValue(s: Sched, e: Code)
    ensures SendValue(StopSending(s, e)) == 20 * |s.h.sent|
  {
    StopOnly(s, Sender, e);
    hide Stop, DrainOps, DrainAll, NoQueues;
  }

  lemma StartedValue(s: Sched)
    ensures SendValue(StartNext(s)) <= 21 * ListWork(s.sops, s.order) + 20 * |s.h.sent|
    ensures s.order == [] ==> SendValue(StartNext(s)) == 20 * |s.h.sent|
  {
    if s.order != [] {
    }
  }

  /** A step of the sender takes work from it, most of all the last one of an operation. */
  lemma SenderTakes(s: Sched, st: Step)
    requires Enabled(s, st) && OfSender(st) && Inner(st) && s.order != []
    ensures SendValue(Apply(s, st)) + (if st.TNextSend? then 21 else 1) <= SendValue(s)
  {
    hide SendValue, DoBegin, DoSendBytes, DoSendEnd, DoNextSend, CanBegin, CanSendBytes, CanSendEnd, CanNextSend;
    match st
    case TBegin => BeginValue(s);
    case TSendBytes(n) => BytesValue(s, n);
    case TSendEnd(e) => EndValue(s);
    case TNextSend => NextValue(s);
  }

  /** It at most lets a parked receiver fail. */
  lemma ReceiverGets(s: Sched, st: Step)
    requires Enabled(s, st) && OfSender(st)
    ensures RecvValue(Apply(s, st)) <= RecvValue(s) + if st.TNextSend? then 5 else 0
  {
    hide Apply, Enabled;
    ReadStays(s, st);
    OutsideReceiver(s, st);
  }

  lemma SenderValue(s: Sched, st: Step)
    requires Inv(s) && Enabled(s, st) && OfSender(st) && Inner(st)
    ensures SendValue(Apply(s, st)) + RecvValue(Apply(s, st)) < SendValue(s) + RecvValue(s)
  {
    hide Inv, Enabled, Apply, SendValue, RecvValue;
    HeadAtWork(s, st);
    SenderTakes(s, st);
    ReceiverGets(s, st);
  }

  lemma HeadAtWork(s: Sched, st: Step)
    requires Inv(s) && Enabled(s, st) && OfSender(st)
    ensures s.order != []
  {
    hide IdsOf, OpsOf, ListOf, SendQOf, RecvQOf, RecvPcOf, TxOf, BodiesOf, WireOf, MetaOf, LedgerOf, RxOf, RxMapOf,
         GivenOf, OnceOf, CountsOf, FlushOf, sOf;
  }

  lemma ReadStays(s: Sched, st: Step)
    requires Enabled(s, st) && OfSender(st)
    ensures Apply(s, st).h.read == s.h.read
  {
    hide Clean, DoBegin, DoSendBytes, DoSendEnd, DoNextSend, CanBegin, CanSendBytes, CanSendEnd, CanNextSend;
    match st
    case TBegin => QuietBegin(s);
    case TSendBytes(n) => QuietSendBytes(s, n);
    case TSendEnd(e) => QuietSendEnd(s, e);
    case TNextSend => QuietNext(s);
  }

  // ---- the receiver ---------------------------------------------------------------

  lemma ReadValue(s: Sched, chunk: Bytes)
    requires CanRecvBytes(s, chunk)
    ensures RecvValue(DoRecvBytes(s, chunk)) < RecvValue(s)
  {
    hide RecvStage, Wanted;
  }

  lemma ReadEndValue(s: Sched)
    requires CanRecvEnd(s, Success)
    ensures RecvValue(DoRecvEnd(s, Success)) < RecvValue(s)
  {
    hide Wanted, HeaderSize, HeaderSlot;
  }

  lemma InitValue(s: Sched)
    requires s.rpc.RInit? && |s.part| == META
    ensures RecvValue(DoInit(s)) < RecvValue(s)
  {
    hide RemoteFork, BindSlot;
    if s.rpc.slot != NO_SLOT {
      NamedValue(s, s.rpc.sid);
      BoundValue(RemoteFork(s, s.rpc.sid), s.rpc.slot, s.rpc.sid);
    }
  }

  lemma NamedValue(s: Sched, sid: Sid)
    ensures var t := RemoteFork(s, sid); sid in t.idMap && t.part == s.part && t.rpc == s.rpc && t.h == s.h
  {
    hide EmptyRing;
  }

  lemma BoundValue(s: Sched, slot: nat, sid: Sid)
    requires sid in s.idMap && s.rpc.RInit? && |s.part| == META
    ensures RecvValue(BindSlot(s, slot, sid)) < RecvValue(s)
  {
    var i := s.idMap[sid];
    if i >= |s.forks| {
    } else if s.forks[i].remoteId != NO_SLOT {
    } else if slot in s.remoteMap {
    }
  }

  lemma AskValue(s: Sched)
    requires s.rpc.RAsk?
    ensures RecvValue(DoAsk(s)) < RecvValue(s)
  {
    hide DrainRecvs, Stop, MatchHeader;
    var t := Stop(s, Recver, BadCoprotoMessageHeader);
    StopOnly(s, Recver, BadCoprotoMessageHeader);
    DrainedValue(t, BadCoprotoMessageHeader);
    MatchedValue(s, s.rpc.size, s.rpc.slot);
    MatchedValue(DrainRecvs(t, BadCoprotoMessageHeader), s.rpc.size, s.rpc.slot);
  }

  lemma DrainedValue(s: Sched, e: Code)
    ensures var t := DrainRecvs(s, e); t.part == s.part && t.h == s.h && t.rpc == s.rpc
  {
    hide DrainOps, DrainAll, NoQueues, Flatten;
  }

  lemma MatchedValue(s: Sched, size: nat, slot: nat)
    ensures RecvValue(MatchHeader(s, size, slot)) <= 2 * |s.part| + 8 - 20 * |s.h.read|
  {
    if s.ec != Success {
    } else if slot in s.remoteMap && s.remoteMap[slot] < |s.recvQ| {
    }
  }

  lemma FillValue(s: Sched)
    requires s.rpc.RMatched? && s.rpc.op in s.rops
    ensures RecvValue(DoFill(s)) < RecvValue(s)
  {
    hide Fits;
  }

  lemma AnyValue(s: Sched)
    requires CanAny(s) && (s.rpc.RBad? ==> s.rpc.ec != Success)
    ensures RecvValue(DoAny(s)) < RecvValue(s)
  {
    hide CompleteRecv, StopReading, ReadNext, rOf;
    var s1, e := CompleteRecv(s), CarriedError(s.rpc);
    TakenValue(s);
    ClosedValue(s1, e);
    GoneOnValue(s1);
  }

  lemma TakenValue(s: Sched)
    requires CanAny(s)
    ensures var t := CompleteRecv(s); t.h.read == s.h.read && t.part == if s.rpc.RGood? then [] else s.part
  {
    hide Finish, PopFrom, rOf;
    if s.rpc.RGood? {
    } else if s.rpc.prev.Some? {
    }
  }

  lemma ClosedValue(s: Sched, e: Code)
    ensures RecvValue(StopReading(s, e)) == 2 * |s.part| - 20 * |s.h.read|
  {
    StopOnly(s, Recver, e);
    hide Stop, DrainOps, DrainAll, NoQueues, Flatten;
  }

  lemma GoneOnValue(s: Sched)
    ensures RecvValue(ReadNext(s)) <= 2 * |s.part| + 10 - 20 * |s.h.read|
  {
  }

  lemma TransferTakes(s: Sched, st: Step)
    requires Enabled(s, st) && Inner(st) && (st.TRecvBytes? || st.TRecvEnd? || st.TFill?)
    ensures RecvValue(Apply(s, st)) < RecvValue(s)
  {
    hide RecvValue, DoRecvBytes, DoRecvEnd, DoFill, CanRecvBytes, CanRecvEnd;
    match st
    case TRecvBytes(chunk) => ReadValue(s, chunk);
    case TRecvEnd(e) => ReadEndValue(s);
    case TFill => FillValue(s);
  }

  lemma AwaitTakes(s: Sched, st: Step)
    requires Inv(s) && Enabled(s, st) && (st.TInit? || st.TAsk? || st.TAny?)
    ensures RecvValue(Apply(s, st)) < RecvValue(s)
  {
    ReceiverShape(s);
    hide Inv, RecvValue, DoInit, DoAsk, DoAny, CanAny;
    match st
    case TInit => InitValue(s);
    case TAsk => AskValue(s);
    case TAny => AnyValue(s);
  }

  /** A step of the receiver takes work from it and gives none to the sender. */
  lemma ReceiverValue(s: Sched, st: Step)
    requires Inv(s) && Enabled(s, st) && OfReceiver(st) && Inner(st)
    ensures SendValue(Apply(s, st)) + RecvValue(Apply(s, st)) < SendValue(s) + RecvValue(s)
  {
    hide Inv, Enabled, Apply, RecvValue, Recorded, SendStage, ListWork;
    ReceiverShape(s);
    ListStays(s, st);
    OutsideSender(s, st);
    if st.TRecvBytes? || st.TRecvEnd? || st.TFill? {
      TransferTakes(s, st);
    } else {
      AwaitTakes(s, st);
    }
  }

  lemma ReceiverShape(s: Sched)
    requires Inv(s)
    ensures s.rpc.RInit? ==> |s.part| == META
    ensures s.rpc.RBad? ==> s.rpc.ec != Success
    ensures s.spc.SIdle? ==> s.order == []
  {
    hide IdsOf, OpsOf, ListOf, SendQOf, RecvQOf, TxOf, BodiesOf, WireOf, MetaOf, LedgerOf, RxMapOf, GivenOf, OnceOf,
         CountsOf, FlushOf, Encode, ValidFrames, Announced;
  }

  ghost predicate SameList(s: Sched, t: Sched) {
    t.order == s.order && t.sops == s.sops && t.h.sent == s.h.sent
  }

  /** The receive task leaves the sends alone. */
  lemma ListStays(s: Sched, st: Step)
    requires Enabled(s, st) && OfReceiver(st)
    ensures SameList(s, Apply(s, st))
  {
    hide DoRecvBytes, DoRecvEnd, DoInit, DoAsk, DoFill, DoAny, CanRecvBytes, CanRecvEnd, CanAny;
    match st
    case TRecvBytes(chunk) => ReadList(s, chunk);
    case TRecvEnd(e) => RecvEndOnly(s, e);
    case TInit => InitList(s);
    case TAsk => AskList(s);
    case TFill => FillOnly(s);
    case TAny => AnyList(s);
  }

  lemma ReadList(s: Sched, chunk: Bytes)
    requires CanRecvBytes(s, chunk)
    ensures SameList(s, DoRecvBytes(s, chunk))
  {
    hide Wanted;
  }

  lemma InitList(s: Sched)
    requires s.rpc.RInit?
    ensures SameList(s, DoInit(s))
  {
    hide RemoteFork, BindSlot;
    if s.rpc.slot != NO_SLOT {
      RemoteList(s, s.rpc.sid);
      BindList(RemoteFork(s, s.rpc.sid), s.rpc.slot, s.rpc.sid);
    }
  }

  lemma RemoteList(s: Sched, sid: Sid)
    ensures sid in RemoteFork(s, sid).idMap && SameList(s, RemoteFork(s, sid))
  {
    hide EmptyRing;
  }

  lemma BindList(s: Sched, slot: nat, sid: Sid)
    requires sid in s.idMap
    ensures SameList(s, BindSlot(s, slot, sid))
  {
    var i := s.idMap[sid];
    if i >= |s.forks| {
    } else if s.forks[i].remoteId != NO_SLOT {
    } else if slot in s.remoteMap {
    }
  }

  lemma DrainList(s: Sched, e: Code)
    ensures SameList(s, DrainRecvs(s, e))
  {
    hide DrainOps, DrainAll, NoQueues, Flatten;
  }

  lemma AskList(s: Sched)
    requires s.rpc.RAsk?
    ensures SameList(s, DoAsk(s))
  {
    hide DrainRecvs, Stop, MatchHeader;
    var t := Stop(s, Recver, BadCoprotoMessageHeader);
    StopOnly(s, Recver, BadCoprotoMessageHeader);
    DrainList(t, BadCoprotoMessageHeader);
    MatchOnly(s, s.rpc.size, s.rpc.slot);
    MatchOnly(DrainRecvs(t, BadCoprotoMessageHeader), s.rpc.size, s.rpc.slot);
  }

  lemma AnyList(s: Sched)
    requires CanAny(s)
    ensures SameList(s, DoAny(s))
  {
    hide CompleteRecv, Stop, DrainRecvs, ReadNext, CanAny;
    var s1, e := CompleteRecv(s), CarriedError(s.rpc);
    CompleteList(s);
    StopOnly(s1, Recver, e);
    DrainList(Stop(s1, Recver, e), e);
    ReadNextOnly(s1);
  }

  lemma CompleteList(s: Sched)
    requires CanAny(s)
    ensures SameList(s, CompleteRecv(s))
  {
    hide Finish, PopFrom, rOf;
    if s.rpc.RGood? {
    } else if s.rpc.prev.Some? {
    }
  }

  // ---- they come to rest -------------------------------------------------------------

  /** Work left in the pair: what each end has to do and what is on the wire to it. */
  function Work(p: Pair): int {
    SendValue(p.a) + RecvValue(p.a) + SendValue(p.b) + RecvValue(p.b)
  }

  lemma MoveWorks(p: Pair, m: Move)
    requires Joint(p) && CanMove(p, m) && Inner(m.step)
    ensures Work(DoMove(p, m)) < Work(p)
  {
    hide Inv, SendValue, RecvValue, Apply, Enabled, Clean;
    var me := if m.atA then p.a else p.b;
    if OfSender(m.step) {
      SenderValue(me, m.step);
    } else {
      ReceiverValue(me, m.step);
    }
  }

  lemma WorkLeft(p: Pair)
    requires Joint(p)
    ensures Work(p) >= 0
  {
    hide Inv, Clean, SendWork, RecvStage;
    assert |p.a.h.read| <= |p.b.h.sent| && |p.b.h.read| <= |p.a.h.sent|;
  }

  /** However the steps of the two ends interleave, without calls and failures they come to
      an end: a run has at most as many of them as work was left. */
  lemma ComesToRest(root: Sid, p: Pair, moves: seq<Move>, q: Pair)
    requires Connected(root, p) && PairRuns(p, moves, q) && InnerRun(moves)
    ensures |moves| <= Work(p)
  {
    hide Connected, Joint, Work, PairRuns;
    ConnectedJoint(root, p);
    InnerWorks(p, moves, q);
  }

  lemma {:induction false} InnerWorks(p: Pair, moves: seq<Move>, q: Pair)
    requires Joint(p) && PairRuns(p, moves, q) && InnerRun(moves)
    ensures |moves| <= Work(p)
    decreases |moves|
  {
    hide Joint, CanMove, DoMove, Work, Inner;
    WorkLeft(p);
    if moves != [] {
      MoveWorks(p, moves[0]);
      JointMove(p, moves[0]);
      InnerWorks(DoMove(p, moves[0]), moves[1..], q);
    }
  }

  /** Neither end can move without a call or a failure. */
  ghost predicate AtRest(p: Pair) {
    forall m: Move :: Inner(m.step) ==> !CanMove(p, m)
  }

  lemma {:induction false} RestFrom(p: Pair) returns (moves: seq<Move>, q: Pair)
    requires Joint(p)
    ensures PairRuns(p, moves, q) && InnerRun(moves) && AtRest(q)
    decreases Work(p)
  {
    hide Joint, CanMove, DoMove, Work, Inner;
    WorkLeft(p);
    if AtRest(p) {
      moves, q := [], p;
    } else {
      var m: Move :| Inner(m.step) && CanMove(p, m);
      MoveWorks(p, m);
      JointMove(p, m);
      WorkLeft(DoMove(p, m));
      var rest;
      rest, q := RestFrom(DoMove(p, m));
      moves := [m] + rest;
      assert moves[1..] == rest;
    }
  }

  lemma {:induction false} PairRunsOn(p: Pair, moves: seq<Move>, q: Pair, more: seq<Move>, r: Pair)
    requires PairRuns(p, moves, q) && PairRuns(q, more, r)
    ensures PairRuns(p, moves + more, r)
    decreases |moves|
  {
    hide CanMove, DoMove;
    if moves == [] {
      assert moves + more == more;
    } else {
      PairRunsOn(DoMove(p, moves[0]), moves[1..], q, more, r);
      assert (moves + more)[1..] == moves[1..] + more;
    }
  }

  /** So from every state they can reach one at rest, in so many steps. */
  lemma RestReached(root: Sid, p: Pair) returns (moves: seq<Move>, q: Pair)
    requires Connected(root, p)
    ensures PairRuns(p, moves, q) && InnerRun(moves) && AtRest(q) && Connected(root, q)
    ensures |moves| <= Work(p)
  {
    hide PairRuns, Joint, Work, Start, AtRest, InnerRun;
    ConnectedJoint(root, p);
    moves, q := RestFrom(p);
    ComesToRest(root, p, moves, q);
    var before :| PairRuns(Pair(Start(root), Start(root)), before, p);
    PairRunsOn(Pair(Start(root), Start(root)), before, p, moves, q);
  }

  /** Of the bytes on the wire that a receiver waits for any number may arrive next. */
  lemma PieceArrives(root: Sid, p: Pair, atA: bool, k: nat)
    requires Connected(root, p) && k > 0
    ensures var me, peer := if atA then p.a else p.b, if atA then p.b else p.a; var r := |me.h.read|;
            k <= Missing(me) && r + k <= |peer.h.sent| ==>
              CanMove(p, Move(atA, TRecvBytes(peer.h.sent[r..r + k])))
  {
    hide Connected, Inv, Enabled, Clean;
    ConnectedJoint(root, p);
    var me, peer := if atA then p.a else p.b, if atA then p.b else p.a;
    var r := |me.h.read|;
    if k <= Missing(me) && r + k <= |peer.h.sent| {
      var chunk := peer.h.sent[r..r + k];
      TransportAt(me, 0, chunk, Success);
      assert me.h.read + chunk == peer.h.sent[..r + k];
    }
  }

  // ---- what rest means ------------------------------------------------------------------

  /** The receiver `me` at rest: it has no recv, it waits for a recv of the fork of the next
      message and that fork has none, or it waits for bytes and has read all there are. */
  ghost predicate Waits(me: Sched, peer: Sched) {
    || (me.rpc.RIdle? && me.numRecvs == 0)
    || (me.rpc.RWait? && me.rpc.slot in me.remoteMap && me.remoteMap[me.rpc.slot] < |me.recvQ|
        && me.recvQ[me.remoteMap[me.rpc.slot]] == [])
    || (Missing(me) > 0 && me.h.read == peer.h.sent)
    || (me.rpc.RDone? && me.numRecvs == 0)
  }

  /** The send task has nothing left to send. */
  ghost predicate Parked(s: Sched) {
    s.order == [] && (s.spc.SIdle? || (s.spc.SDone? && s.ec != Success))
  }

  /** One end at rest. */
  ghost predicate EndAtRest(me: Sched, peer: Sched) {
    forall st :: Inner(st) && Enabled(me, st) ==> !FromWire(me, peer, st)
  }

  lemma RestAt(p: Pair, atA: bool)
    requires AtRest(p)
    ensures if atA then EndAtRest(p.a, p.b) else EndAtRest(p.b, p.a)
  {
    hide Enabled, Inner, FromWire;
    var me, peer := if atA then p.a else p.b, if atA then p.b else p.a;
    forall st | Inner(st) && Enabled(me, st)
      ensures !FromWire(me, peer, st)
    {
      assert !CanMove(p, Move(atA, st));
    }
  }

  lemma SenderWaits(me: Sched, peer: Sched)
    requires Inv(me) && EndAtRest(me, peer)
    ensures Parked(me)
  {
    hide Inv, Enabled, EndAtRest, IsTransportCode;
    TasksAt(me);
    TransportAt(me, 1, [], Success);
    SendTask(me);
    hide Missing;
    Ruled(me, peer, TBegin);
    Ruled(me, peer, TNextSend);
    Ruled(me, peer, TSendEnd(Success));
    Ruled(me, peer, TSendBytes(1));
  }

  lemma Ruled(me: Sched, peer: Sched, st: Step)
    requires EndAtRest(me, peer) && Inner(st) && FromWire(me, peer, st)
    ensures !Enabled(me, st)
  {
  }

  lemma SendTask(s: Sched)
    requires Inv(s)
    ensures s.spc.SIdle? || s.spc.SDone? ==> s.order == []
    ensures s.spc.SDone? ==> s.ec != Success
  {
    hide IdsOf, OpsOf, ListOf, SendQOf, RecvQOf, RecvPcOf, TxOf, BodiesOf, WireOf, MetaOf, LedgerOf, RxOf, RxMapOf,
         GivenOf, OnceOf, CountsOf, FlushOf;
  }

  lemma RecvTask(s: Sched)
    requires Inv(s)
    ensures s.rpc.RIdle? || s.rpc.RDone? ==> s.numRecvs == 0
    ensures s.rpc.RWait? ==>
              s.rpc.slot in s.remoteMap && s.remoteMap[s.rpc.slot] < |s.recvQ| && s.recvQ[s.remoteMap[s.rpc.slot]] == []
  {
    hide IdsOf, OpsOf, ListOf, SendPcOf, SendQOf, RecvQOf, TxOf, BodiesOf, WireOf, MetaOf, LedgerOf, RxOf, RxMapOf,
         GivenOf, OnceOf, CountsOf, FlushOf;
  }

  lemma ReceiverWaits(me: Sched, peer: Sched)
    requires Inv(me) && Clean(me) && me.h.read <= peer.h.sent && EndAtRest(me, peer)
    ensures Waits(me, peer)
  {
    hide Inv, Enabled, EndAtRest, IsTransportCode;
    TasksAt(me);
    RecvTask(me);
    Ruled(me, peer, TInit);
    Ruled(me, peer, TAsk);
    Ruled(me, peer, TFill);
    Ruled(me, peer, TAny);
    Ruled(me, peer, TRecvEnd(Success));
    TransportAt(me, 0, [], Success);
    if Reading(me) {
      PartBegun(me);
    }
    if me.h.read != peer.h.sent {
      var k := |me.h.read|;
      var chunk := peer.h.sent[k..k + 1];
      assert me.h.read + chunk == peer.h.sent[..k + 1];
      TransportAt(me, 0, chunk, Success);
      Ruled(me, peer, TRecvBytes(chunk));
    }
  }

  /** At rest every task is parked, waits for a recv that its user has not called or for
      bytes that nobody has sent, or has exited with nothing left to do. */
  lemma AllWait(root: Sid, p: Pair)
    requires Connected(root, p) && AtRest(p)
    ensures Parked(p.a) && Parked(p.b) && Waits(p.a, p.b) && Waits(p.b, p.a)
  {
    hide Connected, Inv, Parked, Waits, Clean, AtRest, EndAtRest;
    ConnectedJoint(root, p);
    RestAt(p, true);
    RestAt(p, false);
    SenderWaits(p.a, p.b);
    SenderWaits(p.b, p.a);
    ReceiverWaits(p.a, p.b);
    ReceiverWaits(p.b, p.a);
  }

  // ---- nothing is left behind -------------------------------------------------------------

  /** A receiver that has read everything a parked sender sent is between two messages. */
  lemma BetweenMessages(me: Sched, peer: Sched)
    requires Inv(me) && Inv(peer) && me.h.read == peer.h.sent && peer.spc.SIdle? && Missing(me) > 0
    ensures me.part == []
  {
    hide Inv, Encode, EncFrame, ValidFrames, Announced, Header, HeaderSize, HeaderSlot;
    FramesAgree(me, peer);
    SentPrefix(peer);
    ReadFrames(me);
    var rest := peer.h.tx[|me.h.rx|..];
    assert peer.h.tx == me.h.rx + rest;
    EncodeAppend(me.h.rx, rest);
    assert me.part == Encode(rest);
    if rest == [] {
      NoFrames();
    } else {
      FirstFrame(rest);
      ValidAt(peer.h.tx, |me.h.rx|);
      HeaderOfFrame(rest[0], Encode(rest[1..]));
      PartHeader(me);
    }
  }

  lemma NoFrames()
    ensures Encode([]) == []
  {
  }

  lemma FirstFrame(fs: seq<Frame>)
    requires fs != []
    ensures Encode(fs) == EncFrame(fs[0]) + Encode(fs[1..])
  {
  }

  lemma ValidAt(fs: seq<Frame>, k: nat)
    requires ValidFrames(fs) && k < |fs|
    ensures ValidFrame(fs[k])
  {
  }

  lemma PartHeader(s: Sched)
    requires Inv(s)
    ensures s.rpc.RHead? || s.rpc.RMeta? || s.rpc.RBody? ==> Before(s.rpc) <= |s.part|
    ensures s.rpc.RMeta? ==> HeaderSize(s.part) == 0
    ensures s.rpc.RBody? ==> 0 < s.rpc.size && HeaderSize(s.part) == s.rpc.size
  {
    hide IdsOf, OpsOf, ListOf, SendPcOf, SendQOf, RecvQOf, RecvPcOf, TxOf, BodiesOf, WireOf, MetaOf, LedgerOf, RxMapOf,
         GivenOf, OnceOf, CountsOf, FlushOf, Encode, Header, HeaderSize, HeaderSlot, ValidFrames, Announced;
    if s.rpc.RMeta? || s.rpc.RBody? {
      assert s.part == s.part[..8] + s.part[8..];
      DecHeader(if s.rpc.RMeta? then 0 else s.rpc.size, s.rpc.slot, s.part[8..]);
    }
  }

  /** All that was sent on the session at `peer` was given to recvs at `me`, or a recv is
      what is missing: there is none at all, or none of the fork of the next message. */
  ghost predicate LeftForRecv(me: Sched, peer: Sched, sid: Sid) {
    || Given(me.q.log, sid) == SentOn(peer, sid)
    || me.numRecvs == 0
    || (me.rpc.RWait? && me.rpc.slot in me.remoteMap && me.remoteMap[me.rpc.slot] < |me.recvQ|
        && me.recvQ[me.remoteMap[me.rpc.slot]] == [])
  }

  /** When nothing can move any more and there is no error, every send has been handed over
      and completed, and no message is left behind but for want of a recv. */
  lemma NothingLost(root: Sid, p: Pair, sid: Sid)
    requires Connected(root, p) && AtRest(p) && p.a.ec == p.b.ec == Success
    ensures p.a.spc.SIdle? && p.a.order == [] && p.b.spc.SIdle? && p.b.order == []
    ensures LeftForRecv(p.a, p.b, sid) && LeftForRecv(p.b, p.a, sid)
  {
    hide Connected, Inv, Clean, AtRest, Given, SentOn, LeftForRecv;
    ConnectedJoint(root, p);
    AllWait(root, p);
    LeftOneWay(p.a, p.b, sid);
    LeftOneWay(p.b, p.a, sid);
  }

  lemma LeftOneWay(me: Sched, peer: Sched, sid: Sid)
    requires Inv(me) && Inv(peer) && Waits(me, peer) && peer.spc.SIdle? && me.ec == Success
    ensures LeftForRecv(me, peer, sid)
  {
    hide Inv, Given, SentOn;
    if Missing(me) > 0 && me.h.read == peer.h.sent {
      BetweenMessages(me, peer);
      hide Missing;
      DeliveredOneWay(peer, me, sid);
    }
  }
}
