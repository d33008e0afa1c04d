/** One endpoint of the fork multiplexer: its state, and one function for every
    region the code runs under the scheduler's mutex, every transport completion
    and every user call.

    A `co_await` is a program counter: `SIdle`, `RIdle` and `RWait` are the parked
    awaiters `mNextSendOp`, `mAnyRecvOp` and `mGetRequestedRecvSocketFork`; the
    other constructors are the places where a task is running or waits for the
    transport. Any step may happen between two steps of a task. */
module Scheduler {
  import opened Common
  import opened Framing
  import opened Rings

  /** Every call of send or recv gets the next number; it names the operation. */
  type OpId = nat

  datatype Status = NotStarted | InProgress | Canceling

  datatype TaskStatus = Idle | InUse | RequestedRecvOp | TaskClosed

  datatype Dir = SendDir | RecvDir

  datatype Caller = Sender | Recver | Extern

  datatype SendOp = SendOp(sid: Sid, body: Bytes)

  /** A receive buffer of fixed size, or a container resizable in units. */
  datatype Buffer = Fixed(size: nat) | Resizable(elem: nat)

  predicate Fits(b: Buffer, size: nat) {
    match b
    case Fixed(n) => n == size
    case Resizable(elem) => elem > 0 && size % elem == 0
  }

  datatype RecvOp = RecvOp(sid: Sid, buffer: Buffer)

  /** How the handle of an operation was queued. */
  datatype Result =
    | Sent
    | Received(sid: Sid, body: Bytes)
    | Refused(code: Code)
    | Withdrawn
    | Failed(dir: Dir, code: Code)

  /** An entry of the execution queue: the handle of an operation or of a flush. */
  datatype Handle = OpDone(op: OpId, result: Result) | FlushDone(token: nat)

  /** The execution queue, as the log of everything pushed to it, and for each
      flush token the operations that hold a reference to it. */
  datatype Queued = Queued(log: seq<Handle>, tokens: seq<set<OpId>>)

  datatype Fork = Fork(sid: Sid, localId: nat, remoteId: nat, initiated: bool)

  datatype SendPc =
    | SIdle
    | SGot(op: OpId)
    | SMeta(op: OpId, rest: Bytes)
    | SHead(op: OpId, rest: Bytes)
    | SBody(op: OpId, rest: Bytes)
    | SFinish(op: OpId, ec: Code)
    | SDone

  datatype RecvPc =
    | RIdle
    | RHead
    | RMeta(slot: nat)
    | RInit(slot: nat, sid: Sid)
    | RAsk(size: nat, slot: nat)
    | RWait(size: nat, slot: nat)
    | RMatched(op: OpId, size: nat, slot: nat)
    | RBody(op: OpId, size: nat, slot: nat)
    | RGood(op: OpId, slot: nat)
    | RBad(prev: Option<OpId>, ec: Code)
    | RDone
    | RCrash

  /** History: nothing here is read by the code. */
  datatype History = History(
    sent: Bytes,              // bytes handed over by the transport below the send task
    tx: seq<Frame>,           // frames whose transmission has begun
    begun: seq<OpId>,         // sends whose data frame is in tx
    headBegun: bool,          // the list head is the last of begun
    accepted: seq<OpId>,      // sends that entered the list
    withdrawn: set<OpId>,     // sends cancelled before they started
    read: Bytes,              // bytes delivered by the transport to the receive task
    rx: seq<Frame>,           // frames wholly processed by the receive task
    snaps: seq<set<OpId>>,    // operations pending when each flush was called
    orphans: seq<set<OpId>>)  // those of them that a cancelled holder left behind it

  datatype Sched = Sched(
    forks: seq<Fork>,
    idMap: map<Sid, nat>,
    remoteMap: map<nat, nat>,
    nextLocal: nat,
    nextOp: nat,
    sops: map<OpId, SendOp>,
    rops: map<OpId, RecvOp>,
    status: map<OpId, Status>,
    order: seq<OpId>,         // the intrusive list from mSendBufferBegin
    dangling: bool,           // mSendBufferLast points to an erased operation
    sendQ: seq<seq<OpId>>,
    recvQ: seq<seq<OpId>>,
    sendR: seq<Ring>,         // the blocks of the queues
    recvR: seq<Ring>,
    numRecvs: nat,
    ec: Code,
    sstat: TaskStatus,
    rstat: TaskStatus,
    spc: SendPc,
    rpc: RecvPc,
    part: Bytes,              // bytes read of the frame being received
    bytesSent: nat,
    bytesReceived: nat,
    q: Queued,
    h: History)

  /** The blocks of a fork's queue of operations. */
  type Ring = seq<Window<(), OpId>>

  const QUEUE_CAPACITY: nat := 8

  function EmptyRing(): Ring {
    Fresh((), QUEUE_CAPACITY)
  }

  /** `s` without the elements of `w`. */
  function Without(s: seq<OpId>, w: set<OpId>): seq<OpId> {
    if s == [] then []
    else (if s[0] in w then [] else [s[0]]) + Without(s[1..], w)
  }

  /** The elements of `s` that are sends on session `sid`. */
  function On(s: seq<OpId>, sops: map<OpId, SendOp>, sid: Sid): seq<OpId> {
    if s == [] then []
    else (if s[0] in sops && sops[s[0]].sid == sid then [s[0]] else []) + On(s[1..], sops, sid)
  }

  /** The bodies of the sends of `s` on session `sid`. */
  function BodiesOn(s: seq<OpId>, sops: map<OpId, SendOp>, sid: Sid): seq<Bytes> {
    if s == [] then []
    else (if s[0] in sops && sops[s[0]].sid == sid then [sops[s[0]].body] else [])
         + BodiesOn(s[1..], sops, sid)
  }

  /** The bodies of the sends of `s`. */
  function BodiesAll(s: seq<OpId>, sops: map<OpId, SendOp>): seq<Bytes> {
    if s == [] then []
    else BodiesAll(s[..|s| - 1], sops)
         + (if s[|s| - 1] in sops then [sops[s[|s| - 1]].body] else [])
  }

  /** All queued operations, fork by fork. */
  function Flatten(q: seq<seq<OpId>>): seq<OpId> {
    if q == [] then [] else q[0] + Flatten(q[1..])
  }

  /** The last operation of every nonempty queue. */
  function Backs(q: seq<seq<OpId>>): set<OpId> {
    set i | 0 <= i < |q| && q[i] != [] :: q[i][|q[i]| - 1]
  }

  function NoQueues(n: nat): (r: seq<seq<OpId>>)
    ensures |r| == n
  {
    seq(n, i => [])
  }

  // ---- completion -------------------------------------------------------

  /** The flush handles queued when `op` completes: tokens from `t` on whose only
      holder is `op`, in the order they were attached. */
  function Fired(tokens: seq<set<OpId>>, op: OpId, t: nat): seq<Handle>
    requires t <= |tokens|
    decreases |tokens| - t
  {
    if t == |tokens| then []
    else (if tokens[t] == {op} then [FlushDone(t)] else []) + Fired(tokens, op, t + 1)
  }

  function Release(tokens: seq<set<OpId>>, op: OpId): (r: seq<set<OpId>>)
    ensures |r| == |tokens|
  {
    seq(|tokens|, t requires 0 <= t < |tokens| => tokens[t] - {op})
  }

  /** completeOn: queue the handle of `op`, then the flushes it was the last to hold. */
  function Finish(q: Queued, op: OpId, r: Result): Queued {
    Queued(q.log + [OpDone(op, r)] + Fired(q.tokens, op, 0), Release(q.tokens, op))
  }

  /** Completion of a whole queue with an error: the first operation gets `ec`, the
      others get `cancel`. */
  function DrainOps(q: Queued, ops: seq<OpId>, dir: Dir, ec: Code): Queued
    decreases |ops|
  {
    if ops == [] then q
    else DrainOps(Finish(q, ops[0], Failed(dir, ec)), ops[1..], dir, Cancel)
  }

  // ---- cancel -----------------------------------------------------------

  /** Where a parked receive task is resumed by cancel. */
  function StoppedRecv(rpc: RecvPc, caller: Caller, e: Code): RecvPc {
    match rpc
    case RIdle => RDone
    case RWait(_, _) => RBad(None, if caller.Sender? then Cancel else e)
    case _ => rpc
  }

  /** The part of cancel that runs once, when the first error is recorded: parked
      tasks are resumed with an error. */
  function Stop(s: Sched, caller: Caller, e: Code): Sched {
    if s.ec != Success then s
    else
      s.(ec := e,
         spc := if s.spc.SIdle? then SDone else s.spc,
         rpc := StoppedRecv(s.rpc, caller, e))
  }

  function DrainSends(s: Sched, e: Code): Sched {
    s.(sstat := TaskClosed,
       order := [],
       dangling := false,
       sendQ := NoQueues(|s.sendQ|),
       sendR := DrainAll(s.sendR),
       q := DrainOps(s.q, s.order, SendDir, e))
  }

  function DrainRecvs(s: Sched, e: Code): Sched {
    s.(rstat := TaskClosed,
       recvQ := NoQueues(|s.recvQ|),
       recvR := DrainAll(s.recvR),
       numRecvs := 0,
       q := DrainOps(s.q, Flatten(s.recvQ), RecvDir, e))
  }

  // ---- user calls -------------------------------------------------------

  predicate CanFork(s: Sched, sid: Sid) {
    && s.nextLocal < NO_SLOT
    && (sid in s.idMap ==> s.idMap[sid] < |s.forks| && s.forks[s.idMap[sid]].localId == NO_SLOT)
  }

  /** initLocalSocketFork */
  function DoFork(s: Sched, sid: Sid): Sched
    requires CanFork(s, sid)
  {
    if sid in s.idMap then
      var i := s.idMap[sid];
      s.(forks := s.forks[i := s.forks[i].(localId := s.nextLocal)], nextLocal := s.nextLocal + 1)
    else
      s.(forks := s.forks + [Fork(sid, s.nextLocal, NO_SLOT, false)],
         idMap := s.idMap[sid := |s.forks|],
         sendQ := s.sendQ + [[]],
         recvQ := s.recvQ + [[]],
         sendR := s.sendR + [EmptyRing()],
         recvR := s.recvR + [EmptyRing()],
         nextLocal := s.nextLocal + 1)
  }

  /** The session is one the user holds: it was forked locally. */
  predicate IsLocal(s: Sched, sid: Sid) {
    && sid in s.idMap && s.idMap[sid] < |s.forks| == |s.sendQ| == |s.recvQ|
    && s.forks[s.idMap[sid]].localId != NO_SLOT
  }

  /** Limits of the code: bodies fit the size field, and the tail of the list is live if
      the send joins it. */
  predicate CanSend(s: Sched, sid: Sid, body: Bytes) {
    && IsLocal(s, sid)
    && |body| < U32 - 1
    && (body != [] && s.ec == Success ==> !s.dangling)
  }

  function PushTo(rs: seq<Ring>, i: nat, op: OpId): (r: seq<Ring>)
    ensures |r| == |rs|
  {
    if i < |rs| then rs[i := RingPush(rs[i], op, ())] else rs
  }

  function PopFrom(rs: seq<Ring>, i: nat): (r: seq<Ring>)
    ensures |r| == |rs|
  {
    if i < |rs| then rs[i := RingPop(rs[i])] else rs
  }

  function EraseFrom(rs: seq<Ring>, i: nat, op: OpId): (r: seq<Ring>)
    ensures |r| == |rs|
  {
    if i < |rs| then rs[i := EraseValue(rs[i], op)] else rs
  }

  function DrainAll(rs: seq<Ring>): (r: seq<Ring>)
    ensures |r| == |rs|
  {
    seq(|rs|, i requires 0 <= i < |rs| => Drained(rs[i]))
  }

  function DoSend(s: Sched, sid: Sid, body: Bytes): Sched
    requires CanSend(s, sid, body)
  {
    var op := s.nextOp;
    var s1 := s.(nextOp := s.nextOp + 1);
    if body == [] then
      s1.(q := s.q.(log := s.q.log + [OpDone(op, Refused(SendLengthZeroMsg))]))
    else if s.ec != Success then
      s1.(q := s.q.(log := s.q.log + [OpDone(op, Refused(s.ec))]))
    else
      var i := s.idMap[sid];
      var s2 := s1.(sops := s.sops[op := SendOp(sid, body)],
                    order := s.order + [op],
                    sendQ := s.sendQ[i := s.sendQ[i] + [op]],
                    sendR := PushTo(s.sendR, i, op),
                    h := s.h.(accepted := s.h.accepted + [op]));
      if s.spc.SIdle? then
        s2.(sstat := InUse, status := s.status[op := InProgress], spc := SGot(op))
      else
        s2.(status := s.status[op := NotStarted])
  }

  /** The recv joins its fork's queue. */
  function QueueRecv(s: Sched, sid: Sid, buffer: Buffer): Sched
    requires IsLocal(s, sid)
  {
    var i, op := s.idMap[sid], s.nextOp;
    s.(nextOp := op + 1,
       rops := s.rops[op := RecvOp(sid, buffer)],
       numRecvs := s.numRecvs + 1,
       recvQ := s.recvQ[i := s.recvQ[i] + [op]],
       recvR := PushTo(s.recvR, i, op))
  }

  /** A receive task parked for any recv, or for one of fork `i`, is resumed. */
  function WakeReceiver(s: Sched, i: nat, op: OpId): Sched
    requires i < |s.forks|
  {
    if s.rpc.RIdle? then
      s.(rstat := InUse, status := s.status[op := InProgress], rpc := RHead)
    else if s.rpc.RWait? && s.forks[i].remoteId == s.rpc.slot then
      s.(rstat := InUse, status := s.status[op := InProgress], rpc := RMatched(op, s.rpc.size, s.rpc.slot))
    else
      s.(status := s.status[op := NotStarted])
  }

  function DoRecv(s: Sched, sid: Sid, buffer: Buffer): Sched
    requires IsLocal(s, sid)
  {
    if s.ec != Success then
      s.(nextOp := s.nextOp + 1, q := s.q.(log := s.q.log + [OpDone(s.nextOp, Refused(s.ec))]))
    else
      WakeReceiver(QueueRecv(s, sid, buffer), s.idMap[sid], s.nextOp)
  }

  predicate CanCancelSend(s: Sched, op: OpId) {
    && op in s.order && op in s.status && op in s.sops
    && sOf(s, op) < |s.sendQ|
    && (s.status[op].NotStarted? ==> CanErase(s.sendR, sOf(s, op), op))
  }

  /** The queue finds an operation by its address. */
  predicate CanErase(rs: seq<Ring>, i: nat, op: OpId) {
    i < |rs| && Erasable(rs[i], op)
  }

  /** Two operations of the same fork and direction: they complete in call order. */
  predicate SameQueue(a: OpId, b: OpId, sops: map<OpId, SendOp>, rops: map<OpId, RecvOp>) {
    || (a in sops && b in sops && sops[a].sid == sops[b].sid)
    || (a in rops && b in rops && rops[a].sid == rops[b].sid)
  }

  /** The operations queued before `op` in its fork and direction. */
  function Earlier(s: Sched, op: OpId): set<OpId> {
    set p | p in Pending(s) && p < op && SameQueue(p, op, s.sops, s.rops)
  }

  /** When `op` goes, a flush whose token it holds no longer waits for the operations
      before it. */
  function Orphaned(s: Sched, op: OpId): (r: seq<set<OpId>>)
    ensures |r| == |s.h.orphans|
  {
    seq(|s.h.orphans|, t requires 0 <= t < |s.h.orphans| =>
        s.h.orphans[t] + (if t < |s.q.tokens| && t < |s.h.snaps| && op in s.q.tokens[t]
                          then Earlier(s, op) * s.h.snaps[t] else {}))
  }

  function sOf(s: Sched, op: OpId): nat {
    if op in s.sops && s.sops[op].sid in s.idMap then s.idMap[s.sops[op].sid] else |s.sendQ|
  }

  function rOf(s: Sched, op: OpId): nat {
    if op in s.rops && s.rops[op].sid in s.idMap then s.idMap[s.rops[op].sid] else |s.recvQ|
  }

  /** The stop callback of a send. */
  function DoCancelSend(s: Sched, op: OpId): Sched
    requires CanCancelSend(s, op)
  {
    if s.status[op].NotStarted? then
      var i := sOf(s, op);
      s.(q := Finish(s.q, op, Withdrawn),
         order := Without(s.order, {op}),
         dangling := s.dangling || s.order[|s.order| - 1] == op,
         sendQ := s.sendQ[i := Without(s.sendQ[i], {op})],
         sendR := EraseFrom(s.sendR, i, op),
         h := s.h.(withdrawn := s.h.withdrawn + {op}, orphans := Orphaned(s, op)))
    else
      s.(status := s.status[op := Canceling])
  }

  predicate CanCancelRecv(s: Sched, op: OpId) {
    && op in Flatten(s.recvQ) && op in s.status && op in s.rops
    && rOf(s, op) < |s.recvQ|
    && s.numRecvs > 0
    && (s.status[op].NotStarted? ==> CanErase(s.recvR, rOf(s, op), op))
  }

  /** The stop callback of a recv. */
  function DoCancelRecv(s: Sched, op: OpId): Sched
    requires CanCancelRecv(s, op)
  {
    if s.status[op].NotStarted? then
      var i := rOf(s, op);
      s.(q := Finish(s.q, op, Withdrawn),
         numRecvs := s.numRecvs - 1,
         recvQ := s.recvQ[i := Without(s.recvQ[i], {op})],
         recvR := EraseFrom(s.recvR, i, op),
         h := s.h.(orphans := Orphaned(s, op)))
    else
      s.(status := s.status[op := Canceling])
  }

  /** flush reads the last slot of every nonempty queue: it must be live. */
  predicate CanFlush(s: Sched) {
    && |s.sendQ| == |s.recvQ| == |s.sendR| == |s.recvR|
    && (forall i :: 0 <= i < |s.recvQ| && s.recvQ[i] != [] ==> BackLive(s.recvR[i]))
    && (forall i :: 0 <= i < |s.sendQ| && s.sendQ[i] != [] ==> BackLive(s.sendR[i]))
  }

  function Pending(s: Sched): set<OpId> {
    (set op | op in s.order) + (set op | op in Flatten(s.recvQ))
  }

  function DoFlush(s: Sched): Sched
    requires CanFlush(s)
  {
    var t := |s.q.tokens|;
    var s1 := s.(h := s.h.(snaps := s.h.snaps + [Pending(s)], orphans := s.h.orphans + [{}]));
    if s.numRecvs == 0 && s.order == [] then
      s1.(q := Queued(s.q.log + [FlushDone(t)], s.q.tokens + [{}]))
    else
      s1.(q := s.q.(tokens := s.q.tokens + [Backs(s.recvQ) + Backs(s.sendQ)]))
  }

  /** close() */
  function DoClose(s: Sched): Sched {
    Stop(s, Extern, Closed)
  }

  // ---- send task --------------------------------------------------------

  predicate CanBegin(s: Sched) {
    && s.spc.SGot? && s.spc.op in s.sops
    && sOf(s, s.spc.op) < |s.forks| == |s.sendQ|
  }

  /** Start of the data message of `op`: its header is given to the transport. */
  function BeginHead(s: Sched, op: OpId): Sched
    requires op in s.sops && sOf(s, op) < |s.forks| == |s.sendQ|
  {
    var slot := s.forks[sOf(s, op)].localId;
    var body := s.sops[op].body;
    s.(spc := SHead(op, Header(|body|, slot)),
       h := s.h.(tx := s.h.tx + [Data(slot, body)], begun := s.h.begun + [op], headBegun := true))
  }

  /** The send task picks up its operation: first a meta message if the fork has
      not been announced, then the data message. */
  function DoBegin(s: Sched): Sched
    requires CanBegin(s)
  {
    var op := s.spc.op;
    var i := sOf(s, op);
    if s.forks[i].initiated then BeginHead(s, op)
    else
      var meta := Meta(s.forks[i].localId, s.forks[i].sid);
      s.(forks := s.forks[i := s.forks[i].(initiated := true)],
         spc := SMeta(op, EncFrame(meta)),
         h := s.h.(tx := s.h.tx + [meta]))
  }

  /** The transport takes the next `n` bytes of the message in flight. */
  predicate CanSendBytes(s: Sched, n: nat) {
    (s.spc.SMeta? || s.spc.SHead? || s.spc.SBody?) && 0 < n <= |s.spc.rest|
  }

  function DoSendBytes(s: Sched, n: nat): Sched
    requires CanSendBytes(s, n)
  {
    var rest := s.spc.rest[n..];
    s.(spc := match s.spc
              case SMeta(op, _) => SMeta(op, rest)
              case SHead(op, _) => SHead(op, rest)
              case SBody(op, _) => SBody(op, rest),
       h := s.h.(sent := s.h.sent + s.spc.rest[..n]))
  }

  /** Size of the span given to the transport by the send task. */
  function SpanSize(s: Sched): nat {
    match s.spc
    case SMeta(_, _) => META
    case SHead(_, _) => HEADER
    case SBody(op, _) => if op in s.sops then |s.sops[op].body| else 0
    case _ => 0
  }

  /** Codes a transport may report: anything but the two codes only the scheduler makes. */
  predicate IsTransportCode(e: Code) {
    e != BadCoprotoMessageHeader && e != BadBufferSize
  }

  /** The transport completes. Its contract: success means a full transfer. */
  predicate CanSendEnd(s: Sched, e: Code) {
    && (s.spc.SMeta? || s.spc.SHead? || s.spc.SBody?)
    && s.spc.op in s.sops && sOf(s, s.spc.op) < |s.forks| == |s.sendQ|
    && |s.spc.rest| <= SpanSize(s)
    && (e.Success? ==> s.spc.rest == [])
    && IsTransportCode(e)
  }

  function DoSendEnd(s: Sched, e: Code): Sched
    requires CanSendEnd(s, e)
  {
    var s1 := s.(bytesSent := s.bytesSent + SpanSize(s) - |s.spc.rest|);
    var op := s.spc.op;
    if e != Success then s1.(spc := SFinish(op, e))
    else
      match s.spc
      case SMeta(_, _) => BeginHead(s1, op)
      case SHead(_, _) => s1.(spc := SBody(op, s.sops[op].body))
      case SBody(_, _) => s1.(spc := SFinish(op, Success))
  }

  predicate CanNextSend(s: Sched) {
    && s.spc.SFinish? && s.order != [] && s.order[0] == s.spc.op
    && sOf(s, s.spc.op) < |s.sendQ| && s.sendQ[sOf(s, s.spc.op)] != []
  }

  /** NextSendOp::completePrev */
  function CompleteSend(s: Sched): Sched
    requires CanNextSend(s)
  {
    var op := s.spc.op;
    var i := sOf(s, op);
    s.(q := Finish(s.q, op, if s.spc.ec == Success then Sent else Failed(SendDir, s.spc.ec)),
       order := s.order[1..],
       dangling := s.dangling && |s.order| > 1,
       sendQ := s.sendQ[i := s.sendQ[i][1..]],
       sendR := PopFrom(s.sendR, i),
       h := s.h.(headBegun := false))
  }

  /** The next operation of the list starts, or the send task parks. */
  function StartNext(s: Sched): Sched {
    if s.order != [] then
      s.(status := s.status[s.order[0] := InProgress], spc := SGot(s.order[0]))
    else
      s.(sstat := Idle, spc := SIdle)
  }

  /** The send task stops: the first error is recorded and the list is drained. */
  function StopSending(s: Sched, e: Code): Sched {
    DrainSends(Stop(s, Sender, e), e).(spc := SDone)
  }

  /** NextSendOp::await_suspend: complete the previous send, then get the next one,
      park, or stop. */
  function DoNextSend(s: Sched): Sched
    requires CanNextSend(s)
  {
    var e := if s.spc.ec == Success then Success else Cancel;
    if e != Success || s.ec != Success then StopSending(CompleteSend(s), e)
    else StartNext(CompleteSend(s))
  }

  // ---- receive task -----------------------------------------------------

  /** Length of `part` when the current transport recv is complete. */
  function Wanted(rpc: RecvPc): nat {
    match rpc
    case RHead => HEADER
    case RMeta(_) => META
    case RBody(_, size, _) => HEADER + size
    case _ => 0
  }

  /** Length of `part` when the current transport recv began. */
  function Before(rpc: RecvPc): nat {
    if rpc.RHead? then 0 else HEADER
  }

  predicate Reading(s: Sched) {
    s.rpc.RHead? || s.rpc.RMeta? || s.rpc.RBody?
  }

  predicate CanRecvBytes(s: Sched, chunk: Bytes) {
    Reading(s) && 0 < |chunk| && |s.part| + |chunk| <= Wanted(s.rpc)
  }

  function DoRecvBytes(s: Sched, chunk: Bytes): Sched
    requires CanRecvBytes(s, chunk)
  {
    s.(part := s.part + chunk, h := s.h.(read := s.h.read + chunk))
  }

  predicate CanRecvEnd(s: Sched, e: Code) {
    && Reading(s) && Before(s.rpc) <= |s.part|
    && (e.Success? ==> |s.part| == Wanted(s.rpc))
    && IsTransportCode(e)
  }

  /** Where the receive task goes when the transport recv ends. */
  function AfterRecv(s: Sched, e: Code): RecvPc
    requires CanRecvEnd(s, e)
  {
    if e != Success then RBad(if s.rpc.RBody? then Some(s.rpc.op) else None, e)
    else
      match s.rpc
      case RHead =>
        var size := HeaderSize(s.part);
        var slot := HeaderSlot(s.part);
        if size == 0 then RMeta(slot) else RAsk(size, slot)
      case RMeta(slot) => RInit(slot, s.part[8..24])
      case RBody(op, _, slot) => RGood(op, slot)
  }

  function DoRecvEnd(s: Sched, e: Code): Sched
    requires CanRecvEnd(s, e)
  {
    s.(bytesReceived := s.bytesReceived + |s.part| - Before(s.rpc), rpc := AfterRecv(s, e))
  }

  /** The fork of a session first named by the peer. */
  function RemoteFork(s: Sched, sid: Sid): Sched {
    if sid in s.idMap then s
    else
      s.(forks := s.forks + [Fork(sid, NO_SLOT, NO_SLOT, false)],
         idMap := s.idMap[sid := |s.forks|],
         sendQ := s.sendQ + [[]],
         recvQ := s.recvQ + [[]],
         sendR := s.sendR + [EmptyRing()],
         recvR := s.recvR + [EmptyRing()])
  }

  /** The peer's slot is bound to the fork of its session. `RCrash` is a failed assertion. */
  function BindSlot(s: Sched, slot: nat, sid: Sid): Sched
    requires sid in s.idMap
  {
    var i := s.idMap[sid];
    if i >= |s.forks| then s.(rpc := RCrash)
    else if s.forks[i].remoteId != NO_SLOT then s.(rpc := RBad(None, BadCoprotoMessageHeader))
    else if slot in s.remoteMap then s.(rpc := RCrash)
    else
      s.(forks := s.forks[i := s.forks[i].(remoteId := slot)],
         remoteMap := s.remoteMap[slot := i],
         rpc := RHead,
         part := [],
         h := s.h.(rx := s.h.rx + [Meta(slot, sid)]))
  }

  /** initRemoteSocketFork and the turn of the loop around it. */
  function DoInit(s: Sched): Sched
    requires s.rpc.RInit?
  {
    if s.rpc.slot == NO_SLOT then s.(rpc := RBad(None, BadCoprotoMessageHeader))
    else BindSlot(RemoteFork(s, s.rpc.sid), s.rpc.slot, s.rpc.sid)
  }

  /** The first recv of the fork of a header is taken, or the receive task parks. */
  function MatchHeader(s: Sched, size: nat, slot: nat): Sched {
    if s.ec != Success then s.(rpc := RBad(None, s.ec))
    else if slot in s.remoteMap && s.remoteMap[slot] < |s.recvQ| then
      var i := s.remoteMap[slot];
      if s.recvQ[i] == [] then
        s.(rstat := RequestedRecvOp, rpc := RWait(size, slot))
      else
        s.(status := s.status[s.recvQ[i][0] := InProgress], rpc := RMatched(s.recvQ[i][0], size, slot))
    else s.(rpc := RCrash)
  }

  /** GetRequestedRecvSocketFork::await_suspend: find the fork of a message header
      and its first recv, or park. */
  function DoAsk(s: Sched): Sched
    requires s.rpc.RAsk?
  {
    if s.rpc.slot in s.remoteMap then MatchHeader(s, s.rpc.size, s.rpc.slot)
    else
      MatchHeader(DrainRecvs(Stop(s, Recver, BadCoprotoMessageHeader), BadCoprotoMessageHeader),
                  s.rpc.size, s.rpc.slot)
  }

  /** The buffer of the matched recv is sized, and rejected if it cannot hold the
      message. */
  function DoFill(s: Sched): Sched
    requires s.rpc.RMatched? && s.rpc.op in s.rops
  {
    var op := s.rpc.op;
    if Fits(s.rops[op].buffer, s.rpc.size) then s.(rpc := RBody(op, s.rpc.size, s.rpc.slot))
    else s.(rpc := RBad(Some(op), BadBufferSize))
  }

  function PrevRecv(rpc: RecvPc): Option<OpId> {
    match rpc
    case RGood(op, _) => Some(op)
    case RBad(prev, _) => prev
    case _ => None
  }

  predicate CanAny(s: Sched) {
    && (s.rpc.RGood? || s.rpc.RBad?)
    && (PrevRecv(s.rpc).Some? ==>
          var i := rOf(s, PrevRecv(s.rpc).value);
          i < |s.recvQ| && s.recvQ[i] != [] && s.numRecvs > 0)
    && (s.rpc.RGood? ==> |s.part| >= HEADER)
  }

  /** AnyRecvOp::completePrev */
  function CompleteRecv(s: Sched): Sched
    requires CanAny(s)
  {
    match PrevRecv(s.rpc)
    case None => s
    case Some(op) =>
      var i := rOf(s, op);
      var s1 := s.(numRecvs := s.numRecvs - 1, recvQ := s.recvQ[i := s.recvQ[i][1..]], recvR := PopFrom(s.recvR, i));
      if s.rpc.RGood? then
        var body := s.part[8..];
        s1.(q := Finish(s.q, op, Received(s.rops[op].sid, body)),
            part := [],
            h := s.h.(rx := s.h.rx + [Data(s.rpc.slot, body)]))
      else
        s1.(q := Finish(s.q, op, Failed(RecvDir, s.rpc.ec)))
  }

  /** The next header is read, or the receive task parks. */
  function ReadNext(s: Sched): Sched {
    if s.numRecvs > 0 then s.(rpc := RHead) else s.(rstat := Idle, rpc := RIdle)
  }

  /** The receive task stops: the first error is recorded and all recvs are drained. */
  function StopReading(s: Sched, e: Code): Sched {
    DrainRecvs(Stop(s, Recver, e), e).(rpc := RDone)
  }

  /** The error a receive task carries into its next await, after completePrev. */
  function CarriedError(rpc: RecvPc): Code {
    match rpc
    case RBad(prev, e) => if prev.Some? then Cancel else e
    case _ => Success
  }

  /** AnyRecvOp::await_suspend: complete the previous recv, then read the next
      header, park, or stop. */
  function DoAny(s: Sched): Sched
    requires CanAny(s)
  {
    var e := CarriedError(s.rpc);
    if e != Success || s.ec != Success then StopReading(CompleteRecv(s), e)
    else ReadNext(CompleteRecv(s))
  }

  // ---- steps ------------------------------------------------------------

  datatype Step =
    | UFork(sid: Sid)
    | USend(sid: Sid, body: Bytes)
    | URecv(sid: Sid, buffer: Buffer)
    | UCancelSend(op: OpId)
    | UCancelRecv(op: OpId)
    | UFlush
    | UClose
    | TBegin
    | TSendBytes(n: nat)
    | TSendEnd(ec: Code)
    | TNextSend
    | TRecvBytes(chunk: Bytes)
    | TRecvEnd(ec: Code)
    | TInit
    | TAsk
    | TFill
    | TAny

  predicate Enabled(s: Sched, st: Step) {
    match st
    case UFork(sid) => CanFork(s, sid)
    case USend(sid, body) => CanSend(s, sid, body)
    case URecv(sid, _) => IsLocal(s, sid)
    case UCancelSend(op) => CanCancelSend(s, op)
    case UCancelRecv(op) => CanCancelRecv(s, op)
    case UFlush => CanFlush(s)
    case UClose => true
    case TBegin => CanBegin(s)
    case TSendBytes(n) => CanSendBytes(s, n)
    case TSendEnd(e) => CanSendEnd(s, e)
    case TNextSend => CanNextSend(s)
    case TRecvBytes(chunk) => CanRecvBytes(s, chunk)
    case TRecvEnd(e) => CanRecvEnd(s, e)
    case TInit => s.rpc.RInit?
    case TAsk => s.rpc.RAsk?
    case TFill => s.rpc.RMatched? && s.rpc.op in s.rops
    case TAny => CanAny(s)
  }

  function Apply(s: Sched, st: Step): Sched
    requires Enabled(s, st)
  {
    match st
    case UFork(sid) => DoFork(s, sid)
    case USend(sid, body) => DoSend(s, sid, body)
    case URecv(sid, buffer) => DoRecv(s, sid, buffer)
    case UCancelSend(op) => DoCancelSend(s, op)
    case UCancelRecv(op) => DoCancelRecv(s, op)
    case UFlush => DoFlush(s)
    case UClose => DoClose(s)
    case TBegin => DoBegin(s)
    case TSendBytes(n) => DoSendBytes(s, n)
    case TSendEnd(e) => DoSendEnd(s, e)
    case TNextSend => DoNextSend(s)
    case TRecvBytes(chunk) => DoRecvBytes(s, chunk)
    case TRecvEnd(e) => DoRecvEnd(s, e)
    case TInit => DoInit(s)
    case TAsk => DoAsk(s)
    case TFill => DoFill(s)
    case TAny => DoAny(s)
  }

  /** A scheduler just built: the root fork, both tasks parked. */
  function Start(root: Sid): Sched {
    Sched([Fork(root, 1, NO_SLOT, false)], map[root := 0], map[], 2, 0,
          map[], map[], map[], [], false, [[]], [[]], [EmptyRing()], [EmptyRing()], 0,
          Success, Idle, Idle, SIdle, RIdle, [], 0, 0, Queued([], []),
          History([], [], [], false, [], {}, [], [], [], []))
  }
}
