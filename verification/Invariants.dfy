/** What holds of one endpoint in every reachable state, part by part. Each part
    names the fields it depends on, so a step keeps a part it does not touch. */
module Invariants {
  import opened Common
  import opened Framing
  import opened Streams
  import opened Scheduler
  import opened Lists

  ghost predicate Ascending(s: seq<OpId>) {
    forall i, j :: 0 <= i < j < |s| ==> s[i] < s[j]
  }

  /** The fork table: session ids, local slots and remote slots name forks uniquely. */
  ghost predicate IdsOf(forks: seq<Fork>, idMap: map<Sid, nat>, remoteMap: map<nat, nat>, nextLocal: nat) {
    && (forall sid :: sid in idMap ==> idMap[sid] < |forks| && forks[idMap[sid]].sid == sid)
    && (forall i :: 0 <= i < |forks| ==> forks[i].sid in idMap && idMap[forks[i].sid] == i)
    && nextLocal <= NO_SLOT
    && (forall i :: 0 <= i < |forks| ==> forks[i].localId == NO_SLOT || forks[i].localId < nextLocal)
    && (forall i, j :: 0 <= i < |forks| && 0 <= j < |forks| && forks[i].localId == forks[j].localId ==>
                         i == j || forks[i].localId == NO_SLOT)
    && (forall slot :: slot in remoteMap ==>
                         slot < NO_SLOT && remoteMap[slot] < |forks| && forks[remoteMap[slot]].remoteId == slot)
    && (forall i :: 0 <= i < |forks| && forks[i].remoteId != NO_SLOT ==>
                      forks[i].remoteId in remoteMap && remoteMap[forks[i].remoteId] == i)
    && (forall i :: 0 <= i < |forks| && forks[i].initiated ==> forks[i].localId != NO_SLOT)
  }

  ghost predicate LocalIn(forks: seq<Fork>, idMap: map<Sid, nat>, sid: Sid) {
    sid in idMap && idMap[sid] < |forks| && forks[idMap[sid]].localId != NO_SLOT
  }

  /** Every operation ever accepted is on a fork the user holds; sends fit a frame. */
  ghost predicate OpsOf(sops: map<OpId, SendOp>, rops: map<OpId, RecvOp>,
                        forks: seq<Fork>, idMap: map<Sid, nat>, nextOp: nat) {
    && (forall op :: op in sops ==>
                       op < nextOp && LocalIn(forks, idMap, sops[op].sid) && 0 < |sops[op].body| < U32 - 1)
    && (forall op :: op in rops ==>
                       op < nextOp && op !in sops && LocalIn(forks, idMap, rops[op].sid))
  }

  /** The global send list: in call order, and only its head may have started. */
  ghost predicate ListOf(order: seq<OpId>, sops: map<OpId, SendOp>, status: map<OpId, Status>) {
    && Ascending(order)
    && (forall op :: op in order ==> op in sops && op in status)
    && (order != [] ==> forall op :: op in order[1..] ==> op in status && status[op] == NotStarted)
  }

  /** The send task: parked exactly when the list is empty, else at work on the head. */
  ghost predicate SendPcOf(spc: SendPc, order: seq<OpId>, status: map<OpId, Status>,
                           ec: Code, dangling: bool, sstat: TaskStatus) {
    && (match spc
        case SIdle => order == [] && ec == Success
        case SDone => order == [] && ec != Success
        case _ => order != [] && order[0] == spc.op && spc.op in status && status[spc.op] != NotStarted)
    && (dangling ==> order != [])
    && (ec == Success ==> sstat == if spc.SIdle? then Idle else InUse)
  }

  /** The global list restricted to a fork is that fork's queue. */
  ghost predicate SendQOf(sendQ: seq<seq<OpId>>, order: seq<OpId>, sops: map<OpId, SendOp>, forks: seq<Fork>) {
    && |sendQ| == |forks|
    && (forall i :: 0 <= i < |forks| ==> sendQ[i] == On(order, sops, forks[i].sid))
  }

  /** A recv queue: in call order, holding only recvs of its fork. */
  ghost predicate QueueAt(q: seq<OpId>, i: nat, rops: map<OpId, RecvOp>, status: map<OpId, Status>,
                          idMap: map<Sid, nat>) {
    && Ascending(q)
    && (forall op :: op in q ==>
                       op in rops && op in status && rops[op].sid in idMap && idMap[rops[op].sid] == i)
  }

  /** The recv queues, and their total length. */
  ghost predicate RecvQOf(recvQ: seq<seq<OpId>>, rops: map<OpId, RecvOp>, status: map<OpId, Status>,
                          idMap: map<Sid, nat>, numRecvs: nat) {
    && numRecvs == |Flatten(recvQ)|
    && (forall i :: 0 <= i < |recvQ| ==> QueueAt(recvQ[i], i, rops, status, idMap))
  }

  /** The operation the receive task works on is the front of its fork and has started. */
  ghost predicate FrontIs(op: OpId, recvQ: seq<seq<OpId>>, rops: map<OpId, RecvOp>,
                          status: map<OpId, Status>, idMap: map<Sid, nat>) {
    && op in rops && op in status && status[op] != NotStarted
    && rops[op].sid in idMap && idMap[rops[op].sid] < |recvQ|
    && recvQ[idMap[rops[op].sid]] != [] && recvQ[idMap[rops[op].sid]][0] == op
  }

  ghost predicate MatchedOf(op: OpId, slot: nat, recvQ: seq<seq<OpId>>, rops: map<OpId, RecvOp>,
                            status: map<OpId, Status>, idMap: map<Sid, nat>, remoteMap: map<nat, nat>) {
    && FrontIs(op, recvQ, rops, status, idMap)
    && slot in remoteMap && remoteMap[slot] == idMap[rops[op].sid]
  }

  /** The receive task: where it is against the queues, the error and the status. */
  ghost predicate RecvPcOf(rpc: RecvPc, recvQ: seq<seq<OpId>>, rops: map<OpId, RecvOp>,
                           status: map<OpId, Status>, idMap: map<Sid, nat>, remoteMap: map<nat, nat>,
                           numRecvs: nat, ec: Code, rstat: TaskStatus) {
    && (match rpc
        case RIdle => numRecvs == 0 && ec == Success
        case RWait(_, slot) =>
          && ec == Success && slot in remoteMap
          && remoteMap[slot] < |recvQ| && recvQ[remoteMap[slot]] == []
        case RMatched(op, _, slot) => MatchedOf(op, slot, recvQ, rops, status, idMap, remoteMap)
        case RBody(op, _, slot) => MatchedOf(op, slot, recvQ, rops, status, idMap, remoteMap)
        case RGood(op, slot) => MatchedOf(op, slot, recvQ, rops, status, idMap, remoteMap)
        case RBad(prev, e) => e != Success && (prev.Some? ==> FrontIs(prev.value, recvQ, rops, status, idMap))
        case RDone => numRecvs == 0 && ec != Success
        case _ => true)
    && (ec == Success && rpc != RCrash ==>
          rstat == if rpc.RIdle? then Idle else if rpc.RWait? then RequestedRecvOp else InUse)
  }

  /** The frames begun: announced in order, and exactly the initiated forks announced. */
  ghost predicate TxOf(tx: seq<Frame>, forks: seq<Fork>) {
    && ValidFrames(tx) && Announced(tx)
    && (forall i :: 0 <= i < |forks| && forks[i].initiated ==>
                      forks[i].localId in Slots(tx) && Slots(tx)[forks[i].localId] == forks[i].sid)
    && (forall slot :: slot in Slots(tx) ==>
                         exists i :: 0 <= i < |forks| && forks[i].initiated && forks[i].localId == slot)
  }

  /** The frames begun carry, for every session, the bodies of the sends begun. */
  ghost predicate BodiesOf(tx: seq<Frame>, begun: seq<OpId>, sops: map<OpId, SendOp>) {
    && (forall op :: op in begun ==> op in sops)
    && (forall sid :: Bodies(tx, sid) == BodiesOn(begun, sops, sid))
    && AllBodies(tx) == BodiesAll(begun, sops)
  }

  /** The bytes handed over so far and what is left of the message in flight. */
  ghost predicate WireOf(sent: Bytes, tx: seq<Frame>, spc: SendPc, sops: map<OpId, SendOp>, headBegun: bool) {
    match spc
    case SIdle => sent == Encode(tx) && !headBegun
    case SGot(_) => sent == Encode(tx) && !headBegun
    case SMeta(_, rest) => sent + rest == Encode(tx) && !headBegun && |rest| <= META
    case SHead(op, rest) =>
      op in sops && sent + rest + sops[op].body == Encode(tx) && headBegun && |rest| <= HEADER
    case SBody(op, rest) =>
      op in sops && sent + rest == Encode(tx) && headBegun && |rest| <= |sops[op].body|
    case SFinish(_, e) => sent <= Encode(tx) && (e == Success ==> sent == Encode(tx) && headBegun)
    case SDone => sent <= Encode(tx) && !headBegun
  }

  /** While a meta message is in flight its fork is already marked announced. */
  ghost predicate MetaOf(spc: SendPc, sops: map<OpId, SendOp>, forks: seq<Fork>, idMap: map<Sid, nat>) {
    spc.SMeta? ==>
      && spc.op in sops && sops[spc.op].sid in idMap && idMap[sops[spc.op].sid] < |forks|
      && forks[idMap[sops[spc.op].sid]].initiated
  }

  /** The sends of the list that have not begun. */
  function Unbegun(order: seq<OpId>, headBegun: bool): seq<OpId> {
    if headBegun && order != [] then order[1..] else order
  }

  /** Accepted sends, minus those cancelled before they started, are the sends begun
      and then the ones still waiting. */
  ghost predicate LedgerOf(accepted: seq<OpId>, withdrawn: set<OpId>, begun: seq<OpId>,
                           order: seq<OpId>, headBegun: bool, done: bool, nextOp: nat) {
    && Ascending(accepted)
    && (forall op :: op in accepted ==> op < nextOp)
    && (forall op :: op in withdrawn ==> op < nextOp)
    && (if done then begun <= Without(accepted, withdrawn)
        else Without(accepted, withdrawn) == begun + Unbegun(order, headBegun))
  }

  /** The bytes read: the frames processed and then the one being received. */
  ghost predicate RxOf(rx: seq<Frame>, read: Bytes, part: Bytes, rpc: RecvPc) {
    && ValidFrames(rx) && Announced(rx)
    && read == Encode(rx) + part
    && (match rpc
        case RIdle => part == []
        case RHead => |part| <= HEADER
        case RMeta(slot) => slot < U32 && HEADER <= |part| <= META && part[..8] == Header(0, slot)
        case RInit(slot, sid) => slot < U32 && part == Header(0, slot) + sid
        case RAsk(size, slot) => 0 < size < U32 && slot < U32 && part == Header(size, slot)
        case RWait(size, slot) => 0 < size < U32 && slot < U32 && part == Header(size, slot)
        case RMatched(_, size, slot) => 0 < size < U32 && slot < U32 && part == Header(size, slot)
        case RBody(_, size, slot) =>
          0 < size < U32 && slot < U32 && HEADER <= |part| <= HEADER + size && part[..8] == Header(size, slot)
        case RGood(_, slot) =>
          slot < U32 && HEADER < |part| < HEADER + U32 && part[..8] == Header(|part| - HEADER, slot)
        case _ => true)
  }

  /** The peer's slots are the slots announced by the frames processed. */
  ghost predicate RxMapOf(rx: seq<Frame>, remoteMap: map<nat, nat>, forks: seq<Fork>) {
    && (forall slot :: slot in remoteMap <==> slot in Slots(rx))
    && (forall slot :: slot in remoteMap ==>
                         remoteMap[slot] < |forks| && forks[remoteMap[slot]].sid == Slots(rx)[slot])
  }

  /** Successful recvs were given exactly the bodies of the frames processed. */
  ghost predicate GivenOf(rx: seq<Frame>, log: seq<Handle>) {
    forall sid :: Bodies(rx, sid) == Given(log, sid)
  }

  function Pends(order: seq<OpId>, recvQ: seq<seq<OpId>>): multiset<OpId> {
    multiset(order) + multiset(Flatten(recvQ))
  }

  /** Every call is pending or has its handle queued, once. */
  ghost predicate OnceOf(order: seq<OpId>, recvQ: seq<seq<OpId>>, log: seq<Handle>, nextOp: nat) {
    forall op: OpId :: (Pends(order, recvQ) + DoneBag(log))[op] == if op < nextOp then 1 else 0
  }

  function SendInFlight(spc: SendPc, sops: map<OpId, SendOp>): int {
    match spc
    case SMeta(_, rest) => META - |rest|
    case SHead(_, rest) => HEADER - |rest|
    case SBody(op, rest) => (if op in sops then |sops[op].body| else 0) - |rest|
    case _ => 0
  }

  function RecvInFlight(rpc: RecvPc, part: Bytes): int {
    if rpc.RHead? || rpc.RMeta? || rpc.RBody? then |part| - Before(rpc) else 0
  }

  /** The byte counters lag the wire by the transfer in flight. */
  ghost predicate CountsOf(bytesSent: nat, sent: Bytes, spc: SendPc, sops: map<OpId, SendOp>,
                           bytesReceived: nat, read: Bytes, rpc: RecvPc, part: Bytes) {
    && bytesSent + SendInFlight(spc, sops) == |sent|
    && bytesReceived + RecvInFlight(rpc, part) == |read|
  }

  // ---- flush ------------------------------------------------------------

  ghost predicate IsPending(op: OpId, order: seq<OpId>, recvQ: seq<seq<OpId>>) {
    op in order || op in Flatten(recvQ)
  }

  ghost predicate IsDone(op: OpId, log: seq<Handle>) {
    exists j :: 0 <= j < |log| && log[j].OpDone? && log[j].op == op
  }

  /** `op` waits for a holder of the token that completes no earlier than it. */
  ghost predicate Held(op: OpId, holders: set<OpId>, sops: map<OpId, SendOp>, rops: map<OpId, RecvOp>) {
    exists h :: h in holders && op <= h && SameQueue(op, h, sops, rops)
  }

  /** Tokens: held by pending operations, fired when nobody holds them, once. */
  ghost predicate TokensOf(q: Queued, pend: set<OpId>, snaps: seq<set<OpId>>) {
    && |snaps| == |q.tokens|
    && (forall t :: 0 <= t < |q.tokens| ==> q.tokens[t] <= pend && q.tokens[t] <= snaps[t])
    && (forall t: nat :: FlushBag(q.log)[t] == if t < |q.tokens| && q.tokens[t] == {} then 1 else 0)
  }

  /** What is pending of what was pending at the call of a flush is behind a holder of its
      token, or has been left behind by one. A flush comes after all but the latter. */
  ghost predicate AfterOf(q: Queued, pend: set<OpId>, sops: map<OpId, SendOp>, rops: map<OpId, RecvOp>,
                          snaps: seq<set<OpId>>, orphans: seq<set<OpId>>) {
    && Left(orphans, snaps) && |snaps| == |q.tokens|
    && (forall t, op :: 0 <= t < |snaps| && op in snaps[t] ==> op in pend || IsDone(op, q.log))
    && (forall t, op :: 0 <= t < |snaps| && op in snaps[t] && op in pend && op !in orphans[t] ==>
                          Held(op, q.tokens[t], sops, rops))
    && (forall k :: 0 <= k < |q.log| && q.log[k].FlushDone? ==> FlushLate(q.log, k, snaps, orphans))
  }

  ghost predicate Left(orphans: seq<set<OpId>>, snaps: seq<set<OpId>>) {
    |orphans| == |snaps| && forall t :: 0 <= t < |snaps| ==> orphans[t] <= snaps[t]
  }

  /** The flush entry at `k` comes after everything pending at its call that was not left
      behind. */
  ghost predicate FlushLate(log: seq<Handle>, k: nat, snaps: seq<set<OpId>>, orphans: seq<set<OpId>>)
    requires k < |log| && log[k].FlushDone? && |orphans| == |snaps|
  {
    && log[k].token < |snaps|
    && forall op :: op in snaps[log[k].token] && op !in orphans[log[k].token] ==> IsDone(op, log[..k])
  }

  function PendSet(order: seq<OpId>, recvQ: seq<seq<OpId>>): set<OpId> {
    (set op | op in order) + (set op | op in Flatten(recvQ))
  }

  ghost predicate FlushOf(q: Queued, order: seq<OpId>, recvQ: seq<seq<OpId>>,
                          sops: map<OpId, SendOp>, rops: map<OpId, RecvOp>,
                          snaps: seq<set<OpId>>, orphans: seq<set<OpId>>) {
    && TokensOf(q, PendSet(order, recvQ), snaps)
    && AfterOf(q, PendSet(order, recvQ), sops, rops, snaps, orphans)
  }

  /** The invariant of one endpoint. */
  ghost predicate Inv(s: Sched) {
    && IdsOf(s.forks, s.idMap, s.remoteMap, s.nextLocal)
    && |s.recvQ| == |s.forks|
    && OpsOf(s.sops, s.rops, s.forks, s.idMap, s.nextOp)
    && ListOf(s.order, s.sops, s.status)
    && SendPcOf(s.spc, s.order, s.status, s.ec, s.dangling, s.sstat)
    && SendQOf(s.sendQ, s.order, s.sops, s.forks)
    && RecvQOf(s.recvQ, s.rops, s.status, s.idMap, s.numRecvs)
    && RecvPcOf(s.rpc, s.recvQ, s.rops, s.status, s.idMap, s.remoteMap, s.numRecvs, s.ec, s.rstat)
    && TxOf(s.h.tx, s.forks)
    && BodiesOf(s.h.tx, s.h.begun, s.sops)
    && WireOf(s.h.sent, s.h.tx, s.spc, s.sops, s.h.headBegun)
    && MetaOf(s.spc, s.sops, s.forks, s.idMap)
    && LedgerOf(s.h.accepted, s.h.withdrawn, s.h.begun, s.order, s.h.headBegun, s.spc.SDone?, s.nextOp)
    && RxOf(s.h.rx, s.h.read, s.part, s.rpc)
    && RxMapOf(s.h.rx, s.remoteMap, s.forks)
    && GivenOf(s.h.rx, s.q.log)
    && OnceOf(s.order, s.recvQ, s.q.log, s.nextOp)
    && CountsOf(s.bytesSent, s.h.sent, s.spc, s.sops, s.bytesReceived, s.h.read, s.rpc, s.part)
    && FlushOf(s.q, s.order, s.recvQ, s.sops, s.rops, s.h.snaps, s.h.orphans)
  }
}
