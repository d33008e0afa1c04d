/** What the handle of an operation reports: a recv is given a message exactly if its buffer
    can hold it, and every result in the execution queue is one its operation may have. */
module Results {
  import opened Common
  import opened Framing
  import opened Streams
  import opened Scheduler
  import opened Lists
  import opened Invariants
  import opened Shapes
  import opened QueueProofs
  import opened Endpoint
  import opened Blocks
  import opened Newest
  import opened Errors

  // ---- the buffer of a recv -----------------------------------------------------

  /** The size in the header of the message being received. */
  function Announces(part: Bytes): nat {
    if |part| >= HEADER then HeaderSize(part) else 0
  }

  predicate Holds(rops: map<OpId, RecvOp>, op: OpId, size: nat) {
    op in rops && Fits(rops[op].buffer, size)
  }

  /** The recv at work: one whose body is being read, or has been, holds it; one that is
      failed for its buffer does not hold the message announced, and one that is failed for
      another reason does. */
  ghost predicate BufferAt(rpc: RecvPc, part: Bytes, rops: map<OpId, RecvOp>) {
    match rpc
    case RBody(op, size, _) => Holds(rops, op, size)
    case RGood(op, _) => |part| >= HEADER && Holds(rops, op, |part| - HEADER)
    case RBad(Some(op), e) =>
      op in rops && |part| >= HEADER && (e == BadBufferSize <==> !Holds(rops, op, Announces(part)))
    case RBad(None, e) => e != BadBufferSize
    case _ => true
  }

  ghost predicate BufferOf(s: Sched) {
    s.ec != BadBufferSize && BufferAt(s.rpc, s.part, s.rops)
  }

  lemma MatchedHeader(s: Sched)
    requires Inv(s)
    ensures s.rpc.RMatched? ==> s.rpc.op in s.rops && |s.part| >= HEADER && HeaderSize(s.part) == s.rpc.size
    ensures s.rpc.RBody? ==> s.rpc.op in s.rops && |s.part| >= HEADER && HeaderSize(s.part) == s.rpc.size
  {
    hide IdsOf, OpsOf, ListOf, SendPcOf, SendQOf, RecvQOf, TxOf, BodiesOf, WireOf, MetaOf, LedgerOf, RxMapOf, GivenOf,
         OnceOf, CountsOf, FlushOf, Encode, Header, HeaderSize, ValidFrames, Announced;
    if s.rpc.RMatched? || s.rpc.RBody? {
      DecHeader(s.rpc.size, s.rpc.slot, s.part[8..]);
      assert s.part == s.part[..8] + s.part[8..] && s.part[..8] == Header(s.rpc.size, s.rpc.slot);
    }
  }

  lemma FillBuffer(s: Sched)
    requires Inv(s) && s.rpc.RMatched? && s.rpc.op in s.rops
    ensures BufferAt(DoFill(s).rpc, s.part, s.rops)
  {
    hide Inv, DoFill, HeaderSize, Fits, BufferAt;
    MatchedHeader(s);
    FillFails(s);
    FilledAt(s.rpc.op, s.rpc.size, s.rpc.slot, s.part, s.rops);
  }

  lemma FilledAt(op: OpId, size: nat, slot: nat, part: Bytes, rops: map<OpId, RecvOp>)
    requires op in rops && |part| >= HEADER && HeaderSize(part) == size
    ensures BufferAt(if Fits(rops[op].buffer, size) then RBody(op, size, slot) else RBad(Some(op), BadBufferSize), part, rops)
  {
    hide HeaderSize, Fits;
  }

  lemma EndBuffer(s: Sched, e: Code)
    requires Inv(s) && BufferAt(s.rpc, s.part, s.rops) && CanRecvEnd(s, e)
    ensures BufferAt(AfterRecv(s, e), s.part, s.rops)
  {
    hide Inv, HeaderSize, AfterRecv, BufferAt, CanRecvEnd;
    MatchedHeader(s);
    AfterRpc(s, e);
    if s.rpc.RBody? {
      EndedAt(s.rpc.op, s.rpc.size, s.rpc.slot, s.part, s.rops, e);
    } else {
      NoneAtWork(AfterRecv(s, e), s.part, s.rops);
    }
  }

  lemma AfterRpc(s: Sched, e: Code)
    requires CanRecvEnd(s, e)
    ensures e != BadBufferSize
    ensures e != Success ==> AfterRecv(s, e) == RBad(if s.rpc.RBody? then Some(s.rpc.op) else None, e)
    ensures e == Success && s.rpc.RBody? ==> AfterRecv(s, e) == RGood(s.rpc.op, s.rpc.slot) && |s.part| == HEADER + s.rpc.size
    ensures e == Success && !s.rpc.RBody? ==>
              AfterRecv(s, e).RMeta? || AfterRecv(s, e).RAsk? || AfterRecv(s, e).RInit?
  {
    hide HeaderSize, HeaderSlot;
  }

  lemma EndedAt(op: OpId, size: nat, slot: nat, part: Bytes, rops: map<OpId, RecvOp>, e: Code)
    requires BufferAt(RBody(op, size, slot), part, rops) && |part| >= HEADER && HeaderSize(part) == size
    ensures e != BadBufferSize ==> BufferAt(RBad(Some(op), e), part, rops)
    ensures |part| == HEADER + size ==> BufferAt(RGood(op, slot), part, rops)
  {
    hide HeaderSize, Fits;
  }

  lemma MoreBuffer(s: Sched, chunk: Bytes)
    requires BufferAt(s.rpc, s.part, s.rops) && CanRecvBytes(s, chunk)
    ensures BufferAt(s.rpc, s.part + chunk, s.rops)
  {
    hide Holds;
  }

  lemma ReadBuffer(s: Sched, st: Step)
    requires Inv(s) && BufferOf(s) && Enabled(s, st) && (st.TRecvBytes? || st.TRecvEnd? || st.TFill?)
    ensures BufferOf(Apply(s, st))
  {
    hide Inv, BufferAt, DoRecvBytes, DoRecvEnd, DoFill, AfterRecv, CanRecvBytes, CanRecvEnd;
    match st
    case TRecvBytes(chunk) =>
      MoreBuffer(s, chunk);
      PartAfter(s, chunk);
    case TRecvEnd(e) =>
      EndBuffer(s, e);
      RpcAfter(s, e);
    case TFill =>
      FillBuffer(s);
      FillOnly(s);
  }

  lemma PartAfter(s: Sched, chunk: Bytes)
    requires CanRecvBytes(s, chunk)
    ensures var t := DoRecvBytes(s, chunk); t.part == s.part + chunk && t.rpc == s.rpc && t.rops == s.rops && t.ec == s.ec
  {
  }

  lemma RpcAfter(s: Sched, e: Code)
    requires CanRecvEnd(s, e)
    ensures var t := DoRecvEnd(s, e); t.rpc == AfterRecv(s, e) && t.part == s.part && t.rops == s.rops && t.ec == s.ec
  {
    hide AfterRecv;
  }

  /** Between two messages no recv is at work. */
  lemma NoneAtWork(rpc: RecvPc, part: Bytes, rops: map<OpId, RecvOp>)
    requires !rpc.RBody? && !rpc.RGood? && (rpc.RBad? ==> rpc.prev.None? && rpc.ec != BadBufferSize)
    ensures BufferAt(rpc, part, rops)
  {
  }

  lemma AwaitBuffer(s: Sched, st: Step)
    requires Inv(s) && s.ec != BadBufferSize && BufferAt(s.rpc, s.part, s.rops)
    requires Enabled(s, st) && (st.TInit? || st.TAsk? || st.TAny?)
    ensures BufferOf(Apply(s, st))
  {
    hide Inv, BufferAt, DoInit, DoAsk, DoAny, CanAny, Malformed, Slots;
    FirstError(s, st);
    CarriedFits(s);
    var t := Apply(s, st);
    match st {
      case TInit => InitFails(s);
      case TAsk =>
        AskFails(s);
        AskRpc(s);
      case TAny =>
        AnyTask(s);
        NextRpc(s);
    }
    NoneAtWork(t.rpc, t.part, t.rops);
  }

  lemma CarriedFits(s: Sched)
    requires BufferAt(s.rpc, s.part, s.rops)
    ensures s.rpc.RBad? && s.rpc.prev.None? ==> s.rpc.ec != BadBufferSize
  {
  }

  lemma AskRpc(s: Sched)
    requires s.rpc.RAsk?
    ensures DoAsk(s).rpc.RBad? || DoAsk(s).rpc.RWait? || DoAsk(s).rpc.RMatched? || DoAsk(s).rpc.RCrash?
  {
    hide Stop, DrainRecvs, MatchHeader;
    HeaderRpc(s, s.rpc.size, s.rpc.slot);
    HeaderRpc(DrainRecvs(Stop(s, Recver, BadCoprotoMessageHeader), BadCoprotoMessageHeader), s.rpc.size, s.rpc.slot);
  }

  lemma HeaderRpc(s: Sched, size: nat, slot: nat)
    ensures var rpc := MatchHeader(s, size, slot).rpc; rpc.RBad? || rpc.RWait? || rpc.RMatched? || rpc.RCrash?
  {
    if s.ec != Success {
    } else if slot in s.remoteMap && s.remoteMap[slot] < |s.recvQ| {
    }
  }

  lemma NextRpc(s: Sched)
    requires CanAny(s)
    ensures DoAny(s).rpc.RHead? || DoAny(s).rpc.RIdle? || DoAny(s).rpc.RDone?
  {
    hide CompleteRecv, DrainRecvs, Stop;
  }

  lemma RecvBuffer(s: Sched, sid: Sid, buffer: Buffer)
    requires Inv(s) && BufferOf(s) && IsLocal(s, sid)
    ensures BufferOf(DoRecv(s, sid, buffer))
  {
    hide Inv, BufferAt, DoRecv;
    OpsBelow(s);
    RecvKept(s, sid, buffer);
    MoreRops(s.rpc, s.part, s.rops, s.nextOp, RecvOp(sid, buffer));
    var t := DoRecv(s, sid, buffer);
    if t.rpc != s.rpc {
      NoneAtWork(t.rpc, t.part, t.rops);
    }
  }

  lemma MoreRops(rpc: RecvPc, part: Bytes, rops: map<OpId, RecvOp>, op: OpId, r: RecvOp)
    requires BufferAt(rpc, part, rops) && op !in rops
    ensures BufferAt(rpc, part, rops[op := r])
  {
    hide Fits, Announces;
  }

  /** A recv leaves the task as it is unless it was parked. */
  lemma RecvKept(s: Sched, sid: Sid, buffer: Buffer)
    requires IsLocal(s, sid)
    ensures var t := DoRecv(s, sid, buffer);
            && t.ec == s.ec && t.part == s.part
            && (t.rpc == s.rpc || t.rpc.RHead? || t.rpc.RMatched?)
            && (t.rops == s.rops || t.rops == s.rops[s.nextOp := RecvOp(sid, buffer)])
  {
    hide WakeReceiver, QueueRecv;
    if s.ec == Success {
      QueuedRecv(s, sid, buffer);
      WokenRecv(QueueRecv(s, sid, buffer), s.idMap[sid], s.nextOp);
    }
  }

  lemma QueuedRecv(s: Sched, sid: Sid, buffer: Buffer)
    requires IsLocal(s, sid)
    ensures var t := QueueRecv(s, sid, buffer);
            && t.forks == s.forks && t.ec == s.ec && t.part == s.part && t.rpc == s.rpc
            && t.rops == s.rops[s.nextOp := RecvOp(sid, buffer)]
  {
    hide PushTo;
  }

  lemma WokenRecv(s: Sched, i: nat, op: OpId)
    requires i < |s.forks|
    ensures var t := WakeReceiver(s, i, op);
            && t.ec == s.ec && t.part == s.part && t.rops == s.rops
            && (t.rpc == s.rpc || t.rpc.RHead? || t.rpc.RMatched?)
  {
    WakeOnly(s, i, op);
  }

  lemma OtherBuffer(s: Sched, st: Step)
    requires Inv(s) && BufferOf(s) && Enabled(s, st) && !OfReceiver(st) && !st.URecv?
    ensures BufferOf(Apply(s, st))
  {
    hide Inv, BufferAt, Apply, Enabled, Recorded;
    FirstError(s, st);
    OutsideReceiver(s, st);
    RecordedFits(s, st);
    var t := Apply(s, st);
    if t.rpc != s.rpc {
      NoneAtWork(t.rpc, t.part, t.rops);
    }
  }

  lemma RecordedFits(s: Sched, st: Step)
    requires !OfReceiver(st)
    ensures Recorded(s, st) != BadBufferSize
  {
  }

  lemma StepBuffer(s: Sched, st: Step)
    requires Inv(s) && BufferOf(s) && Enabled(s, st)
    ensures BufferOf(Apply(s, st))
  {
    hide Inv, BufferAt;
    if st.URecv? {
      CallBuffer(s, st);
    } else {
      hide Apply, Enabled;
      if !OfReceiver(st) {
        OtherBuffer(s, st);
      } else if st.TRecvBytes? || st.TRecvEnd? || st.TFill? {
        ReadBuffer(s, st);
      } else {
        AwaitBuffer(s, st);
      }
    }
  }

  lemma CallBuffer(s: Sched, st: Step)
    requires Inv(s) && BufferOf(s) && Enabled(s, st) && st.URecv?
    ensures BufferOf(Apply(s, st))
  {
    hide Inv, BufferOf, DoRecv;
    RecvBuffer(s, st.sid, st.buffer);
  }

  lemma {:induction false} RunBuffer(a: Sched, steps: seq<Step>, b: Sched)
    requires Inv(a) && BufferOf(a) && Runs(a, steps, b)
    ensures BufferOf(b)
    decreases |steps|
  {
    hide Inv, BufferOf, Apply, Enabled;
    if steps != [] {
      StepBuffer(a, steps[0]);
      StepKeeps(a, steps[0]);
      RunBuffer(Apply(a, steps[0]), steps[1..], b);
    }
  }

  /** In every reachable state the receive task reads a body only into a buffer that holds
      it, and fails a recv with a bad size exactly if its buffer does not hold the message
      that the header announces. */
  lemma BufferDecides(root: Sid, s: Sched)
    requires Reachable(root, s)
    ensures s.rpc.RBody? ==> s.rpc.op in s.rops && Fits(s.rops[s.rpc.op].buffer, s.rpc.size)
    ensures s.rpc.RBad? && s.rpc.prev.Some? ==>
              && s.rpc.prev.value in s.rops && |s.part| >= HEADER
              && (s.rpc.ec == BadBufferSize <==> !Fits(s.rops[s.rpc.prev.value].buffer, HeaderSize(s.part)))
    ensures s.ec != BadBufferSize && (s.rpc.RBad? && s.rpc.prev.None? ==> s.rpc.ec != BadBufferSize)
  {
    hide Inv, Runs, Start, Fits, HeaderSize;
    var steps :| Runs(Start(root), steps, s);
    StartInv(root);
    StartBuffer(root);
    RunBuffer(Start(root), steps, s);
  }

  lemma StartBuffer(root: Sid)
    ensures BufferOf(Start(root))
  {
  }
}
