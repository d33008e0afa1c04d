/** Every step of the send task keeps the invariant. */
module SendSteps {
  import opened Common
  import opened Framing
  import opened Streams
  import opened Scheduler
  import opened Lists
  import opened Invariants
  import opened QueueProofs
  import opened StreamProofs
  import opened FlushProofs
  import opened UserSteps

  // ---- starting a message -----------------------------------------------

  /** The head of the list is a known send on a local fork. */
  lemma HeadFacts(s: Sched, op: OpId)
    requires OpsOf(s.sops, s.rops, s.forks, s.idMap, s.nextOp)
    requires IdsOf(s.forks, s.idMap, s.remoteMap, s.nextLocal)
    requires ListOf(s.order, s.sops, s.status)
    requires s.order != [] && s.order[0] == op
    ensures op in s.sops && LocalIn(s.forks, s.idMap, s.sops[op].sid)
    ensures s.forks[s.idMap[s.sops[op].sid]].sid == s.sops[op].sid
    ensures 0 < |s.sops[op].body| < U32 - 1 && op < s.nextOp
    ensures op in s.status && sOf(s, op) == s.idMap[s.sops[op].sid]
  {
  }

  lemma LedgerBegin(accepted: seq<OpId>, withdrawn: set<OpId>, begun: seq<OpId>, order: seq<OpId>, nextOp: nat)
    requires LedgerOf(accepted, withdrawn, begun, order, false, false, nextOp) && order != []
    ensures LedgerOf(accepted, withdrawn, begun + [order[0]], order, true, false, nextOp)
  {
    assert begun + order == begun + [order[0]] + order[1..];
  }

  /** The header of a data message goes out: its frame joins the stream. */
  lemma BeginHeadKeeps(s: Sched, s0: Sched, op: OpId)
    requires Inv(s0)
    requires s0.spc.SGot? || s0.spc.SMeta?
    requires op == s0.spc.op && op in s0.sops && sOf(s0, op) < |s0.forks| == |s0.sendQ|
    requires s0.forks[sOf(s0, op)].initiated
    requires s0.spc.SMeta? ==> s0.spc.rest == []
    requires s == s0.(bytesSent := s0.bytesSent + if s0.spc.SMeta? then META else 0)
    ensures Inv(BeginHead(s, op))
  {
    hide IdsOf, OpsOf, ListOf, SendQOf, RecvQOf, RecvPcOf, TxOf, BodiesOf, WireOf, MetaOf,
         LedgerOf, RxOf, RxMapOf, GivenOf, OnceOf, CountsOf, FlushOf, EncFrame, Header;
    HeadFacts(s0, op);
    var i := sOf(s0, op);
    var slot, body := s0.forks[i].localId, s0.sops[op].body;
    TxData(s0.h.tx, s0.forks, i, body);
    BodiesData(s0.h.tx, s0.forks, s0.h.begun, s0.sops, i, op);
    WireHeadBegun(s0);
    hide SendPcOf;
    LedgerBegin(s0.h.accepted, s0.h.withdrawn, s0.h.begun, s0.order, s0.nextOp);
    BeginHeadStreams(s0, op, slot);
    PcSame(s0, SHead(op, Header(|body|, slot)));
  }

  lemma WireHeadBegun(s: Sched)
    requires WireOf(s.h.sent, s.h.tx, s.spc, s.sops, s.h.headBegun)
    requires s.spc.SGot? || s.spc.SMeta?
    ensures !s.h.headBegun
  {
  }

  /** Moving between the stages of one message does not touch the queues. */
  lemma PcSame(s: Sched, spc: SendPc)
    requires SendPcOf(s.spc, s.order, s.status, s.ec, s.dangling, s.sstat)
    requires !s.spc.SIdle? && !s.spc.SDone? && !spc.SIdle? && !spc.SDone? && spc.op == s.spc.op
    ensures SendPcOf(spc, s.order, s.status, s.ec, s.dangling, s.sstat)
  {
  }

  lemma BeginHeadStreams(s: Sched, op: OpId, slot: nat)
    requires s.spc.SGot? || (s.spc.SMeta? && s.spc.rest == [])
    requires op in s.sops
    requires WireOf(s.h.sent, s.h.tx, s.spc, s.sops, s.h.headBegun)
    requires CountsOf(s.bytesSent, s.h.sent, s.spc, s.sops, s.bytesReceived, s.h.read, s.rpc, s.part)
    ensures var body := s.sops[op].body;
            var spc := SHead(op, Header(|body|, slot));
            && WireOf(s.h.sent, s.h.tx + [Data(slot, body)], spc, s.sops, true)
            && CountsOf(s.bytesSent + if s.spc.SMeta? then META else 0, s.h.sent, spc, s.sops,
                        s.bytesReceived, s.h.read, s.rpc, s.part)
            && MetaOf(spc, s.sops, s.forks, s.idMap)
  {
    var body := s.sops[op].body;
    EncodeSnoc(s.h.tx, Data(slot, body));
    assert EncFrame(Data(slot, body)) == Header(|body|, slot) + body;
    hide Encode, Header;
    assert s.h.sent == Encode(s.h.tx) by {
      if s.spc.SMeta? {
        assert s.h.sent + s.spc.rest == s.h.sent;
      }
    }
    assert s.h.sent + (Header(|body|, slot) + body) == s.h.sent + Header(|body|, slot) + body;
  }

  lemma BeginKeeps(s: Sched)
    requires Inv(s) && CanBegin(s)
    ensures Inv(DoBegin(s))
  {
    var op := s.spc.op;
    hide Inv;
    if s.forks[sOf(s, op)].initiated {
      BeginHeadKeeps(s, s, op);
    } else {
      BeginMetaKeeps(s);
    }
  }

  lemma BeginMetaStreams(s: Sched, m: Frame)
    requires s.spc.SGot? && m.Meta?
    requires WireOf(s.h.sent, s.h.tx, s.spc, s.sops, s.h.headBegun)
    requires CountsOf(s.bytesSent, s.h.sent, s.spc, s.sops, s.bytesReceived, s.h.read, s.rpc, s.part)
    ensures var spc := SMeta(s.spc.op, EncFrame(m));
            && WireOf(s.h.sent, s.h.tx + [m], spc, s.sops, s.h.headBegun)
            && CountsOf(s.bytesSent, s.h.sent, spc, s.sops, s.bytesReceived, s.h.read, s.rpc, s.part)
  {
    EncodeSnoc(s.h.tx, m);
    hide Encode;
  }

  /** Marking a fork announced changes no other table. */
  lemma InitiateTables(s: Sched, i: nat)
    requires i < |s.forks| && s.forks[i].localId != NO_SLOT && !s.forks[i].initiated
    requires IdsOf(s.forks, s.idMap, s.remoteMap, s.nextLocal)
    requires OpsOf(s.sops, s.rops, s.forks, s.idMap, s.nextOp)
    requires SendQOf(s.sendQ, s.order, s.sops, s.forks)
    requires TxOf(s.h.tx, s.forks)
    requires RxMapOf(s.h.rx, s.remoteMap, s.forks)
    ensures var forks := s.forks[i := s.forks[i].(initiated := true)];
            && IdsOf(forks, s.idMap, s.remoteMap, s.nextLocal)
            && OpsOf(s.sops, s.rops, forks, s.idMap, s.nextOp)
            && SendQOf(s.sendQ, s.order, s.sops, forks)
            && TxOf(s.h.tx + [Meta(s.forks[i].localId, s.forks[i].sid)], forks)
            && RxMapOf(s.h.rx, s.remoteMap, forks)
  {
    var forks := s.forks[i := s.forks[i].(initiated := true)];
    IdsInitiated(s.forks, s.idMap, s.remoteMap, s.nextLocal, i);
    GrowSet(s.forks, s.idMap, i, s.forks[i].(initiated := true));
    OpsGrow(s.sops, s.rops, s.forks, s.idMap, s.nextOp, forks, s.idMap);
    TxMeta(s.h.tx, s.forks, s.idMap, s.remoteMap, s.nextLocal, i);
    RxForks(s.h.rx, s.remoteMap, s.forks, forks);
    hide IdsOf, OpsOf, TxOf, RxMapOf, Grow, On;
  }

  lemma BeginMetaKeeps(s: Sched)
    requires Inv(s) && CanBegin(s) && !s.forks[sOf(s, s.spc.op)].initiated
    ensures Inv(DoBegin(s))
  {
    hide IdsOf, OpsOf, ListOf, SendQOf, RecvQOf, RecvPcOf, TxOf, BodiesOf, WireOf,
         LedgerOf, RxOf, RxMapOf, GivenOf, OnceOf, CountsOf, FlushOf, EncFrame, Header;
    var op := s.spc.op;
    HeadFacts(s, op);
    var i := sOf(s, op);
    var m := Meta(s.forks[i].localId, s.forks[i].sid);
    hide SendPcOf;
    InitiateTables(s, i);
    BodiesMeta(s.h.tx, s.h.begun, s.sops, m);
    BeginMetaStreams(s, m);
    PcSame(s, SMeta(op, EncFrame(m)));
  }

  // ---- the transport takes bytes ----------------------------------------

  lemma SendBytesStreams(s: Sched, n: nat)
    requires CanSendBytes(s, n)
    requires WireOf(s.h.sent, s.h.tx, s.spc, s.sops, s.h.headBegun)
    requires CountsOf(s.bytesSent, s.h.sent, s.spc, s.sops, s.bytesReceived, s.h.read, s.rpc, s.part)
    requires MetaOf(s.spc, s.sops, s.forks, s.idMap)
    ensures var t := DoSendBytes(s, n);
            && WireOf(t.h.sent, t.h.tx, t.spc, t.sops, t.h.headBegun)
            && CountsOf(t.bytesSent, t.h.sent, t.spc, t.sops, t.bytesReceived, t.h.read, t.rpc, t.part)
            && MetaOf(t.spc, t.sops, t.forks, t.idMap)
  {
    hide Encode;
    var rest := s.spc.rest;
    assert s.h.sent + rest[..n] + rest[n..] == s.h.sent + rest by {
      assert rest == rest[..n] + rest[n..];
    }
  }

  lemma SendBytesKeeps(s: Sched, n: nat)
    requires Inv(s) && CanSendBytes(s, n)
    ensures Inv(DoSendBytes(s, n))
  {
    hide IdsOf, OpsOf, ListOf, SendPcOf, SendQOf, RecvQOf, RecvPcOf, TxOf, BodiesOf, WireOf, MetaOf,
         LedgerOf, RxOf, RxMapOf, GivenOf, OnceOf, CountsOf, FlushOf;
    SendBytesStreams(s, n);
    PcSame(s, DoSendBytes(s, n).spc);
  }

  // ---- the transport completes ------------------------------------------

  lemma SendFailStreams(s: Sched, e: Code)
    requires CanSendEnd(s, e) && e != Success
    requires WireOf(s.h.sent, s.h.tx, s.spc, s.sops, s.h.headBegun)
    requires CountsOf(s.bytesSent, s.h.sent, s.spc, s.sops, s.bytesReceived, s.h.read, s.rpc, s.part)
    ensures var t := DoSendEnd(s, e);
            && WireOf(t.h.sent, t.h.tx, t.spc, t.sops, t.h.headBegun)
            && CountsOf(t.bytesSent, t.h.sent, t.spc, t.sops, t.bytesReceived, t.h.read, t.rpc, t.part)
            && MetaOf(t.spc, t.sops, t.forks, t.idMap)
  {
    hide Encode;
    if s.spc.SHead? {
      var rest, body := s.spc.rest, s.sops[s.spc.op].body;
      assert s.h.sent + rest + body == s.h.sent + (rest + body);
    }
  }

  lemma SendOnStreams(s: Sched)
    requires CanSendEnd(s, Success) && !s.spc.SMeta?
    requires WireOf(s.h.sent, s.h.tx, s.spc, s.sops, s.h.headBegun)
    requires CountsOf(s.bytesSent, s.h.sent, s.spc, s.sops, s.bytesReceived, s.h.read, s.rpc, s.part)
    ensures var t := DoSendEnd(s, Success);
            && WireOf(t.h.sent, t.h.tx, t.spc, t.sops, t.h.headBegun)
            && CountsOf(t.bytesSent, t.h.sent, t.spc, t.sops, t.bytesReceived, t.h.read, t.rpc, t.part)
            && MetaOf(t.spc, t.sops, t.forks, t.idMap)
  {
    hide Encode;
    assert s.h.sent + s.spc.rest == s.h.sent;
  }

  lemma SendEndKeeps(s: Sched, e: Code)
    requires Inv(s) && CanSendEnd(s, e)
    ensures Inv(DoSendEnd(s, e))
  {
    hide IdsOf, OpsOf, ListOf, SendPcOf, SendQOf, RecvQOf, RecvPcOf, TxOf, BodiesOf, WireOf,
         LedgerOf, RxOf, RxMapOf, GivenOf, OnceOf, CountsOf, FlushOf, Header;
    if e == Success && s.spc.SMeta? {
      BeginHeadKeeps(s.(bytesSent := s.bytesSent + META), s, s.spc.op);
    } else {
      hide MetaOf;
      if e == Success {
        SendOnStreams(s);
      } else {
        SendFailStreams(s, e);
      }
      PcSame(s, DoSendEnd(s, e).spc);
    }
  }
}
