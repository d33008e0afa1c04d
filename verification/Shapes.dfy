/** What the steps that move no queued operation leave alone. */
module Shapes {
  import opened Common
  import opened Framing
  import opened Scheduler

  /** No operation is queued, moved or completed from `s` to `t`. */
  ghost predicate Still(s: Sched, t: Sched) {
    && t.q == s.q && t.order == s.order && t.dangling == s.dangling
    && t.sendQ == s.sendQ && t.sendR == s.sendR && t.recvQ == s.recvQ && t.recvR == s.recvR
    && t.numRecvs == s.numRecvs && t.nextOp == s.nextOp && t.sops == s.sops && t.rops == s.rops
  }

  lemma StopOnly(s: Sched, caller: Caller, e: Code)
    ensures var t := Stop(s, caller, e);
            t == s.(ec := t.ec, spc := t.spc, rpc := t.rpc) && t.ec == if s.ec != Success then s.ec else e
  {
    hide StoppedRecv;
    if s.ec != Success {
    }
  }

  lemma BeginOnly(s: Sched)
    requires CanBegin(s)
    ensures var t := DoBegin(s); t == s.(forks := t.forks, spc := t.spc, h := t.h)
  {
    hide Header, EncFrame, sOf;
    if s.forks[sOf(s, s.spc.op)].initiated {
    }
  }

  lemma SendBytesOnly(s: Sched, n: nat)
    requires CanSendBytes(s, n)
    ensures var t := DoSendBytes(s, n); t == s.(spc := t.spc, h := t.h)
  {
  }

  lemma SendEndOnly(s: Sched, e: Code)
    requires CanSendEnd(s, e)
    ensures var t := DoSendEnd(s, e); t == s.(spc := t.spc, bytesSent := t.bytesSent, h := t.h)
  {
    hide Header, EncFrame, sOf;
    if e != Success {
    } else if s.spc.SMeta? {
    } else if s.spc.SHead? {
    }
  }

  lemma RecvBytesOnly(s: Sched, chunk: Bytes)
    requires CanRecvBytes(s, chunk)
    ensures var t := DoRecvBytes(s, chunk); t == s.(part := t.part, h := t.h)
  {
    hide Wanted;
  }

  lemma RecvEndOnly(s: Sched, e: Code)
    requires CanRecvEnd(s, e)
    ensures var t := DoRecvEnd(s, e);
            t == s.(rpc := t.rpc, bytesReceived := s.bytesReceived + |s.part| - Before(s.rpc))
  {
    hide AfterRecv, Wanted;
  }

  lemma FillOnly(s: Sched)
    requires s.rpc.RMatched? && s.rpc.op in s.rops
    ensures var t := DoFill(s); t == s.(rpc := t.rpc)
  {
    hide Fits;
    if Fits(s.rops[s.rpc.op].buffer, s.rpc.size) {
    }
  }

  lemma MatchOnly(s: Sched, size: nat, slot: nat)
    ensures var t := MatchHeader(s, size, slot); t == s.(status := t.status, rstat := t.rstat, rpc := t.rpc)
  {
    if s.ec != Success {
    } else if slot in s.remoteMap {
      if s.remoteMap[slot] < |s.recvQ| {
      }
    }
  }

  lemma StartNextOnly(s: Sched)
    ensures var t := StartNext(s); t == s.(status := t.status, sstat := t.sstat, spc := t.spc)
  {
    if s.order != [] {
    }
  }

  lemma ReadNextOnly(s: Sched)
    ensures var t := ReadNext(s); t == s.(rstat := t.rstat, rpc := t.rpc)
  {
    if s.numRecvs > 0 {
    }
  }

  lemma BindOnly(s: Sched, slot: nat, sid: Sid)
    requires sid in s.idMap
    ensures var t := BindSlot(s, slot, sid);
            t == s.(forks := t.forks, remoteMap := t.remoteMap, rpc := t.rpc, part := t.part, h := t.h)
  {
    var i := s.idMap[sid];
    if i >= |s.forks| {
    } else if s.forks[i].remoteId != NO_SLOT {
    } else if slot in s.remoteMap {
    }
  }

  lemma WakeOnly(s: Sched, i: nat, op: OpId)
    requires i < |s.forks|
    ensures var t := WakeReceiver(s, i, op); t == s.(rstat := t.rstat, status := t.status, rpc := t.rpc)
  {
    if s.rpc.RIdle? {
    } else if s.rpc.RWait? {
      if s.forks[i].remoteId == s.rpc.slot {
      }
    }
  }

  /** An accepted recv is queued; only the receive task may notice. */
  lemma RecvOnly(s: Sched, sid: Sid, buffer: Buffer)
    requires IsLocal(s, sid) && s.ec == Success
    ensures var t := DoRecv(s, sid, buffer);
            t == QueueRecv(s, sid, buffer).(rstat := t.rstat, status := t.status, rpc := t.rpc)
  {
    assert QueueRecv(s, sid, buffer).forks == s.forks;
    hide WakeReceiver, QueueRecv;
    WakeOnly(QueueRecv(s, sid, buffer), s.idMap[sid], s.nextOp);
  }

  /** completePrev of a recv: one operation leaves the front of its fork's queue. */
  lemma CompleteRecvOnly(s: Sched)
    requires CanAny(s) && PrevRecv(s.rpc).Some?
    ensures var t := CompleteRecv(s); var i := rOf(s, PrevRecv(s.rpc).value);
            t == s.(numRecvs := s.numRecvs - 1, recvQ := s.recvQ[i := s.recvQ[i][1..]], recvR := PopFrom(s.recvR, i),
                    q := t.q, part := t.part, h := t.h)
  {
    hide Finish, PopFrom;
    if s.rpc.RGood? {
    }
  }

  lemma FlushOnly(s: Sched)
    requires CanFlush(s)
    ensures var t := DoFlush(s); t == s.(h := s.h.(snaps := t.h.snaps, orphans := t.h.orphans), q := t.q)
  {
    hide Backs, Pending;
    if s.numRecvs == 0 && s.order == [] {
    }
  }

  /** A step of a task between two lock regions, or a close. */
  predicate IsStill(st: Step) {
    st.UClose? || st.TBegin? || st.TSendBytes? || st.TSendEnd? || st.TRecvBytes? || st.TRecvEnd? || st.TFill?
  }

  lemma StillStep(s: Sched, st: Step)
    requires Enabled(s, st) && IsStill(st)
    ensures Still(s, Apply(s, st))
  {
    hide DoClose, DoBegin, DoSendBytes, DoSendEnd, DoRecvBytes, DoRecvEnd, DoFill;
    match st
    case UClose => CloseOnly(s);
    case TBegin => BeginOnly(s);
    case TSendBytes(n) => SendBytesOnly(s, n);
    case TSendEnd(e) => SendEndOnly(s, e);
    case TRecvBytes(chunk) => RecvBytesOnly(s, chunk);
    case TRecvEnd(e) => RecvEndOnly(s, e);
    case TFill => FillOnly(s);
  }

  lemma CloseOnly(s: Sched)
    ensures var t := DoClose(s); t == s.(ec := t.ec, spc := t.spc, rpc := t.rpc)
  {
    StopOnly(s, Extern, Closed);
    hide Stop;
  }
}
