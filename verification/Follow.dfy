/** What no step ever undoes. */
module Follow {
  import opened Common
  import opened Framing
  import opened Scheduler
  import opened Shapes

  predicate IsCancel(st: Step) {
    st.UCancelSend? || st.UCancelRecv?
  }

  // ---- what a step never undoes -------------------------------------------

  /** Handles once queued stay queued; after an error nothing is accepted, the error
      stays, a task that has exited or is about to stays so, and no recv is queued anew. */
  ghost predicate Follows(s: Sched, t: Sched) {
    && s.q.log <= t.q.log
    && s.h.snaps <= t.h.snaps
    && (s.ec != Success ==>
          && t.ec == s.ec && t.h.accepted == s.h.accepted && t.rops == s.rops
          && (s.spc.SDone? ==> t.spc.SDone?)
          && (s.rpc.RDone? ==> t.rpc.RDone?)
          && (s.rpc.RBad? && s.rpc.prev.None? ==> t.rpc == s.rpc || t.rpc.RDone?)
          && (s.numRecvs == 0 ==> t.numRecvs == 0))
  }

  /** A step of the receive task that completes nothing. */
  lemma ReceiverFollows(s: Sched, t: Sched)
    requires t.q == s.q && t.h == s.h && t.ec == s.ec && t.rops == s.rops && t.numRecvs == s.numRecvs && t.spc == s.spc
    requires !s.rpc.RDone? && !s.rpc.RBad?
    ensures Follows(s, t)
  {
  }

  lemma FinishGrows(q: Queued, op: OpId, r: Result)
    ensures q.log <= Finish(q, op, r).log
  {
  }

  lemma {:induction false} DrainGrows(q: Queued, ops: seq<OpId>, dir: Dir, e: Code)
    ensures q.log <= DrainOps(q, ops, dir, e).log
    decreases |ops|
  {
    if ops != [] {
      FinishGrows(q, ops[0], Failed(dir, e));
      DrainGrows(Finish(q, ops[0], Failed(dir, e)), ops[1..], dir, Cancel);
      hide Finish;
    }
  }

  lemma SendFollows(s: Sched, sid: Sid, body: Bytes)
    requires CanSend(s, sid, body)
    ensures Follows(s, DoSend(s, sid, body)) && DoSend(s, sid, body).h.orphans == s.h.orphans
  {
    hide PushTo;
    if body == [] {
    } else if s.ec != Success {
    } else if s.spc.SIdle? {
    }
  }

  lemma RecvFollows(s: Sched, sid: Sid, buffer: Buffer)
    requires IsLocal(s, sid)
    ensures Follows(s, DoRecv(s, sid, buffer)) && DoRecv(s, sid, buffer).h.orphans == s.h.orphans
  {
    hide PushTo, WakeReceiver;
    if s.ec == Success {
      RecvOnly(s, sid, buffer);
      hide DoRecv;
    }
  }

  lemma CancelFollows(s: Sched, op: OpId)
    ensures CanCancelSend(s, op) ==> Follows(s, DoCancelSend(s, op))
    ensures CanCancelRecv(s, op) ==> Follows(s, DoCancelRecv(s, op))
  {
    hide Finish, Without, Orphaned, EraseFrom, CanErase;
    FinishGrows(s.q, op, Withdrawn);
  }

  lemma FlushFollows(s: Sched)
    requires CanFlush(s)
    ensures Follows(s, DoFlush(s)) && DoFlush(s).h.orphans == s.h.orphans + [{}]
  {
    hide Backs, Pending;
    if s.numRecvs == 0 && s.order == [] {
    }
  }

  lemma FollowsTrans(s: Sched, t: Sched, u: Sched)
    requires Follows(s, t) && Follows(t, u)
    ensures Follows(s, u)
  {
  }

  lemma StopFollows(s: Sched, caller: Caller, e: Code)
    ensures Follows(s, Stop(s, caller, e)) && Stop(s, caller, e).h.orphans == s.h.orphans
  {
    hide StoppedRecv;
  }

  lemma DrainFollows(s: Sched, e: Code)
    ensures Follows(s, DrainRecvs(s, e)) && DrainRecvs(s, e).h.orphans == s.h.orphans
    ensures Follows(s, DrainSends(s, e)) && DrainSends(s, e).h.orphans == s.h.orphans
  {
    DrainGrows(s.q, Flatten(s.recvQ), RecvDir, e);
    DrainGrows(s.q, s.order, SendDir, e);
    hide DrainOps, Flatten, NoQueues;
  }

  lemma DrainRecvsFollows(s: Sched, caller: Caller, e: Code)
    ensures var t := DrainRecvs(Stop(s, caller, e), e);
            Follows(s, t) && t.h.orphans == s.h.orphans
  {
    StopFollows(s, caller, e);
    var t := Stop(s, caller, e);
    hide Stop, Follows, DrainRecvs;
    DrainFollows(t, e);
    FollowsTrans(s, t, DrainRecvs(t, e));
  }

  lemma DrainSendsFollows(s: Sched, caller: Caller, e: Code)
    ensures var t := DrainSends(Stop(s, caller, e), e);
            Follows(s, t) && t.h.orphans == s.h.orphans
  {
    StopFollows(s, caller, e);
    var t := Stop(s, caller, e);
    hide Stop, Follows, DrainSends;
    DrainFollows(t, e);
    FollowsTrans(s, t, DrainSends(t, e));
  }

  lemma StopSendingFollows(s: Sched, e: Code)
    ensures Follows(s, StopSending(s, e)) && StopSending(s, e).h.orphans == s.h.orphans
    ensures StopSending(s, e).spc.SDone?
  {
    DrainSendsFollows(s, Sender, e);
    hide DrainSends, Stop;
  }

  lemma CompleteSendFollows(s: Sched)
    requires CanNextSend(s)
    ensures var t := CompleteSend(s);
            Follows(s, t) && t.h.orphans == s.h.orphans && t.ec == s.ec && t.spc == s.spc
  {
    FinishGrows(s.q, s.spc.op, if s.spc.ec == Success then Sent else Failed(SendDir, s.spc.ec));
    hide Finish;
  }

  lemma NextFollows(s: Sched)
    requires CanNextSend(s)
    ensures Follows(s, DoNextSend(s)) && DoNextSend(s).h.orphans == s.h.orphans
  {
    CompleteSendFollows(s);
    var s1 := CompleteSend(s);
    var e := if s.spc.ec == Success then Success else Cancel;
    hide CompleteSend, StopSending, Follows;
    if e != Success || s.ec != Success {
      StopSendingFollows(s1, e);
    } else {
      StartNextFollows(s1);
    }
    FollowsTrans(s, s1, DoNextSend(s));
  }

  lemma StartNextFollows(s: Sched)
    requires s.ec == Success
    ensures Follows(s, StartNext(s)) && StartNext(s).h.orphans == s.h.orphans
  {
  }

  lemma CompleteRecvFollows(s: Sched)
    requires CanAny(s)
    ensures var t := CompleteRecv(s);
            Follows(s, t) && t.h.orphans == s.h.orphans && t.ec == s.ec
  {
    hide Finish;
    if PrevRecv(s.rpc).Some? {
      var op := PrevRecv(s.rpc).value;
      assert forall r :: s.q.log <= Finish(s.q, op, r).log by {
        forall r
          ensures s.q.log <= Finish(s.q, op, r).log
        {
          FinishGrows(s.q, op, r);
        }
      }
    }
  }

  lemma StopReadingFollows(s: Sched, e: Code)
    ensures Follows(s, StopReading(s, e)) && StopReading(s, e).h.orphans == s.h.orphans
  {
    DrainRecvsFollows(s, Recver, e);
    hide DrainRecvs, Stop;
  }

  lemma ReadNextFollows(s: Sched)
    requires s.ec == Success
    ensures Follows(s, ReadNext(s)) && ReadNext(s).h.orphans == s.h.orphans
  {
  }

  lemma AnyFollows(s: Sched)
    requires CanAny(s)
    ensures Follows(s, DoAny(s)) && DoAny(s).h.orphans == s.h.orphans
  {
    CompleteRecvFollows(s);
    var s1 := CompleteRecv(s);
    var e := CarriedError(s.rpc);
    hide CompleteRecv, StopReading, ReadNext, Follows, CarriedError;
    if e != Success || s.ec != Success {
      StopReadingFollows(s1, e);
    } else {
      ReadNextFollows(s1);
    }
    FollowsTrans(s, s1, DoAny(s));
  }

  lemma MatchFollows(s: Sched, size: nat, slot: nat)
    requires !s.rpc.RDone? && !s.rpc.RBad?
    ensures Follows(s, MatchHeader(s, size, slot)) && MatchHeader(s, size, slot).h.orphans == s.h.orphans
  {
    hide Follows;
    MatchOnly(s, size, slot);
    hide MatchHeader;
    ReceiverFollows(s, MatchHeader(s, size, slot));
  }

  lemma DrainedAsk(s: Sched, e: Code)
    requires s.rpc.RAsk?
    ensures DrainRecvs(Stop(s, Recver, e), e).rpc == s.rpc
  {
    hide DrainOps, Flatten, NoQueues;
  }

  lemma AskFollows(s: Sched)
    requires s.rpc.RAsk?
    ensures Follows(s, DoAsk(s)) && DoAsk(s).h.orphans == s.h.orphans
  {
    hide DrainRecvs, Stop, Follows, MatchHeader;
    if s.rpc.slot in s.remoteMap {
      MatchFollows(s, s.rpc.size, s.rpc.slot);
    } else {
      DrainRecvsFollows(s, Recver, BadCoprotoMessageHeader);
      DrainedAsk(s, BadCoprotoMessageHeader);
      var t := DrainRecvs(Stop(s, Recver, BadCoprotoMessageHeader), BadCoprotoMessageHeader);
      MatchFollows(t, s.rpc.size, s.rpc.slot);
      FollowsTrans(s, t, DoAsk(s));
    }
  }

  lemma RemoteFollows(s: Sched, sid: Sid)
    ensures var t := RemoteFork(s, sid);
            Follows(s, t) && t.h.orphans == s.h.orphans && sid in t.idMap && t.rpc == s.rpc
  {
  }

  lemma BindFollows(s: Sched, slot: nat, sid: Sid)
    requires sid in s.idMap && !s.rpc.RDone? && !s.rpc.RBad?
    ensures Follows(s, BindSlot(s, slot, sid)) && BindSlot(s, slot, sid).h.orphans == s.h.orphans
  {
    var i := s.idMap[sid];
    if i >= |s.forks| || slot in s.remoteMap {
    } else if s.forks[i].remoteId != NO_SLOT {
    }
  }

  lemma InitFollows(s: Sched)
    requires s.rpc.RInit?
    ensures Follows(s, DoInit(s)) && DoInit(s).h.orphans == s.h.orphans
  {
    if s.rpc.slot != NO_SLOT {
      RemoteFollows(s, s.rpc.sid);
      var t := RemoteFork(s, s.rpc.sid);
      hide RemoteFork, BindSlot, Follows;
      BindFollows(t, s.rpc.slot, s.rpc.sid);
      FollowsTrans(s, t, DoInit(s));
    } else {
      hide RemoteFork, BindSlot;
    }
  }

  lemma ForkFollows(s: Sched, sid: Sid)
    requires CanFork(s, sid)
    ensures Follows(s, DoFork(s, sid)) && DoFork(s, sid).h.orphans == s.h.orphans
  {
  }

  lemma CloseFollows(s: Sched)
    ensures Follows(s, DoClose(s)) && DoClose(s).h.orphans == s.h.orphans
  {
    hide StoppedRecv;
  }

  lemma BeginFollows(s: Sched)
    requires CanBegin(s)
    ensures Follows(s, DoBegin(s)) && DoBegin(s).h.orphans == s.h.orphans
  {
    hide EncFrame, Header;
  }

  lemma SendBytesFollows(s: Sched, n: nat)
    requires CanSendBytes(s, n)
    ensures Follows(s, DoSendBytes(s, n)) && DoSendBytes(s, n).h.orphans == s.h.orphans
  {
  }

  lemma SendEndFollows(s: Sched, e: Code)
    requires CanSendEnd(s, e)
    ensures Follows(s, DoSendEnd(s, e)) && DoSendEnd(s, e).h.orphans == s.h.orphans
  {
    hide Header;
  }

  lemma RecvBytesFollows(s: Sched, chunk: Bytes)
    requires CanRecvBytes(s, chunk)
    ensures Follows(s, DoRecvBytes(s, chunk)) && DoRecvBytes(s, chunk).h.orphans == s.h.orphans
  {
  }

  lemma RecvEndFollows(s: Sched, e: Code)
    requires CanRecvEnd(s, e)
    ensures Follows(s, DoRecvEnd(s, e)) && DoRecvEnd(s, e).h.orphans == s.h.orphans
  {
    hide Follows;
    RecvEndOnly(s, e);
    assert !s.rpc.RDone? && !s.rpc.RBad?;
    hide DoRecvEnd, CanRecvEnd;
    ReceiverFollows(s, DoRecvEnd(s, e));
  }

  lemma FillFollows(s: Sched)
    requires s.rpc.RMatched? && s.rpc.op in s.rops
    ensures Follows(s, DoFill(s)) && DoFill(s).h.orphans == s.h.orphans
  {
    hide Follows, DoFill;
    FillOnly(s);
    ReceiverFollows(s, DoFill(s));
  }

  /** No step undoes a completion, an error or an exit, or forgets a flush call. */
  lemma StepFollows(s: Sched, st: Step)
    requires Enabled(s, st)
    ensures Follows(s, Apply(s, st))
    ensures !IsCancel(st) && !st.UFlush? ==> Apply(s, st).h.orphans == s.h.orphans
    ensures st.UFlush? ==> Apply(s, st).h.orphans == s.h.orphans + [{}]
  {
    hide Follows, DoFork, DoSend, DoRecv, DoCancelSend, DoCancelRecv, DoFlush, DoClose, DoBegin, DoSendBytes,
         DoSendEnd, DoNextSend, DoRecvBytes, DoRecvEnd, DoInit, DoAsk, DoFill, DoAny;
    match st
    case UFork(sid) => ForkFollows(s, sid);
    case USend(sid, body) => SendFollows(s, sid, body);
    case URecv(sid, buffer) => RecvFollows(s, sid, buffer);
    case UCancelSend(op) => CancelFollows(s, op);
    case UCancelRecv(op) => CancelFollows(s, op);
    case UFlush => FlushFollows(s);
    case UClose => CloseFollows(s);
    case TBegin => BeginFollows(s);
    case TSendBytes(n) => SendBytesFollows(s, n);
    case TSendEnd(e) => SendEndFollows(s, e);
    case TNextSend => NextFollows(s);
    case TRecvBytes(chunk) => RecvBytesFollows(s, chunk);
    case TRecvEnd(e) => RecvEndFollows(s, e);
    case TInit => InitFollows(s);
    case TAsk => AskFollows(s);
    case TFill => FillFollows(s);
    case TAny => AnyFollows(s);
  }
}
