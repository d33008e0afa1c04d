/** Which operations fail when a task stops, and with which code. */
module Failures {
  import opened Common
  import opened Framing
  import opened Scheduler
  import opened Lists
  import opened Invariants
  import opened QueueProofs
  import opened Follow
  import opened Shapes
  import opened Endpoint

  /** An operation that failed without having been cancelled on its own, and its code. */
  type Failure = (OpId, Code)

  /** The failures of direction `dir`, in the order their handles were queued. */
  function Fails(log: seq<Handle>, dir: Dir): seq<Failure> {
    if log == [] then []
    else Fails(log[..|log| - 1], dir) + FailOf(log[|log| - 1], dir)
  }

  function FailOf(h: Handle, dir: Dir): seq<Failure> {
    match h
    case OpDone(op, Failed(d, e)) => if d == dir then [(op, e)] else []
    case _ => []
  }

  /** The first of `ops` has code `e`, the others have `cancel`. */
  function Coded(ops: seq<OpId>, e: Code): (r: seq<Failure>)
    ensures |r| == |ops|
  {
    seq(|ops|, k requires 0 <= k < |ops| => (ops[k], if k == 0 then e else Cancel))
  }

  // ---- what completing and draining add ---------------------------------------

  lemma FailsSnoc(log: seq<Handle>, h: Handle, dir: Dir)
    ensures Fails(log + [h], dir) == Fails(log, dir) + FailOf(h, dir)
  {
    assert (log + [h])[..|log|] == log;
  }

  lemma {:induction false} FailsFlushes(log: seq<Handle>, f: seq<Handle>, dir: Dir)
    requires forall i :: 0 <= i < |f| ==> f[i].FlushDone?
    ensures Fails(log + f, dir) == Fails(log, dir)
    decreases |f|
  {
    if f == [] {
      assert log + f == log;
    } else {
      var n := |f| - 1;
      FailsFlushes(log, f[..n], dir);
      FailsSnoc(log + f[..n], f[n], dir);
      assert log + f == log + f[..n] + [f[n]];
    }
  }

  lemma FinishFails(q: Queued, op: OpId, r: Result, dir: Dir)
    ensures Fails(Finish(q, op, r).log, dir) == Fails(q.log, dir) + FailOf(OpDone(op, r), dir)
  {
    FiredFlushes(q.tokens, op, 0);
    FailsSnoc(q.log, OpDone(op, r), dir);
    FailsFlushes(q.log + [OpDone(op, r)], Fired(q.tokens, op, 0), dir);
  }

  lemma CodedFirst(ops: seq<OpId>, e: Code)
    requires ops != []
    ensures Coded(ops, e) == [(ops[0], e)] + Coded(ops[1..], Cancel)
  {
  }

  lemma {:induction false} DrainFails(q: Queued, ops: seq<OpId>, d: Dir, e: Code, dir: Dir)
    ensures Fails(DrainOps(q, ops, d, e).log, dir) == Fails(q.log, dir) + if d == dir then Coded(ops, e) else []
    decreases |ops|
  {
    hide Fails, Finish;
    if ops != [] {
      var r := Failed(d, e);
      FinishFails(q, ops[0], r, dir);
      DrainFails(Finish(q, ops[0], r), ops[1..], d, Cancel, dir);
      CodedFirst(ops, e);
      hide Coded;
      var a, b := Fails(q.log, dir), Coded(ops[1..], Cancel);
      assert d == dir ==> a + [(ops[0], e)] + b == a + ([(ops[0], e)] + b);
    }
  }

  // ---- the steps ----------------------------------------------------------------

  /** The failures a step adds. The send task stops when its transfer failed or an error
      has been recorded, and then fails its own send if its transfer failed, and every
      send behind it. */
  function SendFailures(s: Sched, st: Step): seq<Failure> {
    if st != TNextSend || !CanNextSend(s) then []
    else if s.spc.ec != Success then [(s.spc.op, s.spc.ec)] + Coded(s.order[1..], Cancel)
    else if s.ec != Success then Coded(s.order[1..], Success)
    else []
  }

  /** ... and the receive task, with a recv of its own (`prev`) or without, or when a
      header names an unknown slot. */
  function RecvFailures(s: Sched, st: Step): seq<Failure> {
    if st == TAny && CanAny(s) then
      match s.rpc
      case RGood(op, _) => if s.ec != Success then Coded(LeftRecvs(s, op), Success) else []
      case RBad(Some(op), e) => [(op, e)] + Coded(LeftRecvs(s, op), Cancel)
      case RBad(None, e) => if e != Success || s.ec != Success then Coded(Flatten(s.recvQ), e) else []
    else if st == TAsk && s.rpc.RAsk? && s.rpc.slot !in s.remoteMap then
      Coded(Flatten(s.recvQ), BadCoprotoMessageHeader)
    else []
  }

  /** The recvs queued when the front one of the fork of `op` is taken out. */
  function LeftRecvs(s: Sched, op: OpId): seq<OpId> {
    var i := rOf(s, op);
    if i < |s.recvQ| && s.recvQ[i] != [] then Flatten(s.recvQ[i := s.recvQ[i][1..]]) else []
  }

  ghost predicate Adds(s: Sched, t: Sched, sends: seq<Failure>, recvs: seq<Failure>) {
    && Fails(t.q.log, SendDir) == Fails(s.q.log, SendDir) + sends
    && Fails(t.q.log, RecvDir) == Fails(s.q.log, RecvDir) + recvs
  }

  lemma LogSame(s: Sched, t: Sched)
    requires t.q.log == s.q.log
    ensures Adds(s, t, [], [])
  {
  }

  lemma AddsThen(s: Sched, t: Sched, u: Sched, a: seq<Failure>, b: seq<Failure>, c: seq<Failure>, d: seq<Failure>,
                 sends: seq<Failure>, recvs: seq<Failure>)
    requires Adds(s, t, a, b) && Adds(t, u, c, d) && sends == a + c && recvs == b + d
    ensures Adds(s, u, sends, recvs)
  {
    hide Fails;
    assert Fails(s.q.log, SendDir) + a + c == Fails(s.q.log, SendDir) + (a + c);
    assert Fails(s.q.log, RecvDir) + b + d == Fails(s.q.log, RecvDir) + (b + d);
  }

  lemma LogMore(s: Sched, t: Sched, h: Handle)
    requires t.q.log == s.q.log + [h] && FailOf(h, SendDir) == FailOf(h, RecvDir) == []
    ensures Adds(s, t, [], [])
  {
    FailsSnoc(s.q.log, h, SendDir);
    FailsSnoc(s.q.log, h, RecvDir);
    hide Fails;
  }

  lemma Finished(s: Sched, t: Sched, op: OpId, r: Result)
    requires t.q == Finish(s.q, op, r)
    ensures Adds(s, t, FailOf(OpDone(op, r), SendDir), FailOf(OpDone(op, r), RecvDir))
  {
    FinishFails(s.q, op, r, SendDir);
    FinishFails(s.q, op, r, RecvDir);
    hide Fails, Finish;
  }

  lemma SendDrained(s: Sched, t: Sched, e: Code)
    requires t.q == DrainOps(s.q, s.order, SendDir, e)
    ensures Adds(s, t, Coded(s.order, e), [])
  {
    DrainFails(s.q, s.order, SendDir, e, SendDir);
    DrainFails(s.q, s.order, SendDir, e, RecvDir);
    hide Fails, DrainOps, Coded;
  }

  lemma RecvDrained(s: Sched, t: Sched, e: Code)
    requires t.q == DrainOps(s.q, Flatten(s.recvQ), RecvDir, e)
    ensures Adds(s, t, [], Coded(Flatten(s.recvQ), e))
  {
    DrainFails(s.q, Flatten(s.recvQ), RecvDir, e, SendDir);
    DrainFails(s.q, Flatten(s.recvQ), RecvDir, e, RecvDir);
    hide Fails, DrainOps, Coded, Flatten;
  }

  lemma StopSendingLog(s: Sched, e: Code)
    ensures StopSending(s, e).q == DrainOps(s.q, s.order, SendDir, e)
  {
    StopOnly(s, Sender, e);
    hide Stop, DrainOps, NoQueues, DrainAll;
  }

  lemma StartNextLog(s: Sched)
    ensures StartNext(s).q == s.q
  {
    StartNextOnly(s);
    hide StartNext;
  }

  lemma NextAdds(s: Sched)
    requires CanNextSend(s)
    ensures Adds(s, DoNextSend(s), SendFailures(s, TNextSend), [])
  {
    hide Adds, Finish, DrainOps, Coded, StopSending, StartNext, sOf, PopFrom;
    var s1 := CompleteSend(s);
    var t := DoNextSend(s);
    var r := if s.spc.ec == Success then Sent else Failed(SendDir, s.spc.ec);
    Finished(s, s1, s.spc.op, r);
    if s.spc.ec != Success || s.ec != Success {
      var e := if s.spc.ec == Success then Success else Cancel;
      StopSendingLog(s1, e);
      SendDrained(s1, t, e);
      AddsThen(s, s1, t, FailOf(OpDone(s.spc.op, r), SendDir), [], Coded(s1.order, e), [], SendFailures(s, TNextSend), []);
    } else {
      StartNextLog(s1);
      LogSame(s1, t);
      AddsThen(s, s1, t, FailOf(OpDone(s.spc.op, r), SendDir), [], [], [], [], []);
    }
  }

  lemma AnyAdds(s: Sched)
    requires CanAny(s)
    ensures Adds(s, DoAny(s), [], RecvFailures(s, TAny))
  {
    hide Adds, Finish, DrainOps, Coded, Stop, ReadNext, rOf, PopFrom, DrainAll, NoQueues, Flatten, CompleteRecv, CarriedError;
    var s1 := CompleteRecv(s);
    var t := DoAny(s);
    var a := CompleteAdds(s);
    var e := CarriedError(s.rpc);
    if e != Success || s.ec != Success {
      StopReadingLog(s1, e);
      RecvDrained(s1, t, e);
      Carried(s, s1);
      AddsThen(s, s1, t, [], a, [], Coded(Flatten(s1.recvQ), e), [], RecvFailures(s, TAny));
    } else {
      ReadNextOnly(s1);
      LogSame(s1, t);
      Carried(s, s1);
      AddsThen(s, s1, t, [], a, [], [], [], []);
    }
  }

  lemma StopReadingLog(s: Sched, e: Code)
    ensures StopReading(s, e).q == DrainOps(s.q, Flatten(s.recvQ), RecvDir, e)
  {
    StopOnly(s, Recver, e);
    hide Stop, DrainOps, Flatten, NoQueues, DrainAll;
  }

  lemma CompleteAdds(s: Sched) returns (a: seq<Failure>)
    requires CanAny(s)
    ensures Adds(s, CompleteRecv(s), [], a) && CompleteRecv(s).ec == s.ec
    ensures a == if s.rpc.RBad? && s.rpc.prev.Some? then [(s.rpc.prev.value, s.rpc.ec)] else []
  {
    hide Adds, Finish, PopFrom;
    var t := CompleteRecv(s);
    a := [];
    if PrevRecv(s.rpc).None? {
      LogSame(s, t);
    } else if s.rpc.RGood? {
      Finished(s, t, s.rpc.op, Received(s.rops[s.rpc.op].sid, s.part[8..]));
    } else {
      Finished(s, t, s.rpc.prev.value, Failed(RecvDir, s.rpc.ec));
      a := [(s.rpc.prev.value, s.rpc.ec)];
    }
  }

  /** What is left of the recvs when the task's own has been taken out. */
  lemma Carried(s: Sched, t: Sched)
    requires CanAny(s) && t == CompleteRecv(s)
    ensures PrevRecv(s.rpc).None? ==> Flatten(t.recvQ) == Flatten(s.recvQ)
    ensures PrevRecv(s.rpc).Some? ==> Flatten(t.recvQ) == LeftRecvs(s, PrevRecv(s.rpc).value)
    ensures CarriedError(s.rpc) == (if s.rpc.RGood? then Success else if s.rpc.prev.Some? then Cancel else s.rpc.ec)
  {
    hide Finish, rOf, PopFrom, Flatten;
    if s.rpc.RGood? {
    } else if s.rpc.prev.Some? {
    }
  }

  lemma AskAdds(s: Sched)
    requires s.rpc.RAsk?
    ensures Adds(s, DoAsk(s), [], RecvFailures(s, TAsk))
  {
    hide Adds, Stop, MatchHeader, DrainOps, Coded, Flatten, NoQueues, DrainAll;
    var t := DoAsk(s);
    MatchOnly(s, s.rpc.size, s.rpc.slot);
    if s.rpc.slot in s.remoteMap {
      LogSame(s, t);
    } else {
      StopOnly(s, Recver, BadCoprotoMessageHeader);
      MatchOnly(DrainRecvs(Stop(s, Recver, BadCoprotoMessageHeader), BadCoprotoMessageHeader), s.rpc.size, s.rpc.slot);
      RecvDrained(s, t, BadCoprotoMessageHeader);
    }
  }

  lemma SendCallAdds(s: Sched, sid: Sid, body: Bytes)
    requires CanSend(s, sid, body)
    ensures Adds(s, DoSend(s, sid, body), [], [])
  {
    hide Adds, PushTo;
    if body == [] {
      LogMore(s, DoSend(s, sid, body), OpDone(s.nextOp, Refused(SendLengthZeroMsg)));
    } else if s.ec != Success {
      LogMore(s, DoSend(s, sid, body), OpDone(s.nextOp, Refused(s.ec)));
    } else {
      LogSame(s, DoSend(s, sid, body));
    }
  }

  lemma RecvCallAdds(s: Sched, sid: Sid, buffer: Buffer)
    requires IsLocal(s, sid)
    ensures Adds(s, DoRecv(s, sid, buffer), [], [])
  {
    hide Adds, PushTo;
    if s.ec != Success {
      LogMore(s, DoRecv(s, sid, buffer), OpDone(s.nextOp, Refused(s.ec)));
    } else {
      LogSame(s, DoRecv(s, sid, buffer));
    }
  }

  lemma CancelAdds(s: Sched, op: OpId)
    ensures CanCancelSend(s, op) ==> Adds(s, DoCancelSend(s, op), [], [])
    ensures CanCancelRecv(s, op) ==> Adds(s, DoCancelRecv(s, op), [], [])
  {
    hide Adds, Finish, Without, EraseFrom, Orphaned, sOf, rOf, Flatten, CanErase;
    if CanCancelSend(s, op) {
      if s.status[op].NotStarted? {
        Finished(s, DoCancelSend(s, op), op, Withdrawn);
      } else {
        LogSame(s, DoCancelSend(s, op));
      }
    }
    if CanCancelRecv(s, op) {
      if s.status[op].NotStarted? {
        Finished(s, DoCancelRecv(s, op), op, Withdrawn);
      } else {
        LogSame(s, DoCancelRecv(s, op));
      }
    }
  }

  lemma FlushAdds(s: Sched)
    requires CanFlush(s)
    ensures Adds(s, DoFlush(s), [], [])
  {
    hide Adds, Backs, Pending, CanFlush;
    if s.numRecvs == 0 && s.order == [] {
      LogMore(s, DoFlush(s), FlushDone(|s.q.tokens|));
    } else {
      LogSame(s, DoFlush(s));
    }
  }

  lemma RemoteLog(s: Sched, sid: Sid)
    ensures RemoteFork(s, sid).q == s.q && sid in RemoteFork(s, sid).idMap
  {
    hide EmptyRing;
  }

  lemma InitLog(s: Sched)
    requires s.rpc.RInit?
    ensures DoInit(s).q == s.q
  {
    hide RemoteFork, BindSlot;
    if s.rpc.slot != NO_SLOT {
      RemoteLog(s, s.rpc.sid);
      BindOnly(RemoteFork(s, s.rpc.sid), s.rpc.slot, s.rpc.sid);
    }
  }

  lemma ForkLog(s: Sched, sid: Sid)
    requires CanFork(s, sid)
    ensures DoFork(s, sid).q == s.q
  {
    hide EmptyRing;
  }

  /** What each step adds to the failures of either direction. */
  lemma StepAdds(s: Sched, st: Step)
    requires Enabled(s, st)
    ensures Adds(s, Apply(s, st), SendFailures(s, st), RecvFailures(s, st))
  {
    hide Adds, DoFork, DoSend, DoRecv, DoCancelSend, DoCancelRecv, DoFlush, DoClose, DoBegin, DoSendBytes,
         DoSendEnd, DoNextSend, DoRecvBytes, DoRecvEnd, DoInit, DoAsk, DoFill, DoAny, Coded, LeftRecvs, Flatten;
    match st
    case USend(sid, body) => SendCallAdds(s, sid, body);
    case URecv(sid, buffer) => RecvCallAdds(s, sid, buffer);
    case UCancelSend(op) => CancelAdds(s, op);
    case UCancelRecv(op) => CancelAdds(s, op);
    case UFlush => FlushAdds(s);
    case TNextSend => NextAdds(s);
    case TAsk => AskAdds(s);
    case TAny => AnyAdds(s);
    case TInit =>
      InitLog(s);
      LogSame(s, DoInit(s));
    case UFork(sid) =>
      ForkLog(s, sid);
      LogSame(s, DoFork(s, sid));
    case _ =>
      StillStep(s, st);
      LogSame(s, Apply(s, st));
  }

  // ---- what callers see -----------------------------------------------------------

  ghost predicate Reports(f: seq<Failure>, e: Code) {
    exists k :: 0 <= k < |f| && f[k].1 == e
  }

  lemma CodedReports(ops: seq<OpId>, e: Code)
    ensures Reports(Coded(ops, e), Success) <==> e == Success && ops != []
  {
    if e == Success && ops != [] {
      assert Coded(ops, e)[0].1 == Success;
    }
  }

  lemma HeadReports(op: OpId, e: Code, ops: seq<OpId>)
    requires e != Success
    ensures !Reports([(op, e)] + Coded(ops, Cancel), Success)
  {
  }

  lemma SendReports(s: Sched)
    requires CanNextSend(s)
    ensures Reports(SendFailures(s, TNextSend), Success) <==>
            s.spc.ec == Success && s.ec != Success && |s.order| > 1
  {
    hide Coded, Reports;
    if s.spc.ec != Success {
      HeadReports(s.spc.op, s.spc.ec, s.order[1..]);
    } else if s.ec != Success {
      CodedReports(s.order[1..], Success);
    } else {
      CodedReports([], Cancel);
      assert Coded([], Cancel) == [];
    }
  }

  lemma LeftSize(s: Sched, op: OpId)
    requires rOf(s, op) < |s.recvQ| && s.recvQ[rOf(s, op)] != []
    ensures |LeftRecvs(s, op)| == |Flatten(s.recvQ)| - 1
  {
    FlattenUpdate(s.recvQ, rOf(s, op), s.recvQ[rOf(s, op)][1..]);
    hide Flatten, rOf;
  }

  lemma RecvReports(s: Sched)
    requires CanAny(s) && s.numRecvs == |Flatten(s.recvQ)| && (s.rpc.RBad? ==> s.rpc.ec != Success)
    ensures Reports(RecvFailures(s, TAny), Success) <==> s.rpc.RGood? && s.ec != Success && s.numRecvs > 1
  {
    hide Coded, Reports, Flatten, LeftRecvs, rOf;
    CodedReports([], Cancel);
    assert Coded([], Cancel) == [];
    if s.rpc.RGood? {
      LeftSize(s, s.rpc.op);
      CodedReports(LeftRecvs(s, s.rpc.op), Success);
    } else if s.rpc.prev.Some? {
      HeadReports(s.rpc.prev.value, s.rpc.ec, LeftRecvs(s, s.rpc.prev.value));
    } else {
      CodedReports(Flatten(s.recvQ), s.rpc.ec);
    }
  }

  lemma AnyFacts(s: Sched)
    requires Inv(s)
    ensures s.numRecvs == |Flatten(s.recvQ)| && (s.rpc.RBad? ==> s.rpc.ec != Success)
    ensures s.spc.SDone? || s.rpc.RDone? ==> s.ec != Success
  {
    hide IdsOf, OpsOf, ListOf, SendQOf, TxOf, BodiesOf, WireOf, MetaOf, LedgerOf, RxOf, RxMapOf, GivenOf,
         OnceOf, CountsOf, FlushOf, Flatten, FrontIs, MatchedOf;
  }

  /** An operation that was never transferred is reported to have failed with the code
      success exactly when a task stops after a transfer of its own that succeeded, with an
      error already recorded and another operation of its direction queued. */
  lemma SuccessReported(root: Sid, s: Sched, st: Step)
    requires Reachable(root, s) && Enabled(s, st)
    ensures Reports(SendFailures(s, st), Success) <==>
            st == TNextSend && s.spc.ec == Success && s.ec != Success && |s.order| > 1
    ensures Reports(RecvFailures(s, st), Success) <==>
            st == TAny && s.rpc.RGood? && s.ec != Success && s.numRecvs > 1
  {
    hide Inv, Reachable, CanNextSend, CanAny, SendFailures, RecvFailures, Reports, Flatten;
    ReachableInv(root, s);
    AnyFacts(s);
    Quiet(s, st);
    if st == TNextSend {
      SendReports(s);
    } else if st == TAny {
      RecvReports(s);
    }
  }

  lemma Quiet(s: Sched, st: Step)
    ensures st != TNextSend ==> !Reports(SendFailures(s, st), Success)
    ensures st != TAny ==> !Reports(RecvFailures(s, st), Success)
  {
    CodedReports(Flatten(s.recvQ), BadCoprotoMessageHeader);
    hide Coded, CanNextSend, CanAny, Flatten;
  }

  // ---- whole runs -------------------------------------------------------------------

  ghost predicate OthersCancelled(f: seq<Failure>) {
    forall k :: 1 <= k < |f| ==> f[k].1 == Cancel
  }

  /** A direction fails its operations once, when its task is done or about to be. */
  ghost predicate SendsFailedOnce(s: Sched) {
    && OthersCancelled(Fails(s.q.log, SendDir))
    && (Fails(s.q.log, SendDir) != [] ==> s.spc.SDone?)
  }

  ghost predicate RecvsFailedOnce(s: Sched) {
    && OthersCancelled(Fails(s.q.log, RecvDir))
    && (Fails(s.q.log, RecvDir) != [] ==>
          && s.ec != Success && s.numRecvs == 0
          && (s.rpc.RDone? || (s.rpc.RBad? && s.rpc.prev.None?)))
  }

  lemma NextStops(s: Sched)
    requires CanNextSend(s) && (s.spc.ec != Success || s.ec != Success)
    ensures DoNextSend(s).spc.SDone?
  {
    hide DrainOps, DrainAll, NoQueues, Finish, PopFrom, sOf, Stop;
  }

  lemma SendsOnceStep(s: Sched, st: Step)
    requires Inv(s) && SendsFailedOnce(s) && Enabled(s, st)
    ensures SendsFailedOnce(Apply(s, st))
  {
    hide Inv, Apply, Enabled, SendsFailedOnce, SendFailures, Adds, Follows;
    StepAdds(s, st);
    if SendFailures(s, st) == [] {
      AnyFacts(s);
      StepFollows(s, st);
      SendsKept(s, Apply(s, st), RecvFailures(s, st));
    } else {
      StopOnce(s, st);
    }
  }

  lemma SendsKept(s: Sched, t: Sched, recvs: seq<Failure>)
    requires SendsFailedOnce(s) && Adds(s, t, [], recvs) && Follows(s, t)
    requires s.spc.SDone? ==> s.ec != Success
    ensures SendsFailedOnce(t)
  {
    hide Fails;
  }

  lemma EnabledNext(s: Sched, st: Step)
    requires Enabled(s, st) && SendFailures(s, st) != []
    ensures CanNextSend(s) && s.spc.SFinish? && (s.spc.ec != Success || s.ec != Success)
    ensures Apply(s, st) == DoNextSend(s)
  {
    hide DoNextSend, Coded;
    if st == TNextSend {
    }
  }

  lemma StopOnce(s: Sched, st: Step)
    requires SendsFailedOnce(s) && Enabled(s, st) && SendFailures(s, st) != []
    requires Adds(s, Apply(s, st), SendFailures(s, st), RecvFailures(s, st))
    ensures SendsFailedOnce(Apply(s, st))
  {
    hide Apply, Enabled, Fails, DoNextSend, RecvFailures, CanNextSend;
    EnabledNext(s, st);
    NextStops(s);
    assert Fails(s.q.log, SendDir) == [];
  }

  lemma AnyStops(s: Sched)
    requires CanAny(s) && (CarriedError(s.rpc) != Success || s.ec != Success)
    ensures var t := DoAny(s); t.rpc.RDone? && t.ec != Success && t.numRecvs == 0
  {
    hide DrainOps, DrainAll, NoQueues, Finish, PopFrom, rOf, Flatten;
    var s1 := CompleteRecv(s);
    assert s1.ec == s.ec;
    hide CompleteRecv, CarriedError;
  }

  lemma AskStops(s: Sched)
    requires s.rpc.RAsk? && s.rpc.slot !in s.remoteMap
    ensures var t := DoAsk(s); t.rpc.RBad? && t.rpc.prev.None? && t.ec != Success && t.numRecvs == 0
  {
    hide DrainOps, DrainAll, NoQueues, Flatten, MatchHeader;
    var t := DrainRecvs(Stop(s, Recver, BadCoprotoMessageHeader), BadCoprotoMessageHeader);
    assert t.ec != Success && t.numRecvs == 0;
    hide DrainRecvs, Stop;
    MatchStops(t, s.rpc.size, s.rpc.slot);
  }

  lemma MatchStops(s: Sched, size: nat, slot: nat)
    requires s.ec != Success
    ensures MatchHeader(s, size, slot) == s.(rpc := RBad(None, s.ec))
  {
  }

  lemma AnyOnce(s: Sched)
    requires CanAny(s) && s.numRecvs == |Flatten(s.recvQ)|
    ensures OthersCancelled(RecvFailures(s, TAny))
    ensures RecvFailures(s, TAny) != [] ==> CarriedError(s.rpc) != Success || s.ec != Success
    ensures s.numRecvs == 0 && s.rpc.RBad? && s.rpc.prev.None? ==> RecvFailures(s, TAny) == []
  {
    hide LeftRecvs, Flatten, rOf;
    if s.rpc.RGood? {
    } else if s.rpc.prev.Some? {
    }
  }

  lemma AskOnce(s: Sched, st: Step)
    requires st != TAny
    ensures OthersCancelled(RecvFailures(s, st))
    ensures RecvFailures(s, st) != [] ==> st == TAsk && s.rpc.RAsk? && s.rpc.slot !in s.remoteMap
  {
    hide Flatten;
  }

  lemma EnabledTask(s: Sched, st: Step)
    requires Enabled(s, st)
    ensures st == TAsk ==> s.rpc.RAsk? && Apply(s, st) == DoAsk(s)
    ensures st == TAny ==> CanAny(s) && (s.rpc.RGood? || s.rpc.RBad?) && Apply(s, st) == DoAny(s)
  {
    hide DoAsk, DoAny, rOf;
    if st == TAsk {
    } else if st == TAny {
    }
  }

  lemma FollowsOnce(s: Sched, t: Sched)
    requires Follows(s, t) && s.ec != Success && s.numRecvs == 0
    ensures t.ec != Success && t.numRecvs == 0
    ensures s.rpc.RDone? ==> t.rpc.RDone?
    ensures s.rpc.RBad? && s.rpc.prev.None? ==> t.rpc == s.rpc || t.rpc.RDone?
  {
  }

  lemma RecvsOnceStep(s: Sched, st: Step)
    requires Inv(s) && RecvsFailedOnce(s) && Enabled(s, st)
    ensures RecvsFailedOnce(Apply(s, st))
  {
    hide Inv, Apply, Enabled, RecvsFailedOnce, RecvFailures, Adds;
    StepAdds(s, st);
    if RecvFailures(s, st) == [] {
      StepFollows(s, st);
      FailsKept(s, Apply(s, st), SendFailures(s, st));
    } else {
      DrainsOnce(s, st);
    }
  }

  lemma FailsKept(s: Sched, t: Sched, sends: seq<Failure>)
    requires RecvsFailedOnce(s) && Adds(s, t, sends, []) && Follows(s, t)
    ensures RecvsFailedOnce(t)
  {
    hide Fails, Follows;
    if s.ec != Success && s.numRecvs == 0 {
      FollowsOnce(s, t);
    }
  }

  lemma DrainsOnce(s: Sched, st: Step)
    requires Inv(s) && RecvsFailedOnce(s) && Enabled(s, st) && RecvFailures(s, st) != []
    requires Adds(s, Apply(s, st), SendFailures(s, st), RecvFailures(s, st))
    ensures RecvsFailedOnce(Apply(s, st))
  {
    hide Inv, Apply, Enabled, Fails, CanAny, CarriedError, RecvFailures;
    EnabledTask(s, st);
    AnyFacts(s);
    if st != TAny {
      AskOnce(s, st);
      AskStops(s);
    } else {
      AnyOnce(s);
      AnyStops(s);
    }
  }

  lemma {:induction false} RunOnce(a: Sched, steps: seq<Step>, b: Sched)
    requires Inv(a) && SendsFailedOnce(a) && RecvsFailedOnce(a) && Runs(a, steps, b)
    ensures SendsFailedOnce(b) && RecvsFailedOnce(b)
    decreases |steps|
  {
    hide Inv, Apply, Enabled, SendsFailedOnce, RecvsFailedOnce;
    if steps != [] {
      StepKeeps(a, steps[0]);
      SendsOnceStep(a, steps[0]);
      RecvsOnceStep(a, steps[0]);
      RunOnce(Apply(a, steps[0]), steps[1..], b);
    }
  }

  /** Over a whole run only the first failure of each direction may have another code than
      cancel; every other operation it drains is cancelled. */
  lemma OneErrorPerDirection(root: Sid, s: Sched, dir: Dir)
    requires Reachable(root, s)
    ensures OthersCancelled(Fails(s.q.log, dir))
    ensures dir == SendDir && Fails(s.q.log, dir) != [] ==> s.spc.SDone?
    ensures dir == RecvDir && Fails(s.q.log, dir) != [] ==> s.ec != Success && s.numRecvs == 0
  {
    hide Inv, Runs;
    var steps :| Runs(Start(root), steps, s);
    StartInv(root);
    RunOnce(Start(root), steps, s);
    hide Fails, Start;
  }
}
