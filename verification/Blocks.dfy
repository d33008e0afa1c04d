/** The blocks of the fork queues: in every reachable state they hold exactly the
    operations queued, in order, and where an operation stands decides whether its stop
    callback can erase it. */
module Blocks {
  import opened Common
  import opened Framing
  import opened Rings
  import opened Scheduler
  import opened Lists
  import opened Invariants
  import opened QueueProofs
  import opened FlushProofs
  import opened Shapes
  import opened Endpoint

  /** The live slots of `r` are the queue `q`. */
  ghost predicate RingFor(r: Ring, q: seq<OpId>) {
    Ready(r) && r[|r| - 1].cap > 0 && Values(AllLive(r)) == q
  }

  ghost predicate RingsFor(rs: seq<Ring>, q: seq<seq<OpId>>) {
    |rs| == |q| && forall i :: 0 <= i < |rs| ==> RingFor(rs[i], q[i])
  }

  ghost predicate RingInv(s: Sched) {
    RingsFor(s.sendR, s.sendQ) && RingsFor(s.recvR, s.recvQ)
  }

  // ---- one ring -------------------------------------------------------------

  lemma EmptyFor()
    ensures RingFor(EmptyRing(), [])
  {
    FreshItems<(), OpId>((), QUEUE_CAPACITY);
  }

  lemma PushCap(r: Ring, op: OpId)
    requires r != [] && r[|r| - 1].cap > 0
    ensures var t := RingPush(r, op, ()); t != [] && t[|t| - 1].cap > 0
  {
  }

  lemma PushFor(r: Ring, q: seq<OpId>, op: OpId)
    requires RingFor(r, q)
    ensures RingFor(RingPush(r, op, ()), q + [op])
  {
    PushItems(r, op, ());
    PushCap(r, op);
    var gs := Grown(r, ());
    var w := gs[|gs| - 1];
    ValuesSnoc(AllLive(r), Item(w.block, w.begin + |w.view|, op));
    hide AllLive, Live, Ready, RingPush, Grown, Values;
  }

  /** The capacity of the last block. */
  lemma DrainedCap(r: Ring, t: Ring)
    requires r != [] && t != [] && Drained(r) == Drained(t)
    ensures r[|r| - 1].cap == t[|t| - 1].cap
  {
    assert Drained(r)[0].cap == r[|r| - 1].cap;
    assert Drained(t)[0].cap == t[|t| - 1].cap;
  }

  lemma PopFor(r: Ring, q: seq<OpId>)
    requires RingFor(r, q) && q != []
    ensures RingFor(RingPop(r), q[1..])
  {
    PopItems(r);
    PopLast(r);
    DrainedCap(r, RingPop(r));
    ValuesRemove(AllLive(r), 0);
    hide AllLive, Live, RingPop, Drained;
  }

  lemma RemoveIsWithout(q: seq<OpId>, p: nat)
    requires Ascending(q) && p < |q|
    ensures Remove(q, p) == Without(q, {q[p]})
  {
    var a, op, b := q[..p], q[p], q[p + 1..];
    assert q == a + [op] + b;
    assert op !in a && op !in b;
    hide Ascending;
    WithoutMiddle(a, op, b);
  }

  lemma EraseCap(r: Ring, i: nat, j: nat)
    requires i < |r| && j < |r[i].view|
    ensures var t := RingErase(r, i, j); t != [] && t[|t| - 1].cap == r[|r| - 1].cap
  {
    if i == 0 && j == 0 {
      PopLast(r);
      DrainedCap(r, RingPop(r));
    }
    hide RingPop;
  }

  lemma EraseFor(r: Ring, q: seq<OpId>, op: OpId)
    requires RingFor(r, q) && Ascending(q) && op in q
    ensures RingFor(EraseValue(r, op), Without(q, {op}))
  {
    hide AllLive, Live, Ready, RingErase;
    var p := EraseValueItems(r, op);
    RemoveIsWithout(q, p);
    if WindowOf(r, op) < |r| {
      EraseCap(r, WindowOf(r, op), SlotOf(r[WindowOf(r, op)].view, op));
    }
  }

  lemma DrainFor(r: Ring, q: seq<OpId>)
    requires RingFor(r, q)
    ensures RingFor(Drained(r), [])
  {
    DrainedItems(r);
    hide AllLive, Live, Ready;
  }

  // ---- what a step does to the queues of one direction ----------------------

  /** Nothing; a new fork; a push, a pop or an erase of one fork; or a drain of all. */
  datatype Change = Stay | Grow | Put(i: nat, op: OpId) | Take(i: nat) | Out(i: nat, op: OpId) | Empty

  ghost predicate Changes(c: Change, q: seq<seq<OpId>>, rs: seq<Ring>, q': seq<seq<OpId>>, rs': seq<Ring>) {
    match c
    case Stay => q' == q && rs' == rs
    case Grow => q' == q + [[]] && rs' == rs + [EmptyRing()]
    case Put(i, op) => i < |q| && q' == q[i := q[i] + [op]] && rs' == PushTo(rs, i, op)
    case Take(i) => i < |q| && q[i] != [] && q' == q[i := q[i][1..]] && rs' == PopFrom(rs, i)
    case Out(i, op) =>
      && i < |q| && op in q[i] && Ascending(q[i])
      && q' == q[i := Without(q[i], {op})] && rs' == EraseFrom(rs, i, op)
    case Empty => q' == NoQueues(|q|) && rs' == DrainAll(rs)
  }

  lemma ChangeKeeps(c: Change, q: seq<seq<OpId>>, rs: seq<Ring>, q': seq<seq<OpId>>, rs': seq<Ring>)
    requires RingsFor(rs, q) && Changes(c, q, rs, q', rs')
    ensures RingsFor(rs', q')
  {
    hide RingFor, RingPush, RingPop, EraseValue, Drained, Without, Ascending;
    match c
    case Stay =>
    case Grow => EmptyFor();
    case Put(i, op) => PushFor(rs[i], q[i], op);
    case Take(i) => PopFor(rs[i], q[i]);
    case Out(i, op) => EraseFor(rs[i], q[i], op);
    case Empty =>
      forall i | 0 <= i < |rs|
        ensures RingFor(Drained(rs[i]), [])
      {
        DrainFor(rs[i], q[i]);
      }
  }

  /** A pop followed by a drain is a drain. */
  lemma TakeThenEmpty(i: nat, q: seq<seq<OpId>>, rs: seq<Ring>)
    requires RingsFor(rs, q) && i < |q|
    ensures DrainAll(PopFrom(rs, i)) == DrainAll(rs)
  {
    hide Drained, RingPop;
    forall k | 0 <= k < |rs|
      ensures Drained(PopFrom(rs, i)[k]) == Drained(rs[k])
    {
      assert RingFor(rs[k], q[k]);
      PopLast(rs[k]);
    }
  }

  // ---- every step ------------------------------------------------------------

  ghost predicate SendChanges(c: Change, s: Sched, t: Sched) {
    Changes(c, s.sendQ, s.sendR, t.sendQ, t.sendR)
  }

  ghost predicate RecvChanges(c: Change, s: Sched, t: Sched) {
    Changes(c, s.recvQ, s.recvR, t.recvQ, t.recvR)
  }

  lemma ForkChanges(s: Sched, sid: Sid) returns (c: Change)
    requires CanFork(s, sid)
    ensures SendChanges(c, s, DoFork(s, sid)) && RecvChanges(c, s, DoFork(s, sid)) && !c.Put?
  {
    hide EmptyRing;
    c := if sid in s.idMap then Stay else Grow;
  }

  lemma SendCallChanges(s: Sched, sid: Sid, body: Bytes) returns (c: Change)
    requires CanSend(s, sid, body)
    ensures SendChanges(c, s, DoSend(s, sid, body)) && RecvChanges(Stay, s, DoSend(s, sid, body))
    ensures c == if body != [] && s.ec == Success then Put(s.idMap[sid], s.nextOp) else Stay
  {
    hide PushTo;
    c := Stay;
    if body == [] {
    } else if s.ec != Success {
    } else {
      c := Put(s.idMap[sid], s.nextOp);
      if s.spc.SIdle? {
      }
    }
  }

  lemma RefusedChanges(s: Sched, sid: Sid, buffer: Buffer)
    requires IsLocal(s, sid) && s.ec != Success
    ensures SendChanges(Stay, s, DoRecv(s, sid, buffer)) && RecvChanges(Stay, s, DoRecv(s, sid, buffer))
  {
    hide PushTo;
  }

  lemma RecvCallChanges(s: Sched, sid: Sid, buffer: Buffer) returns (d: Change)
    requires IsLocal(s, sid)
    ensures SendChanges(Stay, s, DoRecv(s, sid, buffer)) && RecvChanges(d, s, DoRecv(s, sid, buffer))
    ensures d == if s.ec == Success then Put(s.idMap[sid], s.nextOp) else Stay
  {
    hide DoRecv, PushTo;
    if s.ec != Success {
      d := Stay;
      RefusedChanges(s, sid, buffer);
    } else {
      d := Put(s.idMap[sid], s.nextOp);
      RecvOnly(s, sid, buffer);
    }
  }

  lemma FlushChanges(s: Sched)
    requires CanFlush(s)
    ensures SendChanges(Stay, s, DoFlush(s)) && RecvChanges(Stay, s, DoFlush(s))
  {
    FlushOnly(s);
    hide DoFlush, CanFlush;
  }

  lemma SendWhere(s: Sched, op: OpId)
    requires Inv(s) && op in s.order
    ensures sOf(s, op) < |s.sendQ| && op in s.sendQ[sOf(s, op)] && Ascending(s.sendQ[sOf(s, op)])
  {
    hide RecvQOf, RecvPcOf, TxOf, BodiesOf, WireOf, MetaOf, LedgerOf, RxOf, RxMapOf, GivenOf, OnceOf,
         CountsOf, FlushOf;
    OnMembers(s.order, s.sops, s.sops[op].sid);
    AscendingOn(s.order, s.sops, s.sops[op].sid);
  }

  lemma RecvWhere(s: Sched, op: OpId)
    requires Inv(s) && op in Flatten(s.recvQ)
    ensures rOf(s, op) < |s.recvQ| && op in s.recvQ[rOf(s, op)] && Ascending(s.recvQ[rOf(s, op)])
  {
    hide IdsOf, OpsOf, ListOf, SendPcOf, SendQOf, RecvPcOf, TxOf, BodiesOf, WireOf, MetaOf, LedgerOf, RxOf,
         RxMapOf, GivenOf, OnceOf, CountsOf, FlushOf, Flatten, Ascending;
    RecvQWhere(s.recvQ, s.rops, s.status, s.idMap, s.numRecvs, op);
    assert QueueAt(s.recvQ[rOf(s, op)], rOf(s, op), s.rops, s.status, s.idMap);
  }

  lemma CancelSendQueues(s: Sched, op: OpId)
    requires CanCancelSend(s, op)
    ensures var t, i := DoCancelSend(s, op), sOf(s, op);
            && t.recvQ == s.recvQ && t.recvR == s.recvR
            && t.sendQ == (if s.status[op].NotStarted? then s.sendQ[i := Without(s.sendQ[i], {op})] else s.sendQ)
            && t.sendR == (if s.status[op].NotStarted? then EraseFrom(s.sendR, i, op) else s.sendR)
  {
    hide Without, EraseFrom, Finish, sOf, Orphaned, CanErase;
  }

  lemma CancelSendChanges(s: Sched, op: OpId) returns (c: Change)
    requires Inv(s) && CanCancelSend(s, op)
    ensures SendChanges(c, s, DoCancelSend(s, op)) && RecvChanges(Stay, s, DoCancelSend(s, op)) && !c.Put?
  {
    hide Inv, Without, EraseFrom, sOf, Ascending, DoCancelSend;
    SendWhere(s, op);
    CancelSendQueues(s, op);
    c := if s.status[op].NotStarted? then Out(sOf(s, op), op) else Stay;
  }

  lemma CancelRecvQueues(s: Sched, op: OpId)
    requires CanCancelRecv(s, op)
    ensures var t, i := DoCancelRecv(s, op), rOf(s, op);
            && t.sendQ == s.sendQ && t.sendR == s.sendR
            && t.recvQ == (if s.status[op].NotStarted? then s.recvQ[i := Without(s.recvQ[i], {op})] else s.recvQ)
            && t.recvR == (if s.status[op].NotStarted? then EraseFrom(s.recvR, i, op) else s.recvR)
  {
    hide Without, EraseFrom, Finish, rOf, Orphaned, CanErase, Flatten;
  }

  lemma CancelRecvChanges(s: Sched, op: OpId) returns (d: Change)
    requires Inv(s) && CanCancelRecv(s, op)
    ensures SendChanges(Stay, s, DoCancelRecv(s, op)) && RecvChanges(d, s, DoCancelRecv(s, op)) && !d.Put?
  {
    hide Inv, Without, EraseFrom, rOf, Ascending, Flatten, DoCancelRecv;
    RecvWhere(s, op);
    CancelRecvQueues(s, op);
    d := if s.status[op].NotStarted? then Out(rOf(s, op), op) else Stay;
  }

  lemma StillChanges(s: Sched, t: Sched)
    requires Still(s, t)
    ensures SendChanges(Stay, s, t) && RecvChanges(Stay, s, t)
  {
  }

  lemma CompleteSendChanges(s: Sched)
    requires CanNextSend(s)
    ensures SendChanges(Take(sOf(s, s.spc.op)), s, CompleteSend(s)) && RecvChanges(Stay, s, CompleteSend(s))
  {
    hide Finish, sOf, PopFrom;
  }

  lemma StopSendingChanges(s: Sched, e: Code)
    ensures SendChanges(Empty, s, StopSending(s, e)) && RecvChanges(Stay, s, StopSending(s, e))
  {
    hide DrainOps, DrainAll, NoQueues, StoppedRecv;
    if s.ec != Success {
    }
  }

  lemma StopReadingChanges(s: Sched, e: Code)
    ensures SendChanges(Stay, s, StopReading(s, e)) && RecvChanges(Empty, s, StopReading(s, e))
  {
    hide DrainOps, DrainAll, NoQueues, StoppedRecv, Flatten;
    if s.ec != Success {
    }
  }

  lemma TakeEmpty(i: nat, q: seq<seq<OpId>>, rs: seq<Ring>, q': seq<seq<OpId>>, rs': seq<Ring>,
                  q'': seq<seq<OpId>>, rs'': seq<Ring>)
    requires RingsFor(rs, q) && Changes(Take(i), q, rs, q', rs') && Changes(Empty, q', rs', q'', rs'')
    ensures Changes(Empty, q, rs, q'', rs'')
  {
    TakeThenEmpty(i, q, rs);
    hide RingsFor, PopFrom, DrainAll;
  }

  lemma NextChanges(s: Sched) returns (c: Change)
    requires RingInv(s) && CanNextSend(s)
    ensures SendChanges(c, s, DoNextSend(s)) && RecvChanges(Stay, s, DoNextSend(s)) && !c.Put?
  {
    hide RingsFor, CompleteSend, StopSending, StartNext, NoQueues, PopFrom, DrainAll;
    var s1, e, i := CompleteSend(s), if s.spc.ec == Success then Success else Cancel, sOf(s, s.spc.op);
    CompleteSendChanges(s);
    if e != Success || s.ec != Success {
      StopSendingChanges(s1, e);
      var t := StopSending(s1, e);
      TakeEmpty(i, s.sendQ, s.sendR, s1.sendQ, s1.sendR, t.sendQ, t.sendR);
      c := Empty;
    } else {
      StartNextOnly(s1);
      c := Take(i);
    }
  }

  lemma CompleteRecvChanges(s: Sched) returns (d: Change)
    requires CanAny(s)
    ensures SendChanges(Stay, s, CompleteRecv(s)) && RecvChanges(d, s, CompleteRecv(s))
    ensures d.Stay? || d.Take?
  {
    hide rOf, PopFrom, Finish;
    if PrevRecv(s.rpc).Some? {
      d := Take(rOf(s, PrevRecv(s.rpc).value));
      CompleteRecvOnly(s);
      hide CompleteRecv;
    } else {
      d := Stay;
    }
  }

  lemma AnyChanges(s: Sched) returns (d: Change)
    requires RingInv(s) && CanAny(s)
    ensures SendChanges(Stay, s, DoAny(s)) && RecvChanges(d, s, DoAny(s)) && !d.Put?
  {
    hide RingsFor, CompleteRecv, StopReading, ReadNext, NoQueues, PopFrom, DrainAll, CarriedError;
    var s1, e := CompleteRecv(s), CarriedError(s.rpc);
    d := CompleteRecvChanges(s);
    if e != Success || s.ec != Success {
      StopReadingChanges(s1, e);
      if d.Take? {
        var t := StopReading(s1, e);
        TakeEmpty(d.i, s.recvQ, s.recvR, s1.recvQ, s1.recvR, t.recvQ, t.recvR);
      }
      d := Empty;
    } else {
      ReadNextOnly(s1);
    }
  }

  lemma DrainRecvsChanges(s: Sched, caller: Caller, e: Code)
    ensures var t := DrainRecvs(Stop(s, caller, e), e);
            SendChanges(Stay, s, t) && RecvChanges(Empty, s, t)
  {
    hide DrainOps, DrainAll, NoQueues, StoppedRecv, Flatten;
    if s.ec != Success {
    }
  }

  lemma AskChanges(s: Sched) returns (d: Change)
    requires s.rpc.RAsk?
    ensures SendChanges(Stay, s, DoAsk(s)) && RecvChanges(d, s, DoAsk(s)) && !d.Put?
  {
    hide DrainRecvs, Stop, MatchHeader, NoQueues, DrainAll;
    d := Stay;
    MatchOnly(s, s.rpc.size, s.rpc.slot);
    if s.rpc.slot !in s.remoteMap {
      DrainRecvsChanges(s, Recver, BadCoprotoMessageHeader);
      MatchOnly(DrainRecvs(Stop(s, Recver, BadCoprotoMessageHeader), BadCoprotoMessageHeader), s.rpc.size, s.rpc.slot);
      d := Empty;
    }
  }

  lemma RemoteChanges(s: Sched, sid: Sid) returns (c: Change)
    ensures SendChanges(c, s, RemoteFork(s, sid)) && RecvChanges(c, s, RemoteFork(s, sid)) && !c.Put?
  {
    hide EmptyRing;
    c := if sid in s.idMap then Stay else Grow;
  }

  lemma InitChanges(s: Sched) returns (c: Change)
    requires s.rpc.RInit?
    ensures SendChanges(c, s, DoInit(s)) && RecvChanges(c, s, DoInit(s)) && !c.Put?
  {
    hide EmptyRing, BindSlot;
    if s.rpc.slot == NO_SLOT {
      c := Stay;
    } else {
      c := RemoteChanges(s, s.rpc.sid);
      var t := RemoteFork(s, s.rpc.sid);
      assert s.rpc.sid in t.idMap;
      hide RemoteFork;
      BindOnly(t, s.rpc.slot, s.rpc.sid);
    }
  }

  /** The step is a call of send that is queued. */
  predicate AcceptsSend(s: Sched, st: Step)
    requires Enabled(s, st)
  {
    st.USend? && st.body != [] && s.ec == Success
  }

  predicate AcceptsRecv(s: Sched, st: Step)
    requires Enabled(s, st)
  {
    st.URecv? && s.ec == Success
  }

  /** Every step is one change of the send queues and one of the recv queues. */
  lemma StepChanges(s: Sched, st: Step) returns (c: Change, d: Change)
    requires Inv(s) && RingInv(s) && Enabled(s, st)
    ensures SendChanges(c, s, Apply(s, st)) && RecvChanges(d, s, Apply(s, st))
    ensures c.Put? <==> AcceptsSend(s, st)
    ensures d.Put? <==> AcceptsRecv(s, st)
    ensures c.Put? ==> c == Put(s.idMap[st.sid], s.nextOp)
    ensures d.Put? ==> d == Put(s.idMap[st.sid], s.nextOp)
  {
    hide Inv, RingInv, SendChanges, RecvChanges, DoFork, DoSend, DoRecv, DoCancelSend, DoCancelRecv, DoFlush,
         DoClose, DoBegin, DoSendBytes, DoSendEnd, DoNextSend, DoRecvBytes, DoRecvEnd, DoInit, DoAsk, DoFill, DoAny;
    c, d := Stay, Stay;
    match st
    case UFork(sid) =>
      c := ForkChanges(s, sid);
      d := c;
    case USend(sid, body) => c := SendCallChanges(s, sid, body);
    case URecv(sid, buffer) => d := RecvCallChanges(s, sid, buffer);
    case UCancelSend(op) => c := CancelSendChanges(s, op);
    case UCancelRecv(op) => d := CancelRecvChanges(s, op);
    case UFlush => FlushChanges(s);
    case TNextSend => c := NextChanges(s);
    case TInit =>
      c := InitChanges(s);
      d := c;
    case TAsk => d := AskChanges(s);
    case TAny => d := AnyChanges(s);
    case _ =>
      StillStep(s, st);
      StillChanges(s, Apply(s, st));
  }

  lemma StepRings(s: Sched, st: Step)
    requires Inv(s) && RingInv(s) && Enabled(s, st)
    ensures RingInv(Apply(s, st))
  {
    hide Inv, Apply, Enabled, Changes, RingsFor;
    var t := Apply(s, st);
    var c, d := StepChanges(s, st);
    ChangeKeeps(c, s.sendQ, s.sendR, t.sendQ, t.sendR);
    ChangeKeeps(d, s.recvQ, s.recvR, t.recvQ, t.recvR);
  }

  lemma {:induction false} RunRings(a: Sched, steps: seq<Step>, b: Sched)
    requires Inv(a) && RingInv(a) && Runs(a, steps, b)
    ensures RingInv(b)
    decreases |steps|
  {
    hide Inv, RingInv, Apply, Enabled;
    if steps != [] {
      StepRings(a, steps[0]);
      StepKeeps(a, steps[0]);
      RunRings(Apply(a, steps[0]), steps[1..], b);
    }
  }

  lemma StartRings(root: Sid)
    ensures RingInv(Start(root))
  {
    hide RingFor, EmptyRing;
    EmptyFor();
  }

  lemma ReachableRings(root: Sid, s: Sched)
    requires Reachable(root, s)
    ensures RingInv(s)
  {
    hide Inv, Runs, RingInv, Start;
    var steps :| Runs(Start(root), steps, s);
    StartInv(root);
    StartRings(root);
    RunRings(Start(root), steps, s);
  }

  // ---- where an operation stands ---------------------------------------------

  /** Where the `p`-th operation of a queue stands decides whether it can be erased by its
      address. */
  lemma ErasableAt(r: Ring, q: seq<OpId>, p: nat) returns (a: nat, b: nat)
    requires RingFor(r, q) && Ascending(q) && p < |q|
    ensures a < |r| && b < |r[a].view| && r[a].view[b] == Some(q[p]) && Rings.Before(r, a, b) == p
    ensures Erasable(r, q[p]) <==> r[a].begin + b < r[a].cap
  {
    hide AllLive, Live;
    a, b := AllLiveIndex(r, p);
    forall k | 0 <= k < |AllLive(r)| && AllLive(r)[k].value == q[p]
      ensures k == p
    {
      assert q[k] == q[p];
    }
    FoundAt(r, p, a, b);
  }

  /** A stop callback can erase an operation that has not started exactly if the logical
      index of its slot is below the capacity of its block. */
  lemma SendErasable(root: Sid, s: Sched, op: OpId) returns (a: nat, b: nat)
    requires Reachable(root, s) && op in s.order
    ensures sOf(s, op) < |s.sendR| == |s.sendQ|
    ensures var r := s.sendR[sOf(s, op)];
            && a < |r| && b < |r[a].view| && r[a].view[b] == Some(op)
            && (CanErase(s.sendR, sOf(s, op), op) <==> r[a].begin + b < r[a].cap)
  {
    hide Inv, Reachable, RingFor, Erasable, Ascending;
    ReachableInv(root, s);
    ReachableRings(root, s);
    SendWhere(s, op);
    var i := sOf(s, op);
    var p :| 0 <= p < |s.sendQ[i]| && s.sendQ[i][p] == op;
    a, b := ErasableAt(s.sendR[i], s.sendQ[i], p);
  }

  lemma RecvErasable(root: Sid, s: Sched, op: OpId) returns (a: nat, b: nat)
    requires Reachable(root, s) && op in Flatten(s.recvQ)
    ensures rOf(s, op) < |s.recvR| == |s.recvQ|
    ensures var r := s.recvR[rOf(s, op)];
            && a < |r| && b < |r[a].view| && r[a].view[b] == Some(op)
            && (CanErase(s.recvR, rOf(s, op), op) <==> r[a].begin + b < r[a].cap)
  {
    hide Inv, Reachable, RingFor, Erasable, Ascending, Flatten;
    ReachableInv(root, s);
    ReachableRings(root, s);
    RecvWhere(s, op);
    var i := rOf(s, op);
    var p :| 0 <= p < |s.recvQ[i]| && s.recvQ[i][p] == op;
    a, b := ErasableAt(s.recvR[i], s.recvQ[i], p);
  }
}
