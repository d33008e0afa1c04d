/** Which operation stands in the last slot of a fork's queue, and so when `flush` can read
    it: exactly while the newest operation ever queued there is still in the queue. */
module Newest {
  import opened Common
  import opened Framing
  import opened Rings
  import opened Scheduler
  import opened Lists
  import opened Invariants
  import opened Shapes
  import opened QueueProofs
  import opened Endpoint
  import opened Blocks

  /** The recvs ever queued on the fork at `i`, and the sends. */
  function RecvsMade(s: Sched, i: nat): set<OpId>
    requires i < |s.forks|
  {
    set op | op in s.rops && s.rops[op].sid == s.forks[i].sid
  }

  function SendsMade(s: Sched, i: nat): set<OpId>
    requires i < |s.forks|
  {
    set op | op in s.sops && s.sops[op].sid == s.forks[i].sid
  }

  /** The last slot of the queue `q` is live exactly if the last of `q` is the newest of the
      operations `made`. */
  ghost predicate BackFor(r: Ring, q: seq<OpId>, made: set<OpId>) {
    && (forall op :: op in q ==> op in made)
    && (q != [] ==> (BackLive(r) <==> forall op :: op in made ==> op <= q[|q| - 1]))
  }

  ghost predicate BacksFor(rs: seq<Ring>, q: seq<seq<OpId>>, made: seq<set<OpId>>) {
    |rs| == |q| == |made| && forall i :: 0 <= i < |rs| ==> BackFor(rs[i], q[i], made[i])
  }

  function AllRecvs(s: Sched): (r: seq<set<OpId>>)
    ensures |r| == |s.forks|
  {
    seq(|s.forks|, i requires 0 <= i < |s.forks| => RecvsMade(s, i))
  }

  function AllSends(s: Sched): (r: seq<set<OpId>>)
    ensures |r| == |s.forks|
  {
    seq(|s.forks|, i requires 0 <= i < |s.forks| => SendsMade(s, i))
  }

  ghost predicate BackInv(s: Sched) {
    BacksFor(s.sendR, s.sendQ, AllSends(s)) && BacksFor(s.recvR, s.recvQ, AllRecvs(s))
  }

  // ---- one queue ------------------------------------------------------------

  lemma PutBack(r: Ring, q: seq<OpId>, made: set<OpId>, op: OpId)
    requires RingFor(r, q) && BackFor(r, q, made) && forall x :: x in made ==> x < op
    ensures BackFor(RingPush(r, op, ()), q + [op], made + {op})
  {
    PushBackLive(r, op, ());
    hide RingPush, BackLive;
    assert (q + [op])[|q|] == op;
  }

  lemma TakeBack(r: Ring, q: seq<OpId>, made: set<OpId>)
    requires RingFor(r, q) && BackFor(r, q, made) && q != []
    ensures BackFor(RingPop(r), q[1..], made)
  {
    hide AllLive, RingPop, BackLive;
    if |q| > 1 {
      PopBack(r);
    }
  }

  lemma WithoutLast(q: seq<OpId>, op: OpId)
    requires Ascending(q) && op in q && |q| > 1
    ensures var w := Without(q, {op});
            && w != []
            && (if op == q[|q| - 1] then w[|w| - 1] < op else w[|w| - 1] == q[|q| - 1])
  {
    var p :| 0 <= p < |q| && q[p] == op;
    RemoveIsWithout(q, p);
    hide Without;
  }

  lemma OutBack(r: Ring, q: seq<OpId>, made: set<OpId>, op: OpId)
    requires RingFor(r, q) && BackFor(r, q, made) && Ascending(q) && op in q
    ensures BackFor(EraseValue(r, op), Without(q, {op}), made)
  {
    hide AllLive, EraseValue, BackLive, Without, Ready;
    WithoutMembers(q, {op});
    if |q| > 1 {
      WithoutLast(q, op);
      Apart(r, q);
      EraseValueBack(r, op);
      assert AllLive(r)[|q| - 1].value == q[|q| - 1];
    } else {
      assert q == [op];
      NoneBut(Without(q, {op}), op);
    }
  }

  lemma NoneBut(s: seq<OpId>, op: OpId)
    requires forall x :: x in s ==> x == op && x != op
    ensures s == []
  {
    Inhabited(s);
  }

  lemma Apart(r: Ring, q: seq<OpId>)
    requires Values(AllLive(r)) == q && Ascending(q)
    ensures forall a, b :: 0 <= a < b < |AllLive(r)| ==> AllLive(r)[a].value != AllLive(r)[b].value
  {
    hide AllLive;
    forall a, b | 0 <= a < b < |AllLive(r)|
      ensures AllLive(r)[a].value != AllLive(r)[b].value
    {
      assert q[a] < q[b];
    }
  }

  // ---- every step -------------------------------------------------------------

  /** New forks may have been added, and an operation if the change puts one in. */
  ghost predicate MadeBy(c: Change, made: seq<set<OpId>>, made': seq<set<OpId>>) {
    && |made| <= |made'|
    && (c.Put? ==> |made'| == |made| && c.i < |made| && forall x :: x in made[c.i] ==> x < c.op)
    && (forall k :: 0 <= k < |made| ==> made'[k] == made[k] + if c.Put? && c.i == k then {c.op} else {})
  }

  lemma ChangeBacks(c: Change, q: seq<seq<OpId>>, rs: seq<Ring>, q': seq<seq<OpId>>, rs': seq<Ring>,
                    made: seq<set<OpId>>, made': seq<set<OpId>>)
    requires RingsFor(rs, q) && BacksFor(rs, q, made) && Changes(c, q, rs, q', rs')
    requires MadeBy(c, made, made') && |made'| == |q'|
    ensures BacksFor(rs', q', made')
  {
    hide RingFor, BackFor, RingPush, RingPop, EraseValue, Drained, Without, Ascending;
    SameBacks(rs, q, made, made', c);
    match c
    case Stay =>
    case Grow => NilBack(EmptyRing(), made'[|q|]);
    case Put(i, op) => PutBack(rs[i], q[i], made[i], op);
    case Take(i) => TakeBack(rs[i], q[i], made[i]);
    case Out(i, op) => OutBack(rs[i], q[i], made[i], op);
    case Empty =>
      forall i | 0 <= i < |rs|
        ensures BackFor(Drained(rs[i]), [], made'[i])
      {
        NilBack(Drained(rs[i]), made'[i]);
      }
  }

  lemma SameBacks(rs: seq<Ring>, q: seq<seq<OpId>>, made: seq<set<OpId>>, made': seq<set<OpId>>, c: Change)
    requires BacksFor(rs, q, made) && MadeBy(c, made, made')
    ensures forall k :: 0 <= k < |rs| && !(c.Put? && c.i == k) ==> made'[k] == made[k] && BackFor(rs[k], q[k], made'[k])
  {
    hide BackFor;
    forall k | 0 <= k < |rs| && !(c.Put? && c.i == k)
      ensures made'[k] == made[k]
    {
      assert made[k] + {} == made[k];
    }
  }

  lemma NilBack(r: Ring, made: set<OpId>)
    ensures BackFor(r, [], made)
  {
    hide BackLive;
  }

  /** The sessions of the forks stay. */
  ghost predicate SameSids(s: Sched, t: Sched) {
    |s.forks| <= |t.forks| && forall i :: 0 <= i < |s.forks| ==> t.forks[i].sid == s.forks[i].sid
  }

  /** So do their local slots, and a new fork has none: the user forks nothing. */
  ghost predicate SameLocals(s: Sched, t: Sched) {
    && SameSids(s, t) && t.nextLocal == s.nextLocal
    && (forall i :: 0 <= i < |s.forks| ==> t.forks[i].localId == s.forks[i].localId)
    && (forall i :: |s.forks| <= i < |t.forks| ==> t.forks[i].localId == NO_SLOT)
  }

  /** No operation and no local fork is made. */
  ghost predicate MakesNone(s: Sched, t: Sched) {
    t.sops == s.sops && t.rops == s.rops && SameLocals(s, t)
  }

  lemma NoneMade(s: Sched, t: Sched, c: Change)
    requires t.sops == s.sops && t.rops == s.rops && SameSids(s, t) && !c.Put?
    ensures MadeBy(c, AllSends(s), AllSends(t)) && MadeBy(c, AllRecvs(s), AllRecvs(t))
  {
  }

  lemma OpsBelow(s: Sched)
    requires Inv(s)
    ensures forall op :: op in s.sops || op in s.rops ==> op < s.nextOp
    ensures |s.sendQ| == |s.recvQ| == |s.forks|
    ensures forall sid :: sid in s.idMap ==> s.idMap[sid] < |s.forks| && s.forks[s.idMap[sid]].sid == sid
    ensures forall i :: 0 <= i < |s.forks| ==> s.forks[i].sid in s.idMap && s.idMap[s.forks[i].sid] == i
  {
    hide ListOf, SendPcOf, RecvQOf, RecvPcOf, TxOf, BodiesOf, WireOf, MetaOf, LedgerOf, RxOf, RxMapOf,
         GivenOf, OnceOf, CountsOf, FlushOf;
  }

  lemma NoneThen(s: Sched, t: Sched, u: Sched)
    requires MakesNone(s, t) && MakesNone(t, u)
    ensures MakesNone(s, u)
  {
  }

  lemma ForkMakes(s: Sched, sid: Sid)
    requires CanFork(s, sid)
    ensures var t := DoFork(s, sid); t.sops == s.sops && t.rops == s.rops && SameSids(s, t)
  {
    hide EmptyRing;
    if sid in s.idMap {
    }
  }

  lemma RefusedSend(s: Sched, sid: Sid, body: Bytes)
    requires CanSend(s, sid, body) && (body == [] || s.ec != Success)
    ensures MakesNone(s, DoSend(s, sid, body))
  {
    hide MakesNone, PushTo;
    if body == [] {
    }
    OnlyMakes(s, DoSend(s, sid, body));
  }

  lemma RefusedRecv(s: Sched, sid: Sid, buffer: Buffer)
    requires IsLocal(s, sid) && s.ec != Success
    ensures MakesNone(s, DoRecv(s, sid, buffer))
  {
    hide MakesNone, QueueRecv, WakeReceiver;
    OnlyMakes(s, DoRecv(s, sid, buffer));
  }

  lemma CancelMakes(s: Sched, op: OpId)
    ensures CanCancelSend(s, op) ==> MakesNone(s, DoCancelSend(s, op))
    ensures CanCancelRecv(s, op) ==> MakesNone(s, DoCancelRecv(s, op))
  {
    hide Finish, Without, EraseFrom, Orphaned, CanErase, sOf, rOf, Flatten;
  }

  lemma BeginMakes(s: Sched)
    requires CanBegin(s)
    ensures MakesNone(s, DoBegin(s))
  {
    hide Header, EncFrame, sOf;
  }

  lemma StopMakes(s: Sched, caller: Caller, e: Code)
    ensures MakesNone(s, DrainSends(Stop(s, caller, e), e)) && MakesNone(s, DrainRecvs(Stop(s, caller, e), e))
  {
    StopOnly(s, caller, e);
    hide Stop, DrainOps, NoQueues, DrainAll, Flatten;
  }

  lemma CompleteSendMakes(s: Sched)
    requires CanNextSend(s)
    ensures MakesNone(s, CompleteSend(s))
  {
    hide Finish, sOf, PopFrom;
  }

  lemma CompleteRecvMakes(s: Sched)
    requires CanAny(s)
    ensures MakesNone(s, CompleteRecv(s))
  {
    hide Finish, rOf, PopFrom;
    if PrevRecv(s.rpc).Some? {
      CompleteRecvOnly(s);
      hide CompleteRecv;
    }
  }

  lemma EndMakes(s: Sched, e: Code)
    ensures MakesNone(s, StopSending(s, e)) && MakesNone(s, StopReading(s, e))
  {
    StopMakes(s, Sender, e);
    StopMakes(s, Recver, e);
    hide Stop, DrainSends, DrainRecvs;
  }

  lemma GoOnMakes(s: Sched)
    ensures MakesNone(s, StartNext(s)) && MakesNone(s, ReadNext(s))
  {
    StartNextOnly(s);
    ReadNextOnly(s);
    hide StartNext, ReadNext;
  }

  lemma NextMakes(s: Sched)
    requires CanNextSend(s)
    ensures MakesNone(s, DoNextSend(s))
  {
    hide MakesNone, CompleteSend, StopSending, StartNext;
    var s1 := CompleteSend(s);
    CompleteSendMakes(s);
    EndMakes(s1, if s.spc.ec == Success then Success else Cancel);
    GoOnMakes(s1);
    NoneThen(s, s1, DoNextSend(s));
  }

  lemma AnyMakes(s: Sched)
    requires CanAny(s)
    ensures MakesNone(s, DoAny(s))
  {
    hide MakesNone, CompleteRecv, StopReading, ReadNext, CanAny;
    var s1 := CompleteRecv(s);
    CompleteRecvMakes(s);
    EndMakes(s1, CarriedError(s.rpc));
    GoOnMakes(s1);
    NoneThen(s, s1, DoAny(s));
  }

  lemma AskMakes(s: Sched)
    requires s.rpc.RAsk?
    ensures MakesNone(s, DoAsk(s))
  {
    hide Stop, DrainRecvs, MatchHeader;
    StopMakes(s, Recver, BadCoprotoMessageHeader);
    MatchOnly(s, s.rpc.size, s.rpc.slot);
    MatchOnly(DrainRecvs(Stop(s, Recver, BadCoprotoMessageHeader), BadCoprotoMessageHeader), s.rpc.size, s.rpc.slot);
  }

  lemma RemoteMakes(s: Sched, sid: Sid)
    ensures MakesNone(s, RemoteFork(s, sid)) && sid in RemoteFork(s, sid).idMap
  {
    hide EmptyRing;
  }

  lemma BindMakes(s: Sched, slot: nat, sid: Sid)
    requires sid in s.idMap
    ensures MakesNone(s, BindSlot(s, slot, sid))
  {
    BindOnly(s, slot, sid);
    BindSids(s, slot, sid);
    hide BindSlot;
  }

  lemma BindSids(s: Sched, slot: nat, sid: Sid)
    requires sid in s.idMap
    ensures SameLocals(s, BindSlot(s, slot, sid))
  {
    var i := s.idMap[sid];
    if i >= |s.forks| {
    } else if s.forks[i].remoteId != NO_SLOT {
    } else if slot in s.remoteMap {
    }
  }

  lemma InitMakes(s: Sched)
    requires s.rpc.RInit?
    ensures MakesNone(s, DoInit(s))
  {
    RemoteMakes(s, s.rpc.sid);
    hide RemoteFork, BindSlot;
    if s.rpc.slot != NO_SLOT {
      BindMakes(RemoteFork(s, s.rpc.sid), s.rpc.slot, s.rpc.sid);
    }
  }

  lemma StepMakesNone(s: Sched, st: Step)
    requires Enabled(s, st) && !AcceptsSend(s, st) && !AcceptsRecv(s, st) && !st.UFork?
    ensures MakesNone(s, Apply(s, st))
  {
    hide MakesNone, DoFork, DoSend, DoRecv, DoCancelSend, DoCancelRecv, DoFlush, DoClose, DoBegin, DoSendBytes,
         DoSendEnd, DoNextSend, DoRecvBytes, DoRecvEnd, DoInit, DoAsk, DoFill, DoAny;
    match st
    case USend(sid, body) => RefusedSend(s, sid, body);
    case URecv(sid, buffer) => RefusedRecv(s, sid, buffer);
    case UCancelSend(op) => CancelMakes(s, op);
    case UCancelRecv(op) => CancelMakes(s, op);
    case UFlush =>
      FlushOnly(s);
      OnlyMakes(s, DoFlush(s));
    case UClose =>
      CloseOnly(s);
      OnlyMakes(s, DoClose(s));
    case TBegin => BeginMakes(s);
    case TSendBytes(n) =>
      SendBytesOnly(s, n);
      OnlyMakes(s, DoSendBytes(s, n));
    case TSendEnd(e) =>
      SendEndOnly(s, e);
      OnlyMakes(s, DoSendEnd(s, e));
    case TNextSend => NextMakes(s);
    case TRecvBytes(chunk) =>
      RecvBytesOnly(s, chunk);
      OnlyMakes(s, DoRecvBytes(s, chunk));
    case TRecvEnd(e) =>
      RecvEndOnly(s, e);
      OnlyMakes(s, DoRecvEnd(s, e));
    case TInit => InitMakes(s);
    case TAsk => AskMakes(s);
    case TFill =>
      FillOnly(s);
      OnlyMakes(s, DoFill(s));
    case TAny => AnyMakes(s);
  }

  lemma OnlyMakes(s: Sched, t: Sched)
    requires t.sops == s.sops && t.rops == s.rops && t.forks == s.forks && t.nextLocal == s.nextLocal
    ensures MakesNone(s, t)
  {
  }

  // ---- a call is queued ---------------------------------------------------------

  lemma SendMade(s: Sched, sid: Sid, body: Bytes)
    requires Inv(s) && CanSend(s, sid, body) && body != [] && s.ec == Success
    ensures var t := DoSend(s, sid, body);
            && MadeBy(Put(s.idMap[sid], s.nextOp), AllSends(s), AllSends(t))
            && AllRecvs(t) == AllRecvs(s)
  {
    hide Inv, DoSend;
    OpsBelow(s);
    SendShape(s, sid, body);
    PutSend(s, DoSend(s, sid, body), SendOp(sid, body));
  }

  lemma SendShape(s: Sched, sid: Sid, body: Bytes)
    requires CanSend(s, sid, body) && body != [] && s.ec == Success
    ensures var t := DoSend(s, sid, body);
            && t.sops == s.sops[s.nextOp := SendOp(sid, body)] && t.forks == s.forks && t.rops == s.rops
            && t.nextLocal == s.nextLocal
  {
    hide PushTo;
    if s.spc.SIdle? {
    }
  }

  lemma PutSend(s: Sched, t: Sched, r: SendOp)
    requires t.sops == s.sops[s.nextOp := r] && t.forks == s.forks
    requires forall op :: op in s.sops ==> op < s.nextOp
    requires r.sid in s.idMap && s.idMap[r.sid] < |s.forks| && s.forks[s.idMap[r.sid]].sid == r.sid
    requires forall i :: 0 <= i < |s.forks| ==> s.forks[i].sid in s.idMap && s.idMap[s.forks[i].sid] == i
    ensures MadeBy(Put(s.idMap[r.sid], s.nextOp), AllSends(s), AllSends(t))
  {
    forall k | 0 <= k < |s.forks|
      ensures SendsMade(t, k) == SendsMade(s, k) + if s.idMap[r.sid] == k then {s.nextOp} else {}
    {
    }
  }

  lemma RecvMade(s: Sched, sid: Sid, buffer: Buffer)
    requires Inv(s) && IsLocal(s, sid) && s.ec == Success
    ensures var t := DoRecv(s, sid, buffer);
            && MadeBy(Put(s.idMap[sid], s.nextOp), AllRecvs(s), AllRecvs(t))
            && AllSends(t) == AllSends(s)
  {
    hide Inv, DoRecv;
    OpsBelow(s);
    RecvShape(s, sid, buffer);
    PutRecv(s, DoRecv(s, sid, buffer), RecvOp(sid, buffer));
  }

  lemma RecvShape(s: Sched, sid: Sid, buffer: Buffer)
    requires IsLocal(s, sid) && s.ec == Success
    ensures var t := DoRecv(s, sid, buffer);
            && t.rops == s.rops[s.nextOp := RecvOp(sid, buffer)] && t.forks == s.forks && t.sops == s.sops
            && t.nextLocal == s.nextLocal
  {
    hide PushTo, DoRecv, WakeReceiver;
    RecvOnly(s, sid, buffer);
  }

  lemma PutRecv(s: Sched, t: Sched, r: RecvOp)
    requires t.rops == s.rops[s.nextOp := r] && t.forks == s.forks
    requires forall op :: op in s.rops ==> op < s.nextOp
    requires r.sid in s.idMap && s.idMap[r.sid] < |s.forks| && s.forks[s.idMap[r.sid]].sid == r.sid
    requires forall i :: 0 <= i < |s.forks| ==> s.forks[i].sid in s.idMap && s.idMap[s.forks[i].sid] == i
    ensures MadeBy(Put(s.idMap[r.sid], s.nextOp), AllRecvs(s), AllRecvs(t))
  {
    forall k | 0 <= k < |s.forks|
      ensures RecvsMade(t, k) == RecvsMade(s, k) + if s.idMap[r.sid] == k then {s.nextOp} else {}
    {
    }
  }

  lemma SameMade(made: seq<set<OpId>>)
    ensures MadeBy(Stay, made, made)
  {
    assert forall k :: 0 <= k < |made| ==> made[k] + {} == made[k];
  }

  lemma NoneStep(s: Sched, st: Step)
    requires Enabled(s, st) && !AcceptsSend(s, st) && !AcceptsRecv(s, st)
    ensures var t := Apply(s, st); t.sops == s.sops && t.rops == s.rops && SameSids(s, t)
  {
    hide SameSids, DoFork, CanFork;
    if st.UFork? {
      ForkMakes(s, st.sid);
    } else {
      hide Apply, Enabled;
      StepMakesNone(s, st);
    }
  }

  /** Only a fork by the user makes a fork local. */
  lemma StepLocals(s: Sched, st: Step)
    requires Inv(s) && Enabled(s, st) && !st.UFork?
    ensures SameLocals(s, Apply(s, st))
  {
    hide Inv, DoSend, DoRecv;
    if AcceptsSend(s, st) {
      SendShape(s, st.sid, st.body);
    } else if AcceptsRecv(s, st) {
      RecvShape(s, st.sid, st.buffer);
    } else {
      hide Apply, Enabled;
      StepMakesNone(s, st);
    }
  }

  lemma StepMade(s: Sched, st: Step, c: Change, d: Change)
    requires Inv(s) && Enabled(s, st)
    requires (c.Put? <==> AcceptsSend(s, st)) && (c.Put? ==> c == Put(s.idMap[st.sid], s.nextOp))
    requires (d.Put? <==> AcceptsRecv(s, st)) && (d.Put? ==> d == Put(s.idMap[st.sid], s.nextOp))
    ensures MadeBy(c, AllSends(s), AllSends(Apply(s, st))) && MadeBy(d, AllRecvs(s), AllRecvs(Apply(s, st)))
  {
    hide Inv, MakesNone, AllSends, AllRecvs, DoSend, DoRecv;
    if AcceptsSend(s, st) {
      SendMade(s, st.sid, st.body);
      SameMade(AllRecvs(s));
    } else if AcceptsRecv(s, st) {
      RecvMade(s, st.sid, st.buffer);
      SameMade(AllSends(s));
    } else {
      NoneStep(s, st);
      hide Apply, Enabled;
      NoneMade(s, Apply(s, st), c);
      NoneMade(s, Apply(s, st), d);
    }
  }

  // ---- runs -----------------------------------------------------------------------

  lemma StepBacks(s: Sched, st: Step)
    requires Inv(s) && RingInv(s) && BackInv(s) && Enabled(s, st)
    ensures BackInv(Apply(s, st))
  {
    hide Inv, Apply, Enabled, Changes, RingsFor, BacksFor, MadeBy, AllSends, AllRecvs, AcceptsSend, AcceptsRecv;
    var t := Apply(s, st);
    var c, d := StepChanges(s, st);
    StepMade(s, st, c, d);
    StepKeeps(s, st);
    OpsBelow(t);
    ChangeBacks(c, s.sendQ, s.sendR, t.sendQ, t.sendR, AllSends(s), AllSends(t));
    ChangeBacks(d, s.recvQ, s.recvR, t.recvQ, t.recvR, AllRecvs(s), AllRecvs(t));
  }

  lemma {:induction false} RunBacks(a: Sched, steps: seq<Step>, b: Sched)
    requires Inv(a) && RingInv(a) && BackInv(a) && Runs(a, steps, b)
    ensures BackInv(b)
    decreases |steps|
  {
    hide Inv, RingInv, BackInv, Apply, Enabled;
    if steps != [] {
      StepBacks(a, steps[0]);
      StepRings(a, steps[0]);
      StepKeeps(a, steps[0]);
      RunBacks(Apply(a, steps[0]), steps[1..], b);
    }
  }

  lemma StartBacks(root: Sid)
    ensures BackInv(Start(root))
  {
    hide BackLive;
  }

  lemma ReachableBacks(root: Sid, s: Sched)
    requires Reachable(root, s)
    ensures BackInv(s)
  {
    hide Inv, Runs, RingInv, BackInv, Start;
    var steps :| Runs(Start(root), steps, s);
    StartInv(root);
    StartRings(root);
    StartBacks(root);
    RunBacks(Start(root), steps, s);
  }

  // ---- when flush can read a queue ---------------------------------------------------

  /** The newest recv ever queued on the session of fork `i` is in its queue, at the end. */
  ghost predicate NewestRecvLast(s: Sched, i: nat)
    requires i < |s.forks| == |s.recvQ| && s.recvQ[i] != []
  {
    forall op :: op in s.rops && s.rops[op].sid == s.forks[i].sid ==> op <= s.recvQ[i][|s.recvQ[i]| - 1]
  }

  ghost predicate NewestSendLast(s: Sched, i: nat)
    requires i < |s.forks| == |s.sendQ| && s.sendQ[i] != []
  {
    forall op :: op in s.sops && s.sops[op].sid == s.forks[i].sid ==> op <= s.sendQ[i][|s.sendQ[i]| - 1]
  }

  /** `flush` reads the last slot of the queue of a fork that has recvs pending: it is live
      exactly if the newest recv ever queued there is among them. */
  lemma RecvBack(root: Sid, s: Sched, i: nat)
    requires Reachable(root, s) && i < |s.recvQ| && s.recvQ[i] != []
    ensures i < |s.forks| == |s.recvQ| == |s.recvR|
    ensures BackLive(s.recvR[i]) <==> NewestRecvLast(s, i)
  {
    hide Inv, Reachable, BackLive;
    ReachableInv(root, s);
    ReachableBacks(root, s);
    OpsBelow(s);
    assert BackFor(s.recvR[i], s.recvQ[i], AllRecvs(s)[i]);
    assert forall op :: op in RecvsMade(s, i) <==> op in s.rops && s.rops[op].sid == s.forks[i].sid;
  }

  lemma SendBack(root: Sid, s: Sched, i: nat)
    requires Reachable(root, s) && i < |s.sendQ| && s.sendQ[i] != []
    ensures i < |s.forks| == |s.sendQ| == |s.sendR|
    ensures BackLive(s.sendR[i]) <==> NewestSendLast(s, i)
  {
    hide Inv, Reachable, BackLive;
    ReachableInv(root, s);
    ReachableBacks(root, s);
    OpsBelow(s);
    assert BackFor(s.sendR[i], s.sendQ[i], AllSends(s)[i]);
    assert forall op :: op in SendsMade(s, i) <==> op in s.sops && s.sops[op].sid == s.forks[i].sid;
  }

  /** A flush can be called in a reachable state exactly if, on every fork and in both
      directions, the newest operation queued is pending or none is. */
  lemma FlushPossible(root: Sid, s: Sched)
    requires Reachable(root, s)
    ensures |s.forks| == |s.recvQ| == |s.sendQ|
    ensures CanFlush(s) <==>
              && (forall i :: 0 <= i < |s.recvQ| && s.recvQ[i] != [] ==> NewestRecvLast(s, i))
              && (forall i :: 0 <= i < |s.sendQ| && s.sendQ[i] != [] ==> NewestSendLast(s, i))
  {
    hide Inv, Reachable, BackLive, NewestRecvLast, NewestSendLast;
    ReachableInv(root, s);
    ReachableRings(root, s);
    OpsBelow(s);
    forall i | 0 <= i < |s.recvQ| && s.recvQ[i] != []
      ensures BackLive(s.recvR[i]) <==> NewestRecvLast(s, i)
    {
      RecvBack(root, s, i);
    }
    forall i | 0 <= i < |s.sendQ| && s.sendQ[i] != []
      ensures BackLive(s.sendR[i]) <==> NewestSendLast(s, i)
    {
      SendBack(root, s, i);
    }
  }
}
