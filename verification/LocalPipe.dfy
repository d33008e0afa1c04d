/** The in-process socket pair: sends and recvs of the two ends meet in one shared
    state, are matched byte for byte, cancelled one by one, or completed by close. */
module LocalPipe {
  import opened Common
  import opened Transfers

  /** OpPair: the pending send and recv of one direction. */
  datatype OpPair = OpPair(send: Option<nat>, recv: Option<nat>)

  /** SharedState, every operation started so far in order, and the log of the
      operations whose coroutine has been resumed. */
  datatype Pipe = Pipe(ops: seq<Io>, ec: seq<Code>, inbound: seq<OpPair>, resumed: seq<nat>)

  predicate TwoEnds(p: Pipe) {
    |p.ec| == 2 && |p.inbound| == 2
  }

  function Empty(): Pipe {
    Pipe([], [Success, Success], [OpPair(None, None), OpPair(None, None)], [])
  }

  function Pending(p: OpPair, kind: Kind): Option<nat> {
    if kind == Sending then p.send else p.recv
  }

  function SetPending(p: OpPair, kind: Kind, id: Option<nat>): OpPair {
    if kind == Sending then p.(send := id) else p.(recv := id)
  }

  // ---- steps --------------------------------------------------------------

  /** The bytes that pass when a send meets a recv. */
  function Passed(send: Io, recv: Io): (b: Bytes)
    ensures |b| <= |send.rest| && |b| <= |recv.rest|
  {
    send.rest[..if |send.rest| <= |recv.rest| then |send.rest| else |recv.rest|]
  }

  /** The match in await_suspend of operation `own`, on the direction to end `d`. */
  function Match(p: Pipe, d: End, own: nat): Pipe
    requires TwoEnds(p)
    requires p.inbound[d].send.Some? ==> p.inbound[d].send.value < |p.ops|
    requires p.inbound[d].recv.Some? ==> p.inbound[d].recv.value < |p.ops|
  {
    match (p.inbound[d].send, p.inbound[d].recv)
    case (Some(s), Some(r)) =>
      var bytes := Passed(p.ops[s], p.ops[r]);
      var send := Advance(p.ops[s], bytes);
      var recv := Advance(p.ops[r], if |bytes| <= |p.ops[r].rest| then bytes else []);
      var other := if own == s then r else s;
      p.(ops := p.ops[s := send][r := recv],
         inbound := p.inbound[d := OpPair(if send.rest == [] then None else Some(s),
                                          if recv.rest == [] then None else Some(r))],
         resumed := p.resumed
                    + (if send.rest == [] && recv.rest == [] then [other, own]
                       else if recv.rest == [] then [r] else [s]))
    case _ => p
  }

  /** What the source asserts of callers: a nonempty span, and no operation of the
      same kind pending at this end. */
  predicate CanStart(p: Pipe, end: End, kind: Kind, data: Bytes) {
    TwoEnds(p) && data != [] && Pending(p.inbound[Dest(end, kind)], kind) == None
    && (p.inbound[Dest(end, kind)].send.Some? ==> p.inbound[Dest(end, kind)].send.value < |p.ops|)
    && (p.inbound[Dest(end, kind)].recv.Some? ==> p.inbound[Dest(end, kind)].recv.value < |p.ops|)
  }

  /** The error an end has when an operation starts: an injected one is kept. */
  function StartCode(p: Pipe, end: End, inject: Code): Code
    requires TwoEnds(p)
  {
    if p.ec[end] == Success then inject else p.ec[end]
  }

  /** The new operation takes its slot. */
  function Park(p: Pipe, end: End, kind: Kind, data: Bytes): Pipe
    requires TwoEnds(p)
  {
    var d := Dest(end, kind);
    p.(ops := p.ops + [Io(end, kind, [], data, None)],
       inbound := p.inbound[d := SetPending(p.inbound[d], kind, Some(|p.ops|))])
  }

  /** await_suspend. `stopped`: the stop token had already fired; `inject`: what the
      error injector returns, if it is asked. */
  function DoStart(p: Pipe, end: End, kind: Kind, data: Bytes, stopped: bool, inject: Code): Pipe
    requires CanStart(p, end, kind, data)
  {
    var id := |p.ops|;
    if stopped then
      p.(ops := p.ops + [Io(end, kind, [], data, Some(OperationAborted))], resumed := p.resumed + [id])
    else
      var e := StartCode(p, end, inject);
      if e != Success then
        p.(ops := p.ops + [Io(end, kind, [], data, Some(e))], ec := p.ec[end := e], resumed := p.resumed + [id])
      else
        var d := Dest(end, kind);
        Match(Park(p, end, kind, data), d, id)
  }

  /** A pending operation leaves its slot and completes with the error `e`. */
  function Fail(p: Pipe, d: End, kind: Kind, id: nat, e: Code): Pipe
    requires TwoEnds(p) && id < |p.ops|
  {
    p.(ops := p.ops[id := p.ops[id].(ec := Some(e))],
       inbound := p.inbound[d := SetPending(p.inbound[d], kind, None)],
       resumed := p.resumed + [id])
  }

  /** The stop callback of an operation: nothing if it has completed. */
  function DoCancel(p: Pipe, id: nat): Pipe
    requires TwoEnds(p) && id < |p.ops|
  {
    var op := p.ops[id];
    if op.ec.Some? then p else Fail(p, Dest(op.end, op.kind), op.kind, id, OperationAborted)
  }

  /** One of the four blocks of close. */
  function CloseOne(p: Pipe, d: End, kind: Kind, e: Code): Pipe
    requires TwoEnds(p)
  {
    var id := Pending(p.inbound[d], kind);
    if id.Some? && id.value < |p.ops| then Fail(p, d, kind, id.value, e) else p
  }

  function CloseCodes(p: Pipe, end: End): Pipe
    requires TwoEnds(p)
  {
    p.(ec := seq(2, i requires 0 <= i < 2 =>
                 if p.ec[i] != Success then p.ec[i] else if i == end then Closed else RemoteClosed))
  }

  function DoClose(p: Pipe, end: End): Pipe
    requires TwoEnds(p)
  {
    var p1 := CloseOne(CloseCodes(p, end), end, Receiving, Closed);
    var p2 := CloseOne(p1, end, Sending, RemoteClosed);
    var p3 := CloseOne(p2, 1 - end, Receiving, RemoteClosed);
    CloseOne(p3, 1 - end, Sending, Closed)
  }

  // ---- invariant ------------------------------------------------------------

  /** `id` is the pending operation of its end and kind, and the last one started. */
  ghost predicate PendingAt(ops: seq<Io>, d: End, kind: Kind, id: nat) {
    && id < |ops| && ops[id].kind == kind && Dest(ops[id].end, kind) == d
    && ops[id].ec == None && ops[id].rest != []
    && forall j :: id < j < |ops| ==> ops[j].kind != kind || ops[j].end != ops[id].end
  }

  ghost predicate PairOf(ops: seq<Io>, d: End, pair: OpPair) {
    && (pair.send.Some? ==> PendingAt(ops, d, Sending, pair.send.value))
    && (pair.recv.Some? ==> PendingAt(ops, d, Receiving, pair.recv.value))
  }

  ghost predicate OpsOf(ops: seq<Io>, inbound: seq<OpPair>)
    requires |inbound| == 2
  {
    forall id :: 0 <= id < |ops| ==>
      && (ops[id].ec == None ==> Pending(inbound[Dest(ops[id].end, ops[id].kind)], ops[id].kind) == Some(id))
      && (ops[id].ec == Some(Success) <==> ops[id].rest == [])
  }

  /** A faithful byte pipe: what was taken from the senders is what the receivers got. */
  ghost predicate FlowTo(ops: seq<Io>, d: End) {
    Flow(ops, 1 - d, Sending) == Flow(ops, d, Receiving)
  }

  ghost predicate FlowsOf(ops: seq<Io>) {
    forall d: End :: FlowTo(ops, d)
  }

  ghost predicate Sound(p: Pipe) {
    && TwoEnds(p)
    && (forall d: End :: PairOf(p.ops, d, p.inbound[d]))
    && OpsOf(p.ops, p.inbound)
    && ResumedOf(p.ops, p.resumed)
    && FlowsOf(p.ops)
  }

  /** No direction holds both a pending send and a pending recv. */
  ghost predicate Apart(p: Pipe)
    requires TwoEnds(p)
  {
    forall d: End :: p.inbound[d].send == None || p.inbound[d].recv == None
  }

  ghost predicate Inv(p: Pipe) {
    Sound(p) && Apart(p)
  }

  // ---- every step keeps the invariant -----------------------------------------

  lemma FailOps(ops: seq<Io>, inbound: seq<OpPair>, d: End, kind: Kind, id: nat, e: Code)
    requires |inbound| == 2 && OpsOf(ops, inbound) && e != Success && id < |ops|
    requires forall c: End :: PairOf(ops, c, inbound[c])
    requires Pending(inbound[d], kind) == Some(id)
    ensures var ops' := ops[id := ops[id].(ec := Some(e))];
            var inbound' := inbound[d := SetPending(inbound[d], kind, None)];
            OpsOf(ops', inbound') && forall c: End :: PairOf(ops', c, inbound'[c])
  {
    assert PairOf(ops, d, inbound[d]);
  }

  lemma FailFlows(ops: seq<Io>, id: nat, e: Code)
    requires FlowsOf(ops) && id < |ops|
    ensures FlowsOf(ops[id := ops[id].(ec := Some(e))])
  {
    var ops' := ops[id := ops[id].(ec := Some(e))];
    forall d: End
      ensures FlowTo(ops', d)
    {
      assert FlowTo(ops, d);
      FlowSame(ops, id, ops[id].(ec := Some(e)), 1 - d, Sending);
      FlowSame(ops, id, ops[id].(ec := Some(e)), d, Receiving);
    }
  }

  lemma FailKeeps(p: Pipe, d: End, kind: Kind, id: nat, e: Code)
    requires Inv(p) && Pending(p.inbound[d], kind) == Some(id) && e != Success
    ensures id < |p.ops| && Inv(Fail(p, d, kind, id, e))
  {
    assert PairOf(p.ops, d, p.inbound[d]);
    FailOps(p.ops, p.inbound, d, kind, id, e);
    FailFlows(p.ops, id, e);
    hide OpsOf, PairOf, FlowsOf;
  }

  lemma CancelKeeps(p: Pipe, id: nat)
    requires Inv(p) && id < |p.ops|
    ensures Inv(DoCancel(p, id))
  {
    var op := p.ops[id];
    if op.ec == None {
      FailKeeps(p, Dest(op.end, op.kind), op.kind, id, OperationAborted);
    }
  }

  lemma CloseOneKeeps(p: Pipe, d: End, kind: Kind, e: Code)
    requires Inv(p) && e != Success
    ensures TwoEnds(p) && Inv(CloseOne(p, d, kind, e)) && TwoEnds(CloseOne(p, d, kind, e))
    ensures CloseOne(p, d, kind, e).ec == p.ec
    ensures Pending(CloseOne(p, d, kind, e).inbound[d], kind) == None
    ensures forall c: End, k: Kind :: (c, k) != (d, kind) ==>
              Pending(CloseOne(p, d, kind, e).inbound[c], k) == Pending(p.inbound[c], k)
  {
    assert PairOf(p.ops, d, p.inbound[d]);
    var id := Pending(p.inbound[d], kind);
    if id.Some? {
      FailKeeps(p, d, kind, id.value, e);
    }
    hide Inv;
  }

  lemma CodesKeep(p: Pipe, end: End)
    requires Inv(p)
    ensures TwoEnds(p) && Inv(CloseCodes(p, end))
    ensures forall c: End :: CloseCodes(p, end).ec[c] != Success
  {
  }

  /** close: no operation is pending and both ends have an error. */
  lemma CloseKeeps(p: Pipe, end: End)
    requires Inv(p)
    ensures Inv(DoClose(p, end)) && Shut(DoClose(p, end))
  {
    hide Inv, CloseOne;
    CodesKeep(p, end);
    var p0 := CloseCodes(p, end);
    CloseOneKeeps(p0, end, Receiving, Closed);
    var p1 := CloseOne(p0, end, Receiving, Closed);
    CloseOneKeeps(p1, end, Sending, RemoteClosed);
    var p2 := CloseOne(p1, end, Sending, RemoteClosed);
    CloseOneKeeps(p2, 1 - end, Receiving, RemoteClosed);
    var p3 := CloseOne(p2, 1 - end, Receiving, RemoteClosed);
    CloseOneKeeps(p3, 1 - end, Sending, Closed);
  }

  ghost predicate Shut(p: Pipe) {
    && TwoEnds(p)
    && (forall end: End :: p.ec[end] != Success)
    && (forall d: End :: p.inbound[d] == OpPair(None, None))
  }

  /** An operation that is refused: it is resumed at once, nothing else changes. */
  lemma RefuseKeeps(p: Pipe, end: End, kind: Kind, data: Bytes, e: Code)
    requires Inv(p) && CanStart(p, end, kind, data) && e != Success
    ensures Inv(p.(ops := p.ops + [Io(end, kind, [], data, Some(e))], resumed := p.resumed + [|p.ops|]))
  {
    var op := Io(end, kind, [], data, Some(e));
    var ops := p.ops + [op];
    forall d: End
      ensures PairOf(ops, d, p.inbound[d])
    {
      assert PairOf(p.ops, d, p.inbound[d]);
    }
    FlowsRefused(p.ops, op);
    hide PairOf, FlowsOf;
  }

  lemma FlowsRefused(ops: seq<Io>, op: Io)
    requires FlowsOf(ops) && op.moved == []
    ensures FlowsOf(ops + [op])
  {
    forall d: End
      ensures FlowTo(ops + [op], d)
    {
      assert FlowTo(ops, d);
      FlowSnoc(ops, op, 1 - d, Sending);
      FlowSnoc(ops, op, d, Receiving);
    }
  }

  lemma ParkKeeps(p: Pipe, end: End, kind: Kind, data: Bytes)
    requires Inv(p) && CanStart(p, end, kind, data)
    ensures Sound(Park(p, end, kind, data))
  {
    var op := Io(end, kind, [], data, None);
    var q := Park(p, end, kind, data);
    forall d: End
      ensures PairOf(q.ops, d, q.inbound[d])
    {
      assert PairOf(p.ops, d, p.inbound[d]);
    }
    FlowsRefused(p.ops, op);
    hide PairOf, FlowsOf;
  }

  /** The match on the one direction where a send and a recv meet. */
  lemma MatchKeeps(p: Pipe, d: End, own: nat)
    requires Sound(p)
    requires forall c: End :: c != d ==> p.inbound[c].send == None || p.inbound[c].recv == None
    requires p.inbound[d].send.Some? && p.inbound[d].recv.Some?
    requires own == p.inbound[d].send.value || own == p.inbound[d].recv.value
    ensures PairOf(p.ops, d, p.inbound[d]) && Inv(Match(p, d, own))
  {
    assert PairOf(p.ops, d, p.inbound[d]);
    hide PairOf, FlowsOf, OpsOf, ResumedOf;
    MatchPairs(p, d, own);
    MatchResumed(p, d, own);
    MatchFlows(p, d, own);
    MatchApart(p, d, own);
    hide Match;
  }

  /** One of the two spans is used up. */
  lemma MatchApart(p: Pipe, d: End, own: nat)
    requires TwoEnds(p) && PairOf(p.ops, d, p.inbound[d])
    requires forall c: End :: c != d ==> p.inbound[c].send == None || p.inbound[c].recv == None
    requires p.inbound[d].send.Some? && p.inbound[d].recv.Some?
    ensures TwoEnds(Match(p, d, own)) && Apart(Match(p, d, own))
  {
    var s, r := p.inbound[d].send.value, p.inbound[d].recv.value;
    var bytes := Passed(p.ops[s], p.ops[r]);
    assert Advance(p.ops[s], bytes).rest == [] || Advance(p.ops[r], bytes).rest == [];
    hide Passed, Advance;
  }

  lemma MatchNone(p: Pipe, d: End, own: nat)
    requires TwoEnds(p) && (p.inbound[d].send == None || p.inbound[d].recv == None)
    requires p.inbound[d].send.Some? ==> p.inbound[d].send.value < |p.ops|
    requires p.inbound[d].recv.Some? ==> p.inbound[d].recv.value < |p.ops|
    ensures Match(p, d, own) == p
  {
  }

  lemma MatchPairs(p: Pipe, d: End, own: nat)
    requires TwoEnds(p) && OpsOf(p.ops, p.inbound) && forall c: End :: PairOf(p.ops, c, p.inbound[c])
    requires p.inbound[d].send.Some? && p.inbound[d].recv.Some?
    ensures PairOf(p.ops, d, p.inbound[d])
    ensures var q := Match(p, d, own);
            OpsOf(q.ops, q.inbound) && forall c: End :: PairOf(q.ops, c, q.inbound[c])
  {
    assert PairOf(p.ops, d, p.inbound[d]);
    var q := Match(p, d, own);
    forall c: End
      ensures PairOf(q.ops, c, q.inbound[c])
    {
      assert PairOf(p.ops, c, p.inbound[c]);
    }
  }

  lemma MatchResumed(p: Pipe, d: End, own: nat)
    requires TwoEnds(p) && PairOf(p.ops, d, p.inbound[d]) && ResumedOf(p.ops, p.resumed)
    requires p.inbound[d].send.Some? && p.inbound[d].recv.Some?
    requires own == p.inbound[d].send.value || own == p.inbound[d].recv.value
    ensures ResumedOf(Match(p, d, own).ops, Match(p, d, own).resumed)
  {
    hide Passed;
    var s, r := p.inbound[d].send.value, p.inbound[d].recv.value;
    assert s != r && p.ops[s].ec == None && p.ops[r].ec == None;
    PassedAll(p.ops[s], p.ops[r]);
  }

  lemma PassedAll(send: Io, recv: Io)
    ensures send.rest[|Passed(send, recv)|..] == [] || recv.rest[|Passed(send, recv)|..] == []
  {
  }

  lemma MatchFlows(p: Pipe, d: End, own: nat)
    requires TwoEnds(p) && PairOf(p.ops, d, p.inbound[d]) && FlowsOf(p.ops)
    requires p.inbound[d].send.Some? && p.inbound[d].recv.Some?
    ensures FlowsOf(Match(p, d, own).ops)
  {
    var s, r := p.inbound[d].send.value, p.inbound[d].recv.value;
    var bytes := Passed(p.ops[s], p.ops[r]);
    var send, recv := Advance(p.ops[s], bytes), Advance(p.ops[r], bytes);
    var ops := p.ops[s := send];
    forall end: End, kind: Kind
      ensures Flow(ops[r := recv], end, kind)
              == Flow(p.ops, end, kind) + if Dest(end, kind) == d then bytes else []
    {
      FlowAdvance(p.ops, s, send, bytes, end, kind);
      FlowAdvance(ops, r, recv, bytes, end, kind);
    }
    hide Flow;
    var ops' := ops[r := recv];
    forall c: End
      ensures FlowTo(ops', c)
    {
      assert FlowTo(p.ops, c);
    }
  }

  lemma StartKeeps(p: Pipe, end: End, kind: Kind, data: Bytes, stopped: bool, inject: Code)
    requires Inv(p) && CanStart(p, end, kind, data)
    ensures Inv(DoStart(p, end, kind, data, stopped, inject))
  {
    var e := StartCode(p, end, inject);
    var q := p.(ec := p.ec[end := e]);
    if stopped {
      RefuseKeeps(p, end, kind, data, OperationAborted);
    } else if e != Success {
      RefuseKeeps(q, end, kind, data, e);
    } else {
      ParkKeeps(p, end, kind, data);
      var d := Dest(end, kind);
      var parked := Park(p, end, kind, data);
      if parked.inbound[d].send.Some? && parked.inbound[d].recv.Some? {
        MatchKeeps(parked, d, |p.ops|);
      }
    }
    hide Sound;
  }

  // ---- runs ---------------------------------------------------------------------

  datatype Step =
    | Start(end: End, kind: Kind, data: Bytes, stopped: bool, inject: Code)
    | Stop(id: nat)
    | Close(end: End)

  predicate Enabled(p: Pipe, st: Step) {
    TwoEnds(p)
    && match st
       case Start(end, kind, data, _, _) => CanStart(p, end, kind, data)
       case Stop(id) => id < |p.ops|
       case Close(_) => true
  }

  function Apply(p: Pipe, st: Step): Pipe
    requires Enabled(p, st)
  {
    match st
    case Start(end, kind, data, stopped, inject) => DoStart(p, end, kind, data, stopped, inject)
    case Stop(id) => DoCancel(p, id)
    case Close(end) => DoClose(p, end)
  }

  ghost predicate Runs(p: Pipe, steps: seq<Step>, q: Pipe)
    decreases |steps|
  {
    if steps == [] then p == q
    else Enabled(p, steps[0]) && Runs(Apply(p, steps[0]), steps[1..], q)
  }

  lemma StepKeeps(p: Pipe, st: Step)
    requires Inv(p) && Enabled(p, st)
    ensures Inv(Apply(p, st))
  {
    hide Inv, DoStart, DoCancel, DoClose;
    match st
    case Start(end, kind, data, stopped, inject) => StartKeeps(p, end, kind, data, stopped, inject);
    case Stop(id) => CancelKeeps(p, id);
    case Close(end) => CloseKeeps(p, end);
  }

  lemma {:induction false} RunKeeps(p: Pipe, steps: seq<Step>, q: Pipe)
    requires Inv(p) && Runs(p, steps, q)
    ensures Inv(q)
    decreases |steps|
  {
    hide Inv, Apply, Enabled;
    if steps != [] {
      StepKeeps(p, steps[0]);
      RunKeeps(Apply(p, steps[0]), steps[1..], q);
    }
  }

  lemma EmptyInv()
    ensures Inv(Empty())
  {
  }

  /** A faithful byte pipe: in each direction, whatever the split into sends and recvs
      and whatever is cancelled or closed, the bytes taken from the senders are, in
      order, the bytes written to the receivers. */
  lemma Faithful(steps: seq<Step>, p: Pipe, d: End)
    requires Runs(Empty(), steps, p)
    ensures Flow(p.ops, 1 - d, Sending) == Flow(p.ops, d, Receiving)
  {
    RunKeeps(Empty(), steps, p);
    assert FlowTo(p.ops, d);
  }

  /** An operation succeeds exactly when its whole span was transferred; it is resumed
      exactly once, when it completes; and no direction has both a send and a recv
      pending. */
  lemma Completion(steps: seq<Step>, p: Pipe, id: nat)
    requires Runs(Empty(), steps, p)
    ensures TwoEnds(p) && Apart(p)
    ensures id < |p.ops| ==> (p.ops[id].ec == Some(Success) <==> p.ops[id].rest == [])
    ensures multiset(p.resumed)[id] == if id < |p.ops| && p.ops[id].ec.Some? then 1 else 0
    ensures id < |p.ops| && p.ops[id].ec == None ==>
              Pending(p.inbound[Dest(p.ops[id].end, p.ops[id].kind)], p.ops[id].kind) == Some(id)
  {
    hide Runs, PairOf, FlowsOf;
    EmptyInv();
    RunKeeps(Empty(), steps, p);
  }

  /** Which steps there are: an operation can start exactly if its span is not empty and none
      of its kind and end is pending; a stop callback and a close can always come. */
  lemma StepsOpen(steps: seq<Step>, p: Pipe, st: Step)
    requires Runs(Empty(), steps, p)
    ensures Enabled(p, st) <==>
              match st
              case Start(end, kind, data, _, _) =>
                data != [] && forall id :: 0 <= id < |p.ops| && p.ops[id].end == end && p.ops[id].kind == kind ==>
                                             p.ops[id].ec.Some?
              case Stop(id) => id < |p.ops|
              case Close(_) => true
  {
    EmptyInv();
    RunKeeps(Empty(), steps, p);
    hide Runs, FlowsOf;
    if st.Start? {
      var d := Dest(st.end, st.kind);
      assert PairOf(p.ops, d, p.inbound[d]);
    }
  }

  /** What any step leaves of an operation: its bytes are only ever taken from the front
      of its span, and a completed one is not touched. */
  ghost predicate Kept(a: Io, b: Io) {
    && b.end == a.end && b.kind == a.kind && a.moved <= b.moved
    && |b.moved| + |b.rest| == |a.moved| + |a.rest|
    && (a.kind == Sending ==> b.moved + b.rest == a.moved + a.rest)
    && (a.ec.Some? ==> b == a)
  }

  ghost predicate AllKept(p: Pipe, q: Pipe) {
    |p.ops| <= |q.ops| && forall id :: 0 <= id < |p.ops| ==> Kept(p.ops[id], q.ops[id])
  }

  lemma KeptTrans(p: Pipe, q: Pipe, r: Pipe)
    requires AllKept(p, q) && AllKept(q, r)
    ensures AllKept(p, r)
  {
    forall id | 0 <= id < |p.ops|
      ensures Kept(p.ops[id], r.ops[id])
    {
      assert Kept(p.ops[id], q.ops[id]) && Kept(q.ops[id], r.ops[id]);
    }
  }

  lemma MatchKept(p: Pipe, d: End, own: nat)
    requires TwoEnds(p) && PairOf(p.ops, d, p.inbound[d])
    ensures AllKept(p, Match(p, d, own))
  {
  }

  lemma StartKept(p: Pipe, end: End, kind: Kind, data: Bytes, stopped: bool, inject: Code)
    requires Inv(p) && CanStart(p, end, kind, data)
    ensures AllKept(p, DoStart(p, end, kind, data, stopped, inject))
  {
    if !stopped && StartCode(p, end, inject) == Success {
      var q := Park(p, end, kind, data);
      ParkKeeps(p, end, kind, data);
      assert AllKept(p, q);
      MatchKept(q, Dest(end, kind), |p.ops|);
      KeptTrans(p, q, Match(q, Dest(end, kind), |p.ops|));
      hide Sound, AllKept, Match;
    }
  }

  lemma CloseOneKept(p: Pipe, d: End, kind: Kind, e: Code)
    requires Inv(p)
    ensures TwoEnds(p) && AllKept(p, CloseOne(p, d, kind, e))
  {
    hide FlowsOf, ResumedOf, OpsOf;
    assert PairOf(p.ops, d, p.inbound[d]);
    var id := Pending(p.inbound[d], kind);
    if id.Some? && id.value < |p.ops| {
      FailKept(p, d, kind, id.value, e);
      hide Fail, AllKept;
    }
  }

  lemma FailKept(p: Pipe, d: End, kind: Kind, id: nat, e: Code)
    requires TwoEnds(p) && id < |p.ops| && p.ops[id].ec == None
    ensures AllKept(p, Fail(p, d, kind, id, e))
  {
  }

  lemma CloseKept(p: Pipe, end: End)
    requires Inv(p)
    ensures TwoEnds(p) && AllKept(p, DoClose(p, end))
  {
    hide Inv, CloseOne, AllKept;
    CodesKeep(p, end);
    var p0 := CloseCodes(p, end);
    CloseOneKeeps(p0, end, Receiving, Closed);
    CloseOneKept(p0, end, Receiving, Closed);
    var p1 := CloseOne(p0, end, Receiving, Closed);
    CloseOneKeeps(p1, end, Sending, RemoteClosed);
    CloseOneKept(p1, end, Sending, RemoteClosed);
    var p2 := CloseOne(p1, end, Sending, RemoteClosed);
    CloseOneKeeps(p2, 1 - end, Receiving, RemoteClosed);
    CloseOneKept(p2, 1 - end, Receiving, RemoteClosed);
    var p3 := CloseOne(p2, 1 - end, Receiving, RemoteClosed);
    CloseOneKept(p3, 1 - end, Sending, Closed);
    KeptTrans(p0, p1, p2);
    KeptTrans(p0, p2, p3);
    KeptTrans(p0, p3, CloseOne(p3, 1 - end, Sending, Closed));
    SameOps(p, p0, DoClose(p, end));
  }

  lemma SameOps(p: Pipe, q: Pipe, r: Pipe)
    requires p.ops == q.ops && AllKept(q, r)
    ensures AllKept(p, r)
  {
  }

  /** Over any run an operation keeps its span: what a send hands over is what it was
      given, front first, and its outcome is final. */
  lemma {:induction false} SpansKept(p: Pipe, steps: seq<Step>, q: Pipe)
    requires Inv(p) && Runs(p, steps, q)
    ensures AllKept(p, q)
    decreases |steps|
  {
    if steps != [] {
      var m := Apply(p, steps[0]);
      StepKeeps(p, steps[0]);
      SpansKept(m, steps[1..], q);
      match steps[0] {
        case Start(end, kind, data, stopped, inject) => StartKept(p, end, kind, data, stopped, inject);
        case Stop(id) => CancelKept(p, id);
        case Close(end) => CloseKept(p, end);
      }
      hide AllKept, Inv, DoStart, DoCancel, DoClose;
      KeptTrans(p, m, q);
    }
  }

  lemma CancelKept(p: Pipe, id: nat)
    requires TwoEnds(p) && id < |p.ops|
    ensures AllKept(p, DoCancel(p, id))
  {
  }

  // ---- close ----------------------------------------------------------------------

  lemma CloseOneEffect(p: Pipe, d: End, kind: Kind, e: Code, id: nat)
    requires Inv(p) && id < |p.ops|
    ensures TwoEnds(p) && id < |CloseOne(p, d, kind, e).ops|
    ensures CloseOne(p, d, kind, e).ops[id]
            == if p.ops[id].ec == None && p.ops[id].kind == kind && Dest(p.ops[id].end, kind) == d
               then p.ops[id].(ec := Some(e)) else p.ops[id]
  {
    assert PairOf(p.ops, d, p.inbound[d]);
  }

  /** close completes every pending operation: with closed at its own end, with
      remoteClosed at the other. */
  lemma CloseCompletes(p: Pipe, end: End, id: nat)
    requires Inv(p) && id < |p.ops| && p.ops[id].ec == None
    ensures TwoEnds(p) && id < |DoClose(p, end).ops|
    ensures DoClose(p, end).ops[id]
            == p.ops[id].(ec := Some(if p.ops[id].end == end then Closed else RemoteClosed))
  {
    hide Inv, CloseOne;
    CodesKeep(p, end);
    var p0 := CloseCodes(p, end);
    CloseOneKeeps(p0, end, Receiving, Closed);
    CloseOneEffect(p0, end, Receiving, Closed, id);
    var p1 := CloseOne(p0, end, Receiving, Closed);
    CloseOneKeeps(p1, end, Sending, RemoteClosed);
    CloseOneEffect(p1, end, Sending, RemoteClosed, id);
    var p2 := CloseOne(p1, end, Sending, RemoteClosed);
    CloseOneKeeps(p2, 1 - end, Receiving, RemoteClosed);
    CloseOneEffect(p2, 1 - end, Receiving, RemoteClosed, id);
    var p3 := CloseOne(p2, 1 - end, Receiving, RemoteClosed);
    CloseOneEffect(p3, 1 - end, Sending, Closed, id);
  }

  /** After close nothing ever succeeds. */
  lemma {:induction false} NothingSucceeds(p: Pipe, steps: seq<Step>, q: Pipe)
    requires Inv(p) && Shut(p) && Runs(p, steps, q)
    ensures Shut(q) && q.ec == p.ec && |p.ops| <= |q.ops|
    ensures forall id :: 0 <= id < |p.ops| ==> q.ops[id] == p.ops[id]
    ensures forall id :: |p.ops| <= id < |q.ops| ==> q.ops[id].ec.Some? && q.ops[id].ec != Some(Success)
    decreases |steps|
  {
    if steps != [] {
      ShutStep(p, steps[0]);
      StepKeeps(p, steps[0]);
      hide Inv, Apply, Enabled;
      NothingSucceeds(Apply(p, steps[0]), steps[1..], q);
    }
  }

  /** With nothing pending and both ends closed a step leaves the operations there are;
      a new one fails. */
  ghost predicate Refused(p: Pipe, q: Pipe) {
    && Shut(q) && q.ec == p.ec && |p.ops| <= |q.ops|
    && (forall id :: 0 <= id < |p.ops| ==> q.ops[id] == p.ops[id])
    && (forall id :: |p.ops| <= id < |q.ops| ==> q.ops[id].ec.Some? && q.ops[id].ec != Some(Success))
  }

  lemma ShutStart(p: Pipe, end: End, kind: Kind, data: Bytes, stopped: bool, inject: Code)
    requires Shut(p) && CanStart(p, end, kind, data)
    ensures Refused(p, DoStart(p, end, kind, data, stopped, inject))
  {
    hide Match, Park;
    assert p.ec[end := p.ec[end]] == p.ec;
  }

  lemma ShutStop(p: Pipe, id: nat)
    requires Inv(p) && Shut(p) && id < |p.ops|
    ensures DoCancel(p, id) == p
  {
    hide Fail, PairOf, FlowsOf, ResumedOf;
  }

  lemma ShutClose(p: Pipe, end: End)
    requires Shut(p)
    ensures Refused(p, DoClose(p, end))
  {
    ShutCodes(p, end);
    hide CloseCodes, Fail;
  }

  lemma ShutCodes(p: Pipe, end: End)
    requires Shut(p)
    ensures CloseCodes(p, end) == p
  {
    assert forall c: End :: CloseCodes(p, end).ec[c] == p.ec[c];
  }

  lemma ShutStep(p: Pipe, st: Step)
    requires Inv(p) && Shut(p) && Enabled(p, st)
    ensures Refused(p, Apply(p, st))
  {
    hide Inv, DoStart, DoCancel, DoClose;
    match st
    case Start(end, kind, data, stopped, inject) => ShutStart(p, end, kind, data, stopped, inject);
    case Stop(id) => ShutStop(p, id);
    case Close(end) => ShutClose(p, end);
  }

  // ---- which code an operation gets -----------------------------------------------

  /** The code of an end once some end has been closed: the error it had, or closed at the
      end that was closed and remoteClosed at the other. */
  function CodeAfter(p: Pipe, closed: End, end: End): Code
    requires TwoEnds(p)
  {
    if p.ec[end] != Success then p.ec[end] else if closed == end then Closed else RemoteClosed
  }

  lemma CloseEc(p: Pipe, end: End)
    requires Inv(p)
    ensures TwoEnds(DoClose(p, end)) && forall c: End :: DoClose(p, end).ec[c] == CodeAfter(p, end, c)
  {
    hide Inv, CloseOne;
    CodesKeep(p, end);
    var p0 := CloseCodes(p, end);
    CloseOneKeeps(p0, end, Receiving, Closed);
    var p1 := CloseOne(p0, end, Receiving, Closed);
    CloseOneKeeps(p1, end, Sending, RemoteClosed);
    var p2 := CloseOne(p1, end, Sending, RemoteClosed);
    CloseOneKeeps(p2, 1 - end, Receiving, RemoteClosed);
    var p3 := CloseOne(p2, 1 - end, Receiving, RemoteClosed);
    CloseOneKeeps(p3, 1 - end, Sending, Closed);
  }

  /** After close, over any further run, an operation started at an end completes at once:
      with the code of its end, or as aborted if its stop token had fired. */
  lemma CodeAfterClose(p: Pipe, closed: End, steps: seq<Step>, q: Pipe, end: End, kind: Kind, data: Bytes,
                       stopped: bool, inject: Code)
    requires Inv(p) && Runs(DoClose(p, closed), steps, q) && CanStart(q, end, kind, data)
    ensures TwoEnds(p)
    ensures var r, id := DoStart(q, end, kind, data, stopped, inject), |q.ops|;
            && |r.ops| == id + 1 && r.ops[..id] == q.ops
            && r.ops[id] == Io(end, kind, [], data, Some(if stopped then OperationAborted else CodeAfter(p, closed, end)))
            && r.resumed == q.resumed + [id] && r.inbound == q.inbound
  {
    CloseKeeps(p, closed);
    CloseEc(p, closed);
    hide Inv, DoClose, Runs;
    NothingSucceeds(DoClose(p, closed), steps, q);
    assert q.ec[end] != Success;
    hide Match, Park;
  }

  /** What a step does to a pending operation: a start completes it only with success and
      only by using up its span, its own stop callback aborts it, and a close completes it
      with the code of its side. */
  lemma Outcome(p: Pipe, st: Step, id: nat)
    requires Inv(p) && Enabled(p, st) && id < |p.ops| && p.ops[id].ec == None
    ensures id < |Apply(p, st).ops|
    ensures var op := Apply(p, st).ops[id];
            match st
            case Start(_, _, _, _, _) => op.ec == if op.rest == [] then Some(Success) else None
            case Stop(k) => op == p.ops[id].(ec := if k == id then Some(OperationAborted) else None)
            case Close(end) => op == p.ops[id].(ec := Some(if p.ops[id].end == end then Closed else RemoteClosed))
  {
    match st
    case Start(end, kind, data, stopped, inject) =>
      StartKeeps(p, end, kind, data, stopped, inject);
      StartPending(p, end, kind, data, stopped, inject, id);
    case Stop(k) => hide Inv;
    case Close(end) => CloseCompletes(p, end, id);
  }

  lemma StartPending(p: Pipe, end: End, kind: Kind, data: Bytes, stopped: bool, inject: Code, id: nat)
    requires Inv(p) && CanStart(p, end, kind, data) && id < |p.ops| && p.ops[id].ec == None
    requires Inv(DoStart(p, end, kind, data, stopped, inject))
    ensures var q := DoStart(p, end, kind, data, stopped, inject);
            id < |q.ops| && q.ops[id].ec == if q.ops[id].rest == [] then Some(Success) else None
  {
    var q := DoStart(p, end, kind, data, stopped, inject);
    StartKept(p, end, kind, data, stopped, inject);
    StartCodes(p, end, kind, data, stopped, inject, id);
    hide DoStart, PairOf, FlowsOf, ResumedOf;
  }

  /** A start sets no code of another operation but success. */
  lemma StartCodes(p: Pipe, end: End, kind: Kind, data: Bytes, stopped: bool, inject: Code, id: nat)
    requires CanStart(p, end, kind, data) && id < |p.ops| && p.ops[id].ec == None
    ensures var q := DoStart(p, end, kind, data, stopped, inject);
            id < |q.ops| && (q.ops[id].ec == None || q.ops[id].ec == Some(Success))
  {
    hide Passed;
  }

  /** The operation a start makes: aborted if its stop token had fired; failed with the error
      its end has or is given, which the end keeps; otherwise pending, or successful if its
      whole span has met its counterpart. */
  lemma NewOutcome(p: Pipe, end: End, kind: Kind, data: Bytes, stopped: bool, inject: Code)
    requires Inv(p) && CanStart(p, end, kind, data)
    ensures var q, id := DoStart(p, end, kind, data, stopped, inject), |p.ops|;
            && TwoEnds(q) && |q.ops| == id + 1
            && (stopped ==> q.ops[id].ec == Some(OperationAborted) && q.ec == p.ec)
            && (!stopped && StartCode(p, end, inject) != Success ==>
                  q.ops[id].ec == Some(StartCode(p, end, inject)) && q.ec == p.ec[end := StartCode(p, end, inject)])
            && (!stopped && StartCode(p, end, inject) == Success ==>
                  q.ops[id].ec == (if q.ops[id].rest == [] then Some(Success) else None) && q.ec == p.ec)
  {
    var q := DoStart(p, end, kind, data, stopped, inject);
    StartKeeps(p, end, kind, data, stopped, inject);
    NewCodes(p, end, kind, data, stopped, inject);
    hide DoStart, PairOf, FlowsOf, ResumedOf, StartCode;
  }

  lemma NewCodes(p: Pipe, end: End, kind: Kind, data: Bytes, stopped: bool, inject: Code)
    requires CanStart(p, end, kind, data)
    ensures var q, id := DoStart(p, end, kind, data, stopped, inject), |p.ops|;
            && |q.ops| == id + 1
            && (stopped ==> q.ops[id].ec == Some(OperationAborted) && q.ec == p.ec)
            && (!stopped && StartCode(p, end, inject) != Success ==>
                  q.ops[id].ec == Some(StartCode(p, end, inject)) && q.ec == p.ec[end := StartCode(p, end, inject)])
            && (!stopped && StartCode(p, end, inject) == Success ==>
                  (q.ops[id].ec == None || q.ops[id].ec == Some(Success)) && q.ec == p.ec)
  {
    hide Passed;
  }

  /** When a start completes two operations the one that was waiting is resumed first. */
  lemma ResumeOrder(p: Pipe, end: End, kind: Kind, data: Bytes, stopped: bool, inject: Code)
    requires Inv(p) && CanStart(p, end, kind, data)
    ensures var q := DoStart(p, end, kind, data, stopped, inject);
            && p.resumed <= q.resumed && |q.resumed| <= |p.resumed| + 2
            && (|q.resumed| == |p.resumed| + 2 ==>
                  q.resumed[|p.resumed|] < |p.ops| && q.resumed[|p.resumed| + 1] == |p.ops|)
  {
    var d := Dest(end, kind);
    assert PairOf(p.ops, d, p.inbound[d]);
    hide Passed, Advance, FlowsOf, OpsOf, ResumedOf;
  }
}
