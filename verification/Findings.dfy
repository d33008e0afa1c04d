/** Runs of a new scheduler on which the code does not do what its callers expect. */
module Findings {
  import opened Common
  import opened Framing
  import opened Rings
  import opened Scheduler
  import opened Lists
  import opened Invariants
  import opened Endpoint
  import opened Failures

  // ---- a stop callback that cannot find its operation -------------------------

  /** A recv of the root has started; `n` recvs of a second fork have come and gone. */
  ghost predicate Passed(s: Sched, sid: Sid, n: nat) {
    && s.ec == Success && s.rpc == RHead && s.numRecvs == 1 && s.nextOp == n + 1
    && |s.forks| == 2 && sid in s.idMap && s.idMap[sid] == 1 && s.forks[1].localId != NO_SLOT
    && |s.sendQ| == 2 && |s.recvQ| == 2 && s.recvQ[0] == [0] && s.recvQ[1] == []
    && |s.recvR| == 2 && s.recvR[1] == [Window((), QUEUE_CAPACITY, n, [])]
  }

  /** ... and one more of them is waiting. */
  ghost predicate Waiting(s: Sched, sid: Sid, n: nat) {
    && s.ec == Success && s.rpc == RHead && s.numRecvs == 2 && s.nextOp == n + 2
    && |s.forks| == 2 && sid in s.idMap && s.idMap[sid] == 1 && s.forks[1].localId != NO_SLOT
    && |s.sendQ| == 2 && |s.recvQ| == 2 && s.recvQ[0] == [0] && s.recvQ[1] == [n + 1]
    && |s.recvR| == 2 && s.recvR[1] == [Window((), QUEUE_CAPACITY, n, [Some(n + 1)])]
    && n + 1 in s.status && s.status[n + 1] == NotStarted && n + 1 in s.rops && s.rops[n + 1].sid == sid
  }

  lemma FirstCalls(root: Sid, sid: Sid, buffer: Buffer)
    requires root != sid
    ensures CanFork(Start(root), sid)
    ensures var s := DoFork(Start(root), sid); IsLocal(s, root) && Passed(DoRecv(s, root, buffer), sid, 0)
  {
  }

  lemma OneMore(s: Sched, sid: Sid, buffer: Buffer, n: nat)
    requires Passed(s, sid, n)
    ensures IsLocal(s, sid) && Waiting(DoRecv(s, sid, buffer), sid, n)
  {
    PushOne((), QUEUE_CAPACITY, n, [], n + 1, ());
    hide RingPush;
  }

  lemma TwoQueued(q: seq<seq<OpId>>)
    requires |q| == 2
    ensures Flatten(q) == q[0] + q[1]
  {
    assert q[1..] == [q[1]] && q[1..][1..] == [];
    assert Flatten(q[1..]) == q[1] + Flatten([]);
  }

  lemma Cancellable(s: Sched, sid: Sid, n: nat)
    requires Waiting(s, sid, n)
    ensures CanCancelRecv(s, n + 1) <==> n < QUEUE_CAPACITY
    ensures n + 1 in Flatten(s.recvQ)
  {
    TwoQueued(s.recvQ);
    EraseOnly((), QUEUE_CAPACITY, n, n + 1);
    hide Flatten, Erasable;
  }

  lemma OneLess(s: Sched, sid: Sid, n: nat)
    requires Waiting(s, sid, n) && n < QUEUE_CAPACITY
    ensures CanCancelRecv(s, n + 1) && Passed(DoCancelRecv(s, n + 1), sid, n + 1)
  {
    hide Flatten, EraseValue, CanCancelRecv, Finish, Without, Orphaned, Erasable;
    Cancellable(s, sid, n);
    EraseOnly<(), OpId>((), QUEUE_CAPACITY, n, n + 1);
    WithoutItself(n + 1);
    assert s.recvR[1] == [Window((), QUEUE_CAPACITY, n, [Some(n + 1)])];
  }

  lemma FirstRun(root: Sid, sid: Sid, buffer: Buffer) returns (steps: seq<Step>, s: Sched)
    requires root != sid
    ensures Runs(Start(root), steps, s) && Passed(s, sid, 0)
  {
    FirstCalls(root, sid, buffer);
    hide Passed, DoFork, DoRecv, Start, CanFork, IsLocal;
    s := DoFork(Start(root), sid);
    RunSnoc(Start(root), [], Start(root), UFork(sid));
    RunSnoc(Start(root), [] + [UFork(sid)], s, URecv(root, buffer));
    steps := [] + [UFork(sid)] + [URecv(root, buffer)];
    s := DoRecv(s, root, buffer);
  }

  lemma PairRun(root: Sid, steps: seq<Step>, s: Sched, sid: Sid, buffer: Buffer, n: nat)
      returns (more: seq<Step>, t: Sched)
    requires Runs(Start(root), steps, s) && Passed(s, sid, n) && n < QUEUE_CAPACITY
    ensures Runs(Start(root), more, t) && Passed(t, sid, n + 1)
  {
    hide Passed, Waiting, DoRecv, DoCancelRecv, IsLocal, CanCancelRecv, Runs, Start;
    OneMore(s, sid, buffer, n);
    RunSnoc(Start(root), steps, s, URecv(sid, buffer));
    var u := DoRecv(s, sid, buffer);
    OneLess(u, sid, n);
    more := steps + [URecv(sid, buffer)];
    RunSnoc(Start(root), more, u, UCancelRecv(n + 1));
    more, t := more + [UCancelRecv(n + 1)], DoCancelRecv(u, n + 1);
  }

  /** `n` recvs of a fork are made and cancelled, one after the other. */
  lemma {:induction false} PassedRun(root: Sid, sid: Sid, buffer: Buffer, n: nat) returns (steps: seq<Step>, s: Sched)
    requires root != sid && n <= QUEUE_CAPACITY
    ensures Runs(Start(root), steps, s) && Passed(s, sid, n)
  {
    hide Apply, Enabled, Passed, Waiting;
    if n == 0 {
      steps, s := FirstRun(root, sid, buffer);
    } else {
      steps, s := PassedRun(root, sid, buffer, n - 1);
      steps, s := PairRun(root, steps, s, sid, buffer, n - 1);
    }
  }

  /** Once a block has wrapped the queue does not find an operation by its address: after
      eight recvs of a fork that were cancelled before they started, the stop callback of
      the ninth, alone in its queue and not started, has no step. */
  lemma CancelFails(root: Sid, sid: Sid, buffer: Buffer) returns (steps: seq<Step>, s: Sched)
    requires root != sid
    ensures Runs(Start(root), steps, s)
    ensures sid in s.idMap && s.idMap[sid] < |s.recvQ| && s.recvQ[s.idMap[sid]] == [9]
    ensures var op := 9;
            && op in Flatten(s.recvQ) && op in s.status && s.status[op] == NotStarted
            && !Enabled(s, UCancelRecv(op))
  {
    steps, s := PassedRun(root, sid, buffer, QUEUE_CAPACITY);
    hide DoRecv, Runs, Start, CanCancelRecv, Flatten, IsLocal, Passed;
    OneMore(s, sid, buffer, QUEUE_CAPACITY);
    RunSnoc(Start(root), steps, s, URecv(sid, buffer));
    steps, s := steps + [URecv(sid, buffer)], DoRecv(s, sid, buffer);
    Cancellable(s, sid, QUEUE_CAPACITY);
  }

  // ---- a flush that fires early -----------------------------------------------

  /** `n` recvs of the root: the first has started, the others wait. */
  ghost predicate Received(s: Sched, root: Sid, view: seq<Option<OpId>>) {
    && s.ec == Success && s.numRecvs == s.nextOp == |view| && (view != [] ==> s.rpc == RHead)
    && (view == [] ==> s.rpc == RIdle)
    && |s.forks| == 1 && root in s.idMap && s.idMap[root] == 0 && s.forks[0].localId != NO_SLOT
    && |s.sendQ| == |s.recvQ| == |s.sendR| == |s.recvR| == 1 && s.sendQ[0] == [] && s.order == []
    && |s.recvQ[0]| == |view| && (forall k :: 0 <= k < |view| ==> view[k] == Some(s.recvQ[0][k]) && s.recvQ[0][k] == k)
    && s.recvR[0] == [Window((), QUEUE_CAPACITY, 0, view)]
    && s.q.log == [] && s.q.tokens == []
    && (forall k :: 1 <= k < |view| ==>
          k in s.status && s.status[k] == NotStarted && k in s.rops && s.rops[k].sid == root)
  }

  lemma StartReceived(root: Sid)
    ensures Received(Start(root), root, [])
  {
  }

  lemma Again(s: Sched, root: Sid, view: seq<Option<OpId>>, buffer: Buffer)
    requires Received(s, root, view) && |view| < 2
    ensures IsLocal(s, root) && Received(DoRecv(s, root, buffer), root, view + [Some(|view|)])
  {
    PushOne<(), OpId>((), QUEUE_CAPACITY, 0, view, |view|, ());
    hide RingPush;
  }

  lemma Flushed(s: Sched, root: Sid)
    requires Received(s, root, [Some(0), Some(1)])
    ensures IsPending(0, s.order, s.recvQ) && s.q.tokens == []
    ensures CanFlush(s) && DoFlush(s) == s.(h := DoFlush(s).h, q := Queued([], [{1}]))
  {
    assert BackLive(s.recvR[0]);
    assert s.recvQ[0] == [0, 1];
    assert 0 in s.recvQ[0];
    assert Backs(s.sendQ) == {};
    assert Backs(s.recvQ) == {1} by {
      assert s.recvQ[0][|s.recvQ[0]| - 1] == 1;
    }
    hide Backs, Pending;
    assert Backs(s.recvQ) + Backs(s.sendQ) == {1};
    assert s.q.tokens + [{1}] == [{1}];
  }

  lemma OnlyZero()
    ensures Flatten([[0]]) == [0]
  {
    assert [[0]][1..] == [];
  }

  lemma SecondSlot()
    ensures var ws := [Window((), QUEUE_CAPACITY, 0, [Some(0 as OpId), Some(1)])];
            Erasable(ws, 1)
  {
    var v := [Some(0 as OpId), Some(1)];
    assert v[1..] == [Some(1)];
    assert SlotOf(v[1..], 1) == 0;
  }

  lemma EarlyFire(s: Sched, root: Sid)
    requires Received(s, root, [Some(0), Some(1)])
    ensures var t := s.(h := DoFlush(s).h, q := Queued([], [{1}]));
            && CanCancelRecv(t, 1)
            && DoCancelRecv(t, 1).q.log == [OpDone(1, Withdrawn), FlushDone(0)]
            && IsPending(0, DoCancelRecv(t, 1).order, DoCancelRecv(t, 1).recvQ)
  {
    hide Erasable, Without, Flatten, EraseFrom, DoFlush, Finish;
    SecondSlot();
    assert s.recvQ[0] == [0, 1] && s.recvQ == [[0, 1]];
    ZeroAndOne();
    assert [[0, 1]][0 := [0]] == [[0]];
    OnlyZero();
    OnlyHolder();
  }

  /** The second of two slots, erased. */
  lemma SecondErased()
    ensures var ws := [Window((), QUEUE_CAPACITY, 0, [Some(0 as OpId), Some(1)])];
            EraseValue(ws, 1) == [Window((), QUEUE_CAPACITY, 0, [Some(0), None])]
  {
    var v := [Some(0 as OpId), Some(1)];
    assert v[1..] == [Some(1)];
    assert SlotOf(v[1..], 1) == 0;
    assert v[1 := None] == [Some(0), None];
  }

  lemma BackErased(s: Sched, root: Sid)
    requires Received(s, root, [Some(0), Some(1)])
    ensures CanCancelRecv(s, 1)
    ensures var t := DoCancelRecv(s, 1); t.recvQ == [[0]] && !CanFlush(t)
  {
    hide Erasable, Without, Flatten, Finish, EraseValue, Orphaned;
    SecondSlot();
    SecondErased();
    assert s.recvQ[0] == [0, 1] && s.recvQ == [[0, 1]];
    ZeroAndOne();
    assert [[0, 1]][0 := [0]] == [[0]];
    var t := DoCancelRecv(s, 1);
    assert t.recvR[0] == [Window((), QUEUE_CAPACITY, 0, [Some(0), None])] && t.recvQ == [[0]];
    assert t.recvQ[0] != [] && !BackLive(t.recvR[0]);
  }

  /** A flush that the code cannot make: of two recvs of one fork the second has been
      cancelled, and the last slot of the queue is empty. */
  lemma FlushFails(root: Sid, buffer: Buffer) returns (s: Sched)
    ensures Runs(Start(root), [URecv(root, buffer), URecv(root, buffer), UCancelRecv(1)], s)
    ensures s.recvQ == [[0]] && !Enabled(s, UFlush)
  {
    hide Received, DoRecv, DoCancelRecv, CanCancelRecv, CanFlush, IsLocal;
    var a := Start(root);
    StartReceived(root);
    Again(a, root, [], buffer);
    var b := DoRecv(a, root, buffer);
    assert [] + [Some(0 as OpId)] == [Some(0)] && [Some(0 as OpId)] + [Some(1)] == [Some(0), Some(1)];
    Again(b, root, [Some(0)], buffer);
    var c := DoRecv(b, root, buffer);
    BackErased(c, root);
    s := DoCancelRecv(c, 1);
    ThreeRun(a, URecv(root, buffer), b, URecv(root, buffer), c, UCancelRecv(1), s);
  }

  lemma ThreeRun(a: Sched, x: Step, b: Sched, y: Step, c: Sched, z: Step, d: Sched)
    requires Enabled(a, x) && b == Apply(a, x) && Enabled(b, y) && c == Apply(b, y)
    requires Enabled(c, z) && d == Apply(c, z)
    ensures Runs(a, [x, y, z], d)
  {
    hide Enabled, Apply;
    RunSnoc(a, [], a, x);
    RunSnoc(a, [] + [x], b, y);
    RunSnoc(a, [] + [x] + [y], c, z);
    assert [] + [x] + [y] + [z] == [x, y, z];
  }

  lemma ZeroAndOne()
    ensures Flatten([[0, 1]]) == [0, 1] && Without([0, 1], {1}) == [0]
  {
    assert [[0, 1]][1..] == [] && [0, 1][1..] == [1];
    WithoutItself(1);
  }

  lemma OnlyHolder()
    ensures Finish(Queued([], [{1}]), 1, Withdrawn).log == [OpDone(1, Withdrawn), FlushDone(0)]
  {
    assert Fired([{1}], 1, 0) == [FlushDone(0)] + Fired([{1}], 1, 1);
    assert [] + [OpDone(1, Withdrawn)] + [FlushDone(0)] == [OpDone(1, Withdrawn), FlushDone(0)];
  }

  /** Cancelling the only holder of a token fires the flush while another operation that
      was pending at its call still is: two recvs of one fork, a flush, and the stop
      callback of the second recv. */
  lemma FlushFiresEarly(root: Sid, buffer: Buffer) returns (f: Sched, s: Sched)
    ensures Reachable(root, f) && CanFlush(f) && IsPending(0, f.order, f.recvQ)
    ensures Runs(DoFlush(f), [UCancelRecv(1)], s)
    ensures s.q.log == [OpDone(1, Withdrawn), FlushDone(|f.q.tokens|)] && IsPending(0, s.order, s.recvQ)
  {
    hide Received, DoRecv, DoFlush, DoCancelRecv, CanCancelRecv, CanFlush, IsLocal;
    var a := Start(root);
    StartReceived(root);
    Again(a, root, [], buffer);
    var b := DoRecv(a, root, buffer);
    Again(b, root, [] + [Some(0)], buffer);
    f := DoRecv(b, root, buffer);
    assert [] + [Some(0 as OpId)] + [Some(1)] == [Some(0), Some(1)];
    assert Runs(a, [URecv(root, buffer), URecv(root, buffer)], f) by {
      RunSnoc(a, [], a, URecv(root, buffer));
      RunSnoc(a, [] + [URecv(root, buffer)], b, URecv(root, buffer));
    }
    Flushed(f, root);
    EarlyFire(f, root);
    var g := DoFlush(f);
    s := DoCancelRecv(g, 1);
    RunSnoc(g, [], g, UCancelRecv(1));
  }

  // ---- a send that was never made and failed with success ----------------------

  /** Two sends are queued, the scheduler has been closed, and the send task is at `spc`
      with the first of them. */
  ghost predicate Sending(s: Sched, root: Sid, ec: Code, spc: SendPc) {
    && s.ec == ec && s.spc == spc && s.order == [0, 1]
    && |s.forks| == |s.sendQ| == 1 && root in s.idMap && s.idMap[root] == 0 && s.sendQ[0] == [0, 1]
    && 0 in s.sops && s.sops[0] == SendOp(root, [1])
    && !s.forks[0].initiated && s.q == Queued([], []) && s.h.begun == []
  }

  ghost predicate Underway(s: Sched, root: Sid, spc: SendPc) {
    && s.ec == Closed && s.spc == spc && s.order == [0, 1]
    && |s.forks| == |s.sendQ| == 1 && root in s.idMap && s.idMap[root] == 0 && s.sendQ[0] == [0, 1]
    && 0 in s.sops && s.sops[0] == SendOp(root, [1])
    && s.q == Queued([], []) && s.h.begun == if spc.SMeta? then [] else [0]
  }

  lemma TwoSends(root: Sid)
    ensures var a := Start(root);
            && CanSend(a, root, [1]) && CanSend(DoSend(a, root, [1]), root, [2])
            && Sending(DoSend(DoSend(a, root, [1]), root, [2]), root, Success, SGot(0))
  {
    var b := DoSend(Start(root), root, [1]);
    hide PushTo;
    assert b.order == [0] && b.sendQ[0] == [0];
    assert [0] + [1] == [0, 1];
  }

  lemma CloseSending(s: Sched, root: Sid)
    requires Sending(s, root, Success, SGot(0))
    ensures Sending(DoClose(s), root, Closed, SGot(0))
  {
    hide StoppedRecv;
  }

  lemma BeginMeta(s: Sched, root: Sid)
    requires Sending(s, root, Closed, SGot(0))
    ensures CanBegin(s)
    ensures var t := DoBegin(s); t.spc.SMeta? && Underway(t, root, t.spc) && InSpan(t.spc)
  {
    hide Header;
  }

  /** Where the send task is when the transport has taken all of its span. */
  function AfterSpan(spc: SendPc, slot: nat): SendPc {
    match spc
    case SMeta(op, _) => SHead(op, Header(1, slot))
    case SHead(op, _) => SBody(op, [1])
    case SBody(op, _) => SFinish(op, Success)
    case _ => spc
  }

  predicate InSpan(spc: SendPc) {
    || (spc.SMeta? && spc.op == 0 && |spc.rest| == META)
    || (spc.SHead? && spc.op == 0 && |spc.rest| == HEADER)
    || (spc.SBody? && spc.op == 0 && |spc.rest| == 1)
  }

  lemma SpanTaken(s: Sched, root: Sid, spc: SendPc)
    requires Underway(s, root, spc) && InSpan(spc)
    ensures CanSendBytes(s, |spc.rest|)
    ensures var t := DoSendBytes(s, |spc.rest|);
            CanSendEnd(t, Success) && Underway(DoSendEnd(t, Success), root, AfterSpan(spc, t.forks[0].localId))
  {
    hide Header;
    if spc.SMeta? {
    } else if spc.SHead? {
    }
  }

  lemma SpanRun(root: Sid, steps: seq<Step>, s: Sched, spc: SendPc) returns (more: seq<Step>, t: Sched, slot: nat)
    requires Runs(Start(root), steps, s) && Underway(s, root, spc) && InSpan(spc)
    ensures Runs(Start(root), more, t) && Underway(t, root, AfterSpan(spc, slot))
  {
    SpanTaken(s, root, spc);
    hide Underway, DoSendBytes, DoSendEnd, CanSendBytes, CanSendEnd, Runs, Start, AfterSpan;
    var n := |spc.rest|;
    var u := DoSendBytes(s, n);
    RunSnoc(Start(root), steps, s, TSendBytes(n));
    RunSnoc(Start(root), steps + [TSendBytes(n)], u, TSendEnd(Success));
    more, t, slot := steps + [TSendBytes(n)] + [TSendEnd(Success)], DoSendEnd(u, Success), u.forks[0].localId;
  }

  lemma BegunRun(root: Sid) returns (steps: seq<Step>, s: Sched)
    ensures Runs(Start(root), steps, s) && s.spc.SMeta? && Underway(s, root, s.spc) && InSpan(s.spc)
  {
    hide Sending, Underway, DoSend, DoClose, DoBegin, CanSend, CanBegin, Runs, Start;
    TwoSends(root);
    StartRuns(root);
    s := DoSend(Start(root), root, [1]);
    RunSnoc(Start(root), [], Start(root), USend(root, [1]));
    steps := [] + [USend(root, [1])];
    RunSnoc(Start(root), steps, s, USend(root, [2]));
    steps, s := steps + [USend(root, [2])], DoSend(s, root, [2]);
    CloseSending(s, root);
    RunSnoc(Start(root), steps, s, UClose);
    steps, s := steps + [UClose], DoClose(s);
    BeginMeta(s, root);
    RunSnoc(Start(root), steps, s, TBegin);
    steps, s := steps + [TBegin], DoBegin(s);
  }

  lemma SentRun(root: Sid) returns (steps: seq<Step>, s: Sched)
    ensures Runs(Start(root), steps, s) && Underway(s, root, SFinish(0, Success))
  {
    hide Underway, Runs, Start, Header;
    var slot;
    steps, s := BegunRun(root);
    var spc := s.spc;
    for k := 0 to 3
      invariant Runs(Start(root), steps, s) && Underway(s, root, spc)
      invariant if k == 3 then spc == SFinish(0, Success) else InSpan(spc)
      invariant k == 0 ==> spc.SMeta?
      invariant k == 1 ==> spc.SHead?
      invariant k == 2 ==> spc.SBody?
    {
      steps, s, slot := SpanRun(root, steps, s, spc);
      spc := AfterSpan(spc, slot);
    }
  }

  lemma StartRuns(root: Sid)
    ensures Runs(Start(root), [], Start(root))
  {
  }

  lemma DrainedOne(s: Sched, root: Sid)
    requires Underway(s, root, SFinish(0, Success))
    ensures CanNextSend(s)
    ensures DoNextSend(s).q.log == [OpDone(0, Sent), OpDone(1, Failed(SendDir, Success))]
    ensures DoNextSend(s).h.begun == [0]
  {
    hide PopFrom, DrainAll, StoppedRecv, NoQueues;
    var q1 := Finish(s.q, 0, Sent);
    assert Fired([], 0, 0) == [];
    assert q1 == Queued([OpDone(0, Sent)], []);
    assert s.order[1..] == [1];
    assert DrainOps(q1, [1], SendDir, Success) == DrainOps(Finish(q1, 1, Failed(SendDir, Success)), [1][1..], SendDir, Cancel);
    assert Finish(q1, 1, Failed(SendDir, Success)).log == [OpDone(0, Sent), OpDone(1, Failed(SendDir, Success))];
  }

  lemma ItsFailures(log: seq<Handle>)
    requires log == [OpDone(0, Sent), OpDone(1, Failed(SendDir, Success))]
    ensures Fails(log, SendDir) == [(1, Success)]
  {
    FailsSnoc([OpDone(0, Sent)], log[1], SendDir);
    FailsSnoc([], log[0], SendDir);
    assert log == [OpDone(0, Sent)] + [log[1]] && [] + [log[0]] == [OpDone(0, Sent)];
  }

  /** Two sends, a close, and a transport that takes all of the first: the second, which
      was never begun, is completed with the code success. */
  lemma FailsWithSuccess(root: Sid) returns (s: Sched)
    ensures Reachable(root, s) && s.h.begun == [0]
    ensures s.q.log == [OpDone(0, Sent), OpDone(1, Failed(SendDir, Success))]
    ensures Fails(s.q.log, SendDir) == [(1, Success)]
  {
    hide Underway, CanNextSend, DoNextSend, Runs, Start, Fails;
    var steps, t := SentRun(root);
    DrainedOne(t, root);
    RunSnoc(Start(root), steps, t, TNextSend);
    s := DoNextSend(t);
    ItsFailures(s.q.log);
  }
}
