/** Two buffering sockets whose outbound bytes someone carries from each to the other:
    a send only buffers, a recv takes what is buffered or waits for more. */
module BufferedLink {
  import opened Common
  import opened Transfers

  /** SockImpl: `mEc_`, the parked reader, and the bytes of the two buffers. */
  datatype Sock = Sock(ec: Code, reader: Option<nat>, outbound: Bytes, inbound: Bytes)

  /** The two sockets, every operation started so far, for each socket the bytes taken
      from it by getOutbound and not yet given to the other, and the log of the
      operations whose coroutine has been resumed. History: the readers another recv took
      the place of, and the readers past which another recv was served. */
  datatype Net = Net(socks: seq<Sock>, ops: seq<Io>, hand: seq<Bytes>, resumed: seq<nat>,
                     lost: set<nat>, passed: set<nat>)

  predicate TwoEnds(n: Net) {
    |n.socks| == 2 && |n.hand| == 2
  }

  function Fresh(): Sock {
    Sock(Success, None, [], [])
  }

  function Empty(): Net {
    Net([Fresh(), Fresh()], [], [[], []], [], {}, {})
  }

  // ---- one socket ---------------------------------------------------------

  function Queued(s: Sock, data: Bytes): Sock {
    s.(outbound := s.outbound + data)
  }

  function Buffered(s: Sock, data: Bytes): Sock {
    s.(inbound := s.inbound + data)
  }

  /** The first `want` bytes have been taken. */
  function Taken(s: Sock, want: nat): Sock
    requires want <= |s.inbound|
  {
    s.(inbound := s.inbound[want..])
  }

  /** The first error of a socket is kept. */
  function Failed(s: Sock, e: Code): Sock {
    s.(ec := if s.ec == Success then e else s.ec)
  }

  /** getOutbound: everything buffered, or nothing if the socket is empty and has failed. */
  function Outbound(s: Sock): Option<Bytes> {
    if s.outbound == [] && s.ec != Success then None else Some(s.outbound)
  }

  // ---- steps --------------------------------------------------------------

  /** A parked reader other than the recv `id`. */
  function Past(s: Sock, id: nat): set<nat> {
    if s.reader.Some? && s.reader.value != id then {s.reader.value} else {}
  }

  /** A recv is given the front of the inbound buffer, as much as it asked for. */
  function Serve(n: Net, j: End, id: nat): Net
    requires TwoEnds(n) && id < |n.ops| && |n.ops[id].rest| <= |n.socks[j].inbound|
  {
    var want := |n.ops[id].rest|;
    n.(ops := n.ops[id := Advance(n.ops[id], n.socks[j].inbound[..want])],
       socks := n.socks[j := Taken(n.socks[j], want)],
       resumed := n.resumed + [id],
       passed := n.passed + Past(n.socks[j], id))
  }

  function SetReader(n: Net, j: End, r: Option<nat>): Net
    requires TwoEnds(n)
  {
    n.(socks := n.socks[j := n.socks[j].(reader := r)])
  }

  /** A nonempty span, as the source asserts. */
  predicate CanStart(n: Net, data: Bytes) {
    TwoEnds(n) && data != []
  }

  /** A recv takes the place of the reader parked before. */
  function Park(n: Net, j: End, id: nat): Net
    requires TwoEnds(n)
  {
    var r := n.socks[j].reader;
    SetReader(n, j, Some(id)).(lost := n.lost + if r.Some? then {r.value} else {})
  }

  /** The constructor of the awaiter and await_suspend; `stopped`: the stop token fired
      before the operation started. */
  function DoStart(n: Net, end: End, kind: Kind, data: Bytes, stopped: bool): Net
    requires CanStart(n, data)
  {
    var id := |n.ops|;
    var s := n.socks[end];
    if stopped then
      n.(ops := n.ops + [Io(end, kind, [], data, Some(OperationAborted))], resumed := n.resumed + [id])
    else if kind == Sending then
      n.(ops := n.ops + [Advance(Io(end, kind, [], data, None), data)],
         socks := n.socks[end := Queued(s, data)],
         resumed := n.resumed + [id])
    else
      var n1 := n.(ops := n.ops + [Io(end, kind, [], data, None)]);
      if |s.inbound| >= |data| then Serve(n1, end, id) else Park(n1, end, id)
  }

  /** A pending recv leaves its socket and completes with the error `e`. */
  function Fail(n: Net, j: End, id: nat, e: Code): Net
    requires TwoEnds(n) && id < |n.ops|
  {
    SetReader(n, j, None).(ops := n.ops[id := n.ops[id].(ec := Some(e))], resumed := n.resumed + [id])
  }

  /** The stop callback asserts that a pending recv is the parked reader. */
  predicate CanCancel(n: Net, id: nat) {
    TwoEnds(n) && id < |n.ops| && (n.ops[id].ec == None ==> n.socks[n.ops[id].end].reader == Some(id))
  }

  function DoCancel(n: Net, id: nat): Net
    requires CanCancel(n, id)
  {
    if n.ops[id].ec.Some? then n else Fail(n, n.ops[id].end, id, OperationAborted)
  }

  function DoTake(n: Net, i: End): Net
    requires TwoEnds(n)
  {
    n.(socks := n.socks[i := n.socks[i].(outbound := [])],
       hand := n.hand[i := n.hand[i] + n.socks[i].outbound])
  }

  /** Bytes in hand reach the inbound buffer of the other socket. */
  function Carry(n: Net, j: End, k: nat): Net
    requires TwoEnds(n) && k <= |n.hand[1 - j]|
  {
    n.(socks := n.socks[j := Buffered(n.socks[j], n.hand[1 - j][..k])],
       hand := n.hand[1 - j := n.hand[1 - j][k..]])
  }

  /** processInbound with the next `k` bytes in hand for socket `j`. */
  function DoGive(n: Net, j: End, k: nat): Net
    requires TwoEnds(n) && k <= |n.hand[1 - j]|
  {
    var n1 := Carry(n, j, k);
    var r := n.socks[j].reader;
    if r.Some? && r.value < |n.ops| && |n.ops[r.value].rest| <= |n1.socks[j].inbound|
    then SetReader(Serve(n1, j, r.value), j, None) else n1
  }

  function FailReader(n: Net, j: End, e: Code): Net
    requires TwoEnds(n)
  {
    var r := n.socks[j].reader;
    if r.Some? && r.value < |n.ops| then Fail(n, j, r.value, e) else n
  }

  function DoSetError(n: Net, j: End, e: Code): Net
    requires TwoEnds(n)
  {
    if n.socks[j].ec != Success then n
    else FailReader(n.(socks := n.socks[j := Failed(n.socks[j], e)]), j, e)
  }

  function DoClose(n: Net, j: End): Net
    requires TwoEnds(n)
  {
    FailReader(n.(socks := n.socks[j := Failed(n.socks[j], Closed)]), j, OperationAborted)
  }

  // ---- invariant ------------------------------------------------------------

  /** A parked reader wants more bytes than are buffered. */
  ghost predicate ReaderOf(ops: seq<Io>, lost: set<nat>, j: End, s: Sock) {
    s.reader.Some? ==>
      var id := s.reader.value;
      && id < |ops| && id !in lost && ops[id].end == j && ops[id].kind == Receiving && ops[id].ec == None
      && |ops[id].rest| > |s.inbound|
  }

  /** A pending operation is a recv: the reader of its socket, or one whose place another
      recv has taken. */
  ghost predicate OpOf(op: Io, id: nat, socks: seq<Sock>, lost: set<nat>)
    requires |socks| == 2
  {
    && (op.ec == None <==> socks[op.end].reader == Some(id) || id in lost)
    && (op.ec == None ==> op.kind == Receiving)
    && (op.ec == Some(Success) <==> op.rest == [])
    && (op.ec != Some(Success) ==> op.moved == [])
  }

  ghost predicate OpsOf(ops: seq<Io>, socks: seq<Sock>, lost: set<nat>)
    requires |socks| == 2
  {
    && (forall id :: 0 <= id < |ops| ==> OpOf(ops[id], id, socks, lost))
    && (forall id :: id in lost ==> id < |ops|)
  }

  /** Conservation: what one end sent is what its peer received, then the peer's inbound
      buffer, then the bytes in hand, then its own outbound buffer. */
  ghost predicate Conserved(n: Net, i: End)
    requires TwoEnds(n)
  {
    Flow(n.ops, i, Sending)
    == Done(n.ops, n.resumed, 1 - i, Receiving) + n.socks[1 - i].inbound + n.hand[i] + n.socks[i].outbound
  }

  /** A recv of end `j` that has taken bytes. */
  predicate Took(ops: seq<Io>, id: nat, j: End) {
    id < |ops| && ops[id].end == j && ops[id].kind == Receiving && ops[id].moved != []
  }

  /** The recvs of end `j` that have taken bytes were resumed in the order of their calls. */
  ghost predicate CallOrder(ops: seq<Io>, resumed: seq<nat>, j: End) {
    forall a, b :: 0 <= a < b < |resumed| && Took(ops, resumed[a], j) && Took(ops, resumed[b], j) ==>
                     resumed[a] < resumed[b]
  }

  /** A reader past which another recv was served has taken bytes since. */
  ghost predicate PassedTook(ops: seq<Io>, passed: set<nat>, j: End) {
    exists id :: id in passed && Took(ops, id, j)
  }

  /** That other recv was called later. */
  ghost predicate PassedBy(ops: seq<Io>, passed: set<nat>, j: End) {
    forall id :: id in passed ==> id < |ops| && (ops[id].end == j ==> exists k :: k > id && Took(ops, k, j))
  }

  ghost predicate Ordered(ops: seq<Io>, resumed: seq<nat>, passed: set<nat>, j: End) {
    PassedBy(ops, passed, j) && (CallOrder(ops, resumed, j) <==> !PassedTook(ops, passed, j))
  }

  /** While no reader is served after another recv has been served past it, the recvs of the
      end complete in the order of their calls; a reader that has not been passed is behind
      all that took bytes. */
  ghost predicate InOrder(n: Net, j: End)
    requires TwoEnds(n)
  {
    && Ordered(n.ops, n.resumed, n.passed, j)
    && (!PassedTook(n.ops, n.passed, j) ==> Flow(n.ops, j, Receiving) == Done(n.ops, n.resumed, j, Receiving))
    && (n.socks[j].reader.Some? && n.socks[j].reader.value !in n.passed ==>
          Latest(n.ops, j, n.socks[j].reader.value))
  }

  ghost predicate Latest(ops: seq<Io>, j: End, id: nat) {
    forall k :: id < k < |ops| && ops[k].kind == Receiving && ops[k].end == j ==> ops[k].moved == []
  }

  ghost predicate Readers(n: Net)
    requires TwoEnds(n)
  {
    && (forall j: End :: ReaderOf(n.ops, n.lost, j, n.socks[j]))
    && OpsOf(n.ops, n.socks, n.lost) && ResumedOf(n.ops, n.resumed)
  }

  ghost predicate Balanced(n: Net)
    requires TwoEnds(n)
  {
    forall i: End :: Conserved(n, i) && InOrder(n, i)
  }

  ghost predicate Inv(n: Net) {
    TwoEnds(n) && Readers(n) && Balanced(n)
  }

  // ---- the order of recvs -------------------------------------------------------

  /** Nothing changes for the recvs of end `j`. */
  lemma OrderedSame(ops: seq<Io>, resumed: seq<nat>, passed: set<nat>, ops': seq<Io>, resumed': seq<nat>,
                    past: set<nat>, j: End)
    requires Ordered(ops, resumed, passed, j) && |ops| <= |ops'|
    requires forall id :: 0 <= id < |ops| ==> ops'[id].end == ops[id].end
    requires forall id: nat :: Took(ops', id, j) <==> Took(ops, id, j)
    requires resumed' == resumed || (exists x :: resumed' == resumed + [x] && !Took(ops, x, j))
    requires forall id :: id in past ==> id < |ops| && ops[id].end != j
    ensures Ordered(ops', resumed', passed + past, j)
    ensures PassedTook(ops', passed + past, j) <==> PassedTook(ops, passed, j)
  {
    OrderSame(ops, resumed, ops', resumed', j);
    hide CallOrder;
    assert PassedTook(ops', passed + past, j) <==> PassedTook(ops, passed, j) by {
      if id :| id in passed && Took(ops, id, j) {
        assert id in passed + past && Took(ops', id, j);
      }
    }
    hide PassedTook;
    forall id | id in passed + past && id < |ops| && ops'[id].end == j
      ensures exists k :: k > id && Took(ops', k, j)
    {
      var k :| k > id && Took(ops, k, j);
      assert Took(ops', k, j);
    }
  }

  lemma OrderSame(ops: seq<Io>, resumed: seq<nat>, ops': seq<Io>, resumed': seq<nat>, j: End)
    requires forall id: nat :: Took(ops', id, j) <==> Took(ops, id, j)
    requires resumed' == resumed || (exists x :: resumed' == resumed + [x] && !Took(ops, x, j))
    ensures CallOrder(ops', resumed', j) <==> CallOrder(ops, resumed, j)
  {
    hide Took;
    if CallOrder(ops', resumed', j) {
      forall a, b | 0 <= a < b < |resumed| && Took(ops, resumed[a], j) && Took(ops, resumed[b], j)
        ensures resumed[a] < resumed[b]
      {
        assert resumed'[a] == resumed[a] && resumed'[b] == resumed[b];
      }
    }
  }

  /** The recv `id` takes its bytes, past the readers in `past`. */
  lemma OrderedServe(ops: seq<Io>, resumed: seq<nat>, passed: set<nat>, id: nat, op: Io, past: set<nat>, j: End)
    requires Ordered(ops, resumed, passed, j) && id < |ops|
    requires (forall k: nat :: Took(ops, k, j) ==> k in resumed) && id !in resumed
    requires ops[id].moved == [] && id !in past && Took(ops[id := op], id, j) && ops[id].end == j && ops[id].kind == Receiving
    requires id !in passed ==> Latest(ops, j, id)
    requires forall r :: r in past ==> r < id && !Took(ops, r, j)
    ensures Ordered(ops[id := op], resumed + [id], passed + past, j)
    ensures PassedTook(ops[id := op], passed + past, j) <==> PassedTook(ops, passed, j) || id in passed
  {
    var ops', n := ops[id := op], |resumed|;
    assert forall k: nat :: Took(ops', k, j) <==> Took(ops, k, j) || k == id;
    ServeTook(ops, passed, id, op, past, j);
    ServePassed(ops, passed, id, op, past, j);
    if id in passed {
      var k :| k > id && Took(ops, k, j);
      var a :| 0 <= a < n && resumed[a] == k;
      assert (resumed + [id])[a] == k && (resumed + [id])[n] == id && Took(ops', k, j);
      assert !CallOrder(ops', resumed + [id], j);
    } else {
      ServeOrder(ops, resumed, id, op, j);
    }
    hide CallOrder, PassedTook, PassedBy;
  }

  lemma ServeTook(ops: seq<Io>, passed: set<nat>, id: nat, op: Io, past: set<nat>, j: End)
    requires id < |ops| && id !in past && forall k: nat :: Took(ops[id := op], k, j) <==> Took(ops, k, j) || k == id
    requires forall r :: r in past ==> !Took(ops, r, j)
    ensures PassedTook(ops[id := op], passed + past, j) <==> PassedTook(ops, passed, j) || id in passed
  {
    hide Took;
    if PassedTook(ops, passed, j) {
      var k :| k in passed && Took(ops, k, j);
      assert k in passed + past && Took(ops[id := op], k, j);
    } else if id in passed {
      assert id in passed + past && Took(ops[id := op], id, j);
    }
  }

  lemma ServePassed(ops: seq<Io>, passed: set<nat>, id: nat, op: Io, past: set<nat>, j: End)
    requires PassedBy(ops, passed, j) && id < |ops| && op.end == ops[id].end
    requires Took(ops[id := op], id, j) && forall k: nat :: Took(ops, k, j) ==> Took(ops[id := op], k, j)
    requires forall r :: r in past ==> r < id
    ensures PassedBy(ops[id := op], passed + past, j)
  {
    hide Took;
    var ops' := ops[id := op];
    forall r | r in passed + past
      ensures r < |ops| && (ops'[r].end == j ==> exists k :: k > r && Took(ops', k, j))
    {
      if r in past {
        assert Took(ops', id, j);
      } else if ops[r].end == j {
        var k :| k > r && Took(ops, k, j);
        assert Took(ops', k, j);
      }
    }
  }

  lemma ServeOrder(ops: seq<Io>, resumed: seq<nat>, id: nat, op: Io, j: End)
    requires id < |ops| && Latest(ops, j, id) && ops[id].moved == []
    requires forall k: nat :: Took(ops[id := op], k, j) <==> Took(ops, k, j) || k == id
    requires forall k: nat :: Took(ops, k, j) ==> k in resumed
    requires id !in resumed
    ensures CallOrder(ops[id := op], resumed + [id], j) <==> CallOrder(ops, resumed, j)
  {
    var ops', n := ops[id := op], |resumed|;
    assert forall k: nat :: Took(ops, k, j) ==> k < id;
    hide Took, Latest;
    if CallOrder(ops', resumed + [id], j) {
      forall a, b | 0 <= a < b < n && Took(ops, resumed[a], j) && Took(ops, resumed[b], j)
        ensures resumed[a] < resumed[b]
      {
        assert (resumed + [id])[a] == resumed[a] && (resumed + [id])[b] == resumed[b];
      }
    }
  }

  // ---- an operation joins ------------------------------------------------------

  lemma NewFlows(n: Net, op: Io, e: End, kind: Kind)
    requires ResumedOf(n.ops, n.resumed)
    ensures var id := |n.ops|; var more := if op.end == e && op.kind == kind then op.moved else [];
            && Flow(n.ops + [op], e, kind) == Flow(n.ops, e, kind) + more
            && Done(n.ops + [op], n.resumed, e, kind) == Done(n.ops, n.resumed, e, kind)
            && Done(n.ops + [op], n.resumed + [id], e, kind) == Done(n.ops, n.resumed, e, kind) + more
  {
    ResumedDone(n.ops, n.resumed);
    FlowSnoc(n.ops, op, e, kind);
    DoneSame(n.ops, n.ops + [op], n.resumed, e, kind);
    DoneSnoc(n.ops + [op], n.resumed, |n.ops|, e, kind);
  }

  /** An operation that is resumed at once: it moves nothing, or it is a send. */
  lemma NewResumed(n: Net, op: Io)
    requires TwoEnds(n) && OpsOf(n.ops, n.socks, n.lost) && ResumedOf(n.ops, n.resumed)
    requires op.ec.Some? && (op.ec == Some(Success) <==> op.rest == []) && (op.ec != Some(Success) ==> op.moved == [])
    requires forall j: End :: ReaderOf(n.ops, n.lost, j, n.socks[j])
    ensures Readers(n.(ops := n.ops + [op], resumed := n.resumed + [|n.ops|]))
  {
    var ops := n.ops + [op];
    assert |n.ops| !in n.lost;
    forall j: End
      ensures ReaderOf(ops, n.lost, j, n.socks[j])
    {
      assert ReaderOf(n.ops, n.lost, j, n.socks[j]);
    }
    forall id | 0 <= id < |ops|
      ensures OpOf(ops[id], id, n.socks, n.lost)
    {
      assert ReaderOf(n.ops, n.lost, op.end, n.socks[op.end]);
    }
  }

  lemma RefuseKeeps(n: Net, end: End, kind: Kind, data: Bytes)
    requires Inv(n) && CanStart(n, data)
    ensures Inv(DoStart(n, end, kind, data, true))
  {
    var op := Io(end, kind, [], data, Some(OperationAborted));
    NewResumed(n, op);
    RefuseBalanced(n, op);
    hide Readers, Balanced;
  }

  lemma RefuseBalanced(n: Net, op: Io)
    requires TwoEnds(n) && Balanced(n) && ResumedOf(n.ops, n.resumed) && op.moved == []
    ensures Balanced(n.(ops := n.ops + [op], resumed := n.resumed + [|n.ops|]))
  {
    hide Conserved, InOrder;
    forall i: End
      ensures var m := n.(ops := n.ops + [op], resumed := n.resumed + [|n.ops|]);
              Conserved(m, i) && InOrder(m, i)
    {
      assert Conserved(n, i) && InOrder(n, i);
      RefuseConserved(n, op, i);
      NewInOrder(n, op, i);
    }
  }

  lemma RefuseConserved(n: Net, op: Io, i: End)
    requires TwoEnds(n) && Conserved(n, i) && ResumedOf(n.ops, n.resumed) && op.moved == []
    ensures Conserved(n.(ops := n.ops + [op], resumed := n.resumed + [|n.ops|]), i)
  {
    hide Flow, Done, ResumedOf;
    NewFlows(n, op, i, Sending);
    NewFlows(n, op, 1 - i, Receiving);
  }

  /** An operation that takes no bytes of a socket leaves the order of recvs. */
  lemma NewInOrder(n: Net, op: Io, i: End)
    requires TwoEnds(n) && InOrder(n, i) && ResumedOf(n.ops, n.resumed)
    requires op.moved == [] || op.kind == Sending
    ensures InOrder(n.(ops := n.ops + [op], resumed := n.resumed + [|n.ops|]), i)
  {
    hide Flow, Done, ResumedOf, Ordered, PassedTook;
    NewFlows(n, op, i, Receiving);
    NewOrdered(n, op, n.resumed + [|n.ops|], i);
  }

  /** An operation joins that has taken no bytes of a socket. */
  lemma NewOrdered(n: Net, op: Io, resumed: seq<nat>, i: End)
    requires Ordered(n.ops, n.resumed, n.passed, i) && (op.moved == [] || op.kind == Sending)
    requires resumed == n.resumed || resumed == n.resumed + [|n.ops|]
    ensures Ordered(n.ops + [op], resumed, n.passed, i)
    ensures PassedTook(n.ops + [op], n.passed, i) <==> PassedTook(n.ops, n.passed, i)
  {
    hide Ordered, PassedTook;
    assert !Took(n.ops, |n.ops|, i);
    assert forall id: nat :: Took(n.ops + [op], id, i) <==> Took(n.ops, id, i);
    OrderedSame(n.ops, n.resumed, n.passed, n.ops + [op], resumed, {}, i);
    assert n.passed + {} == n.passed;
  }

  lemma SendKeeps(n: Net, end: End, data: Bytes)
    requires Inv(n) && CanStart(n, data)
    ensures Inv(DoStart(n, end, Sending, data, false))
  {
    var op := Advance(Io(end, Sending, [], data, None), data);
    NewResumed(n, op);
    SendReaders(n.(ops := n.ops + [op], resumed := n.resumed + [|n.ops|]), end, data);
    SendBalanced(n, end, data);
    hide Readers, Balanced;
  }

  lemma SendReaders(n: Net, end: End, data: Bytes)
    requires TwoEnds(n) && Readers(n)
    ensures Readers(n.(socks := n.socks[end := Queued(n.socks[end], data)]))
  {
    var socks := n.socks[end := Queued(n.socks[end], data)];
    SameReaders(n, socks);
  }

  /** Only the reader and the bytes for it matter. */
  lemma SameReaders(n: Net, socks: seq<Sock>)
    requires TwoEnds(n) && Readers(n) && |socks| == 2
    requires forall j: End :: socks[j].reader == n.socks[j].reader && |socks[j].inbound| <= |n.socks[j].inbound|
    ensures Readers(n.(socks := socks))
  {
    forall j: End
      ensures ReaderOf(n.ops, n.lost, j, socks[j])
    {
      assert ReaderOf(n.ops, n.lost, j, n.socks[j]);
    }
    forall id | 0 <= id < |n.ops|
      ensures OpOf(n.ops[id], id, socks, n.lost)
    {
      assert OpOf(n.ops[id], id, n.socks, n.lost);
    }
  }

  lemma SendBalanced(n: Net, end: End, data: Bytes)
    requires CanStart(n, data) && Balanced(n) && ResumedOf(n.ops, n.resumed)
    ensures Balanced(DoStart(n, end, Sending, data, false))
  {
    hide Conserved, InOrder, ResumedOf;
    forall i: End
      ensures var m := DoStart(n, end, Sending, data, false); Conserved(m, i) && InOrder(m, i)
    {
      assert Conserved(n, i) && InOrder(n, i);
      SendConserved(n, end, data, i);
      SendInOrder(n, end, data, i);
    }
  }

  lemma SendConserved(n: Net, end: End, data: Bytes, i: End)
    requires CanStart(n, data) && Conserved(n, i) && ResumedOf(n.ops, n.resumed)
    ensures Conserved(DoStart(n, end, Sending, data, false), i)
  {
    hide Flow, Done, ResumedOf;
    var op := Advance(Io(end, Sending, [], data, None), data);
    NewFlows(n, op, i, Sending);
    NewFlows(n, op, 1 - i, Receiving);
  }

  lemma SendInOrder(n: Net, end: End, data: Bytes, i: End)
    requires CanStart(n, data) && InOrder(n, i) && ResumedOf(n.ops, n.resumed)
    ensures InOrder(DoStart(n, end, Sending, data, false), i)
  {
    hide Flow, Done, ResumedOf;
    var op := Advance(Io(end, Sending, [], data, None), data);
    NewInOrder(n, op, i);
  }

  // ---- a recv joins and is served or parks ----------------------------------------

  /** A recv has joined and has not been looked at yet: it is the newest, and neither
      parked nor served. */
  ghost predicate Joined(n: Net, j: End, id: nat)
    requires TwoEnds(n)
  {
    && id == |n.ops| - 1 && id !in n.lost && n.ops[id].end == j && n.ops[id].kind == Receiving
    && n.ops[id].ec == None && n.ops[id].rest != [] && n.ops[id].moved == []
    && (forall i: End :: ReaderOf(n.ops, n.lost, i, n.socks[i]) && n.socks[i].reader != Some(id))
    && (forall k :: 0 <= k < |n.ops| && k != id ==> OpOf(n.ops[k], k, n.socks, n.lost))
    && (forall k :: k in n.lost ==> k < |n.ops|)
    && ResumedOf(n.ops, n.resumed)
    && Latest(n.ops, j, id)
  }

  lemma JoinKeeps(n: Net, end: End, data: Bytes)
    requires Inv(n) && CanStart(n, data)
    ensures var m := n.(ops := n.ops + [Io(end, Receiving, [], data, None)]);
            Joined(m, end, |n.ops|) && Balanced(m)
  {
    JoinReaders(n, end, data);
    JoinBalanced(n, end, data);
    hide Readers, Balanced, Joined;
  }

  lemma JoinReaders(n: Net, end: End, data: Bytes)
    requires TwoEnds(n) && Readers(n) && data != []
    ensures var m := n.(ops := n.ops + [Io(end, Receiving, [], data, None)]);
            Joined(m, end, |n.ops|)
  {
    forall i: End
      ensures ReaderOf(n.ops + [Io(end, Receiving, [], data, None)], n.lost, i, n.socks[i])
      ensures n.socks[i].reader != Some(|n.ops|)
    {
      assert ReaderOf(n.ops, n.lost, i, n.socks[i]);
    }
  }

  lemma JoinBalanced(n: Net, end: End, data: Bytes)
    requires TwoEnds(n) && Balanced(n) && ResumedOf(n.ops, n.resumed)
    ensures var m := n.(ops := n.ops + [Io(end, Receiving, [], data, None)]);
            Balanced(m)
  {
    hide Conserved, InOrder, ResumedOf;
    var m := n.(ops := n.ops + [Io(end, Receiving, [], data, None)]);
    forall i: End
      ensures Conserved(m, i) && InOrder(m, i)
    {
      assert Conserved(n, i) && InOrder(n, i);
      JoinEnd(n, end, data, i);
    }
  }

  lemma JoinEnd(n: Net, end: End, data: Bytes, i: End)
    requires TwoEnds(n) && Conserved(n, i) && InOrder(n, i) && ResumedOf(n.ops, n.resumed)
    ensures var m := n.(ops := n.ops + [Io(end, Receiving, [], data, None)]);
            Conserved(m, i) && InOrder(m, i)
  {
    hide Flow, Done, ResumedOf, Ordered, PassedTook;
    var op := Io(end, Receiving, [], data, None);
    NewFlows(n, op, i, Sending);
    NewFlows(n, op, 1 - i, Receiving);
    NewFlows(n, op, i, Receiving);
    NewOrdered(n, op, n.resumed, i);
  }

  lemma ParkKeeps(n: Net, j: End, id: nat)
    requires TwoEnds(n) && Joined(n, j, id) && Balanced(n) && |n.ops[id].rest| > |n.socks[j].inbound|
    ensures Inv(Park(n, j, id))
  {
    ParkReaders(n, j, id);
    ParkBalanced(n, j, id);
    hide Readers, Balanced, Joined;
  }

  lemma ParkReaders(n: Net, j: End, id: nat)
    requires TwoEnds(n) && Joined(n, j, id) && |n.ops[id].rest| > |n.socks[j].inbound|
    ensures Readers(Park(n, j, id))
  {
    var m := Park(n, j, id);
    assert ReaderOf(n.ops, n.lost, j, n.socks[j]);
    forall i: End
      ensures ReaderOf(m.ops, m.lost, i, m.socks[i])
    {
      assert ReaderOf(n.ops, n.lost, i, n.socks[i]);
    }
    forall k | 0 <= k < |n.ops|
      ensures OpOf(m.ops[k], k, m.socks, m.lost)
    {
      if k != id {
        assert OpOf(n.ops[k], k, n.socks, n.lost);
      }
    }
  }

  lemma ParkBalanced(n: Net, j: End, id: nat)
    requires TwoEnds(n) && Balanced(n) && Latest(n.ops, j, id)
    ensures Balanced(Park(n, j, id))
  {
    var m := Park(n, j, id);
    forall i: End
      ensures Conserved(m, i) && InOrder(m, i)
    {
      assert Conserved(n, i) && InOrder(n, i);
    }
  }

  /** A recv that may take its bytes now: it is pending, and behind all that took bytes
      unless another was served past it. */
  ghost predicate Ripe(n: Net, j: End, id: nat)
    requires TwoEnds(n)
  {
    && id < |n.ops| && n.ops[id].ec == None && n.ops[id].end == j && n.ops[id].kind == Receiving
    && n.ops[id].moved == [] && 0 < |n.ops[id].rest| <= |n.socks[j].inbound|
    && ResumedOf(n.ops, n.resumed) && Settled(n.ops) && (id !in n.passed ==> Latest(n.ops, j, id))
    && (n.socks[j].reader.Some? && n.socks[j].reader.value != id ==>
          var r := n.socks[j].reader.value; r < id && n.ops[r].end == j && n.ops[r].ec == None)
  }

  /** Only a completed operation has moved bytes. */
  ghost predicate Settled(ops: seq<Io>) {
    forall k :: 0 <= k < |ops| && ops[k].moved != [] ==> ops[k].ec.Some?
  }

  lemma ServeFlow(n: Net, j: End, id: nat, i: End)
    requires TwoEnds(n) && Ripe(n, j, id)
    ensures var m := Serve(n, j, id); var bytes := n.socks[j].inbound[..|n.ops[id].rest|];
            && Flow(m.ops, i, Sending) == Flow(n.ops, i, Sending)
            && (Latest(n.ops, j, id) || i != j ==>
                  Flow(m.ops, i, Receiving) == Flow(n.ops, i, Receiving) + (if i == j then bytes else []))
  {
    hide Flow, ResumedOf, Settled;
    var m := Serve(n, j, id);
    FlowSame(n.ops, id, m.ops[id], i, Sending);
    if i != j {
      FlowSame(n.ops, id, m.ops[id], i, Receiving);
    } else if Latest(n.ops, j, id) {
      FlowAdvance(n.ops, id, m.ops[id], n.socks[j].inbound[..|n.ops[id].rest|], i, Receiving);
    }
  }

  lemma ServeDone(n: Net, j: End, id: nat, i: End)
    requires TwoEnds(n) && Ripe(n, j, id)
    ensures var m := Serve(n, j, id); var bytes := n.socks[j].inbound[..|n.ops[id].rest|];
            Done(m.ops, m.resumed, i, Receiving) == Done(n.ops, n.resumed, i, Receiving) + (if i == j then bytes else [])
  {
    hide Done, Latest, Settled;
    var m := Serve(n, j, id);
    ResumedDone(n.ops, n.resumed);
    hide ResumedOf;
    DoneSame(n.ops, m.ops, n.resumed, i, Receiving);
    DoneSnoc(m.ops, n.resumed, id, i, Receiving);
  }

  lemma ServeConserved(n: Net, j: End, id: nat, i: End)
    requires TwoEnds(n) && Conserved(n, i) && Ripe(n, j, id)
    ensures Conserved(Serve(n, j, id), i)
  {
    hide Flow, Done, Latest, ResumedOf, Settled;
    ServeFlow(n, j, id, i);
    ServeDone(n, j, id, 1 - i);
    var s, want := n.socks[j].inbound, |n.ops[id].rest|;
    var done := Done(n.ops, n.resumed, 1 - i, Receiving);
    if 1 - i == j {
      Cut(done, s, want);
    } else {
      assert done + [] == done;
    }
  }

  lemma Cut(a: Bytes, b: Bytes, k: nat)
    requires k <= |b|
    ensures a + b[..k] + b[k..] == a + b
  {
  }

  lemma ServeInOrder(n: Net, j: End, id: nat, i: End)
    requires TwoEnds(n) && InOrder(n, i) && Ripe(n, j, id)
    ensures InOrder(Serve(n, j, id), i)
  {
    hide Ordered;
    ServeFlow(n, j, id, i);
    ServeDone(n, j, id, i);
    if i == j {
      ServeOrdered(n, j, id);
    } else {
      ServeApart(n, j, id, i);
    }
    hide Flow, Done, PassedTook, ResumedOf, Settled;
  }

  lemma ServeOrdered(n: Net, j: End, id: nat)
    requires TwoEnds(n) && Ordered(n.ops, n.resumed, n.passed, j) && Ripe(n, j, id)
    ensures var m := Serve(n, j, id);
            && Ordered(m.ops, m.resumed, m.passed, j)
            && (PassedTook(m.ops, m.passed, j) <==> PassedTook(n.ops, n.passed, j) || id in n.passed)
  {
    hide Ordered, PassedTook;
    ResumedDone(n.ops, n.resumed);
    TookResumed(n.ops, n.resumed, j);
    OrderedServe(n.ops, n.resumed, n.passed, id, Serve(n, j, id).ops[id], Past(n.socks[j], id), j);
  }

  lemma TookResumed(ops: seq<Io>, resumed: seq<nat>, j: End)
    requires ResumedOf(ops, resumed) && Settled(ops)
    ensures forall k: nat :: Took(ops, k, j) ==> k in resumed
  {
    forall k: nat | Took(ops, k, j)
      ensures k in resumed
    {
      assert multiset(resumed)[k] == 1;
    }
  }

  lemma ServeApart(n: Net, j: End, id: nat, i: End)
    requires TwoEnds(n) && Ordered(n.ops, n.resumed, n.passed, i) && Ripe(n, j, id) && i != j
    ensures var m := Serve(n, j, id);
            && Ordered(m.ops, m.resumed, m.passed, i)
            && (PassedTook(m.ops, m.passed, i) <==> PassedTook(n.ops, n.passed, i))
  {
    hide Ordered, PassedTook, ResumedOf, Latest, Settled;
    var m := Serve(n, j, id);
    OrderedSame(n.ops, n.resumed, n.passed, m.ops, m.resumed, Past(n.socks[j], id), i);
  }

  lemma ServeBalanced(n: Net, j: End, id: nat)
    requires TwoEnds(n) && Balanced(n) && Ripe(n, j, id)
    ensures Balanced(Serve(n, j, id))
  {
    hide Conserved, InOrder, Latest, ResumedOf, Settled;
    forall i: End
      ensures id < |n.ops| && |n.ops[id].rest| <= |n.socks[j].inbound|
      ensures Conserved(Serve(n, j, id), i) && InOrder(Serve(n, j, id), i)
    {
      assert Conserved(n, i) && InOrder(n, i);
      ServeConserved(n, j, id, i);
      ServeInOrder(n, j, id, i);
    }
  }

  lemma ServeReaders(n: Net, j: End, id: nat)
    requires TwoEnds(n) && Joined(n, j, id) && |n.ops[id].rest| <= |n.socks[j].inbound|
    ensures Readers(Serve(n, j, id))
  {
    var m := Serve(n, j, id);
    forall i: End
      ensures ReaderOf(m.ops, m.lost, i, m.socks[i])
    {
      assert ReaderOf(n.ops, n.lost, i, n.socks[i]);
    }
    forall k | 0 <= k < |n.ops|
      ensures OpOf(m.ops[k], k, m.socks, m.lost)
    {
      if k != id {
        assert OpOf(n.ops[k], k, n.socks, n.lost);
      }
    }
  }

  lemma JoinedRipe(n: Net, j: End, id: nat)
    requires TwoEnds(n) && Joined(n, j, id) && |n.ops[id].rest| <= |n.socks[j].inbound|
    ensures Ripe(n, j, id)
  {
    assert ReaderOf(n.ops, n.lost, j, n.socks[j]);
    hide Latest, ResumedOf;
    forall k | 0 <= k < |n.ops| && n.ops[k].moved != []
      ensures n.ops[k].ec.Some?
    {
      assert OpOf(n.ops[k], k, n.socks, n.lost);
    }
  }

  lemma RecvKeeps(n: Net, end: End, data: Bytes)
    requires Inv(n) && CanStart(n, data)
    ensures Inv(DoStart(n, end, Receiving, data, false))
  {
    JoinKeeps(n, end, data);
    var id := |n.ops|;
    var m := n.(ops := n.ops + [Io(end, Receiving, [], data, None)]);
    hide Balanced, Readers;
    if |n.socks[end].inbound| >= |data| {
      JoinedRipe(m, end, id);
      ServeReaders(m, end, id);
      ServeBalanced(m, end, id);
    } else {
      ParkKeeps(m, end, id);
    }
    hide Serve, Park, Joined;
  }

  lemma StartKeeps(n: Net, end: End, kind: Kind, data: Bytes, stopped: bool)
    requires Inv(n) && CanStart(n, data)
    ensures Inv(DoStart(n, end, kind, data, stopped))
  {
    hide Inv, DoStart;
    if stopped {
      RefuseKeeps(n, end, kind, data);
    } else if kind == Sending {
      SendKeeps(n, end, data);
    } else {
      RecvKeeps(n, end, data);
    }
  }

  // ---- a reader is served or fails ---------------------------------------------

  /** The reader `id` of socket `j`, which may have enough bytes by now. */
  ghost predicate Due(n: Net, j: End, id: nat)
    requires TwoEnds(n)
  {
    && id < |n.ops| && id !in n.lost && n.ops[id].end == j && n.ops[id].kind == Receiving
    && n.ops[id].ec == None && n.ops[id].moved == [] && n.ops[id].rest != []
    && n.socks[j].reader == Some(id) && ReaderOf(n.ops, n.lost, 1 - j, n.socks[1 - j])
    && OpsOf(n.ops, n.socks, n.lost) && ResumedOf(n.ops, n.resumed)
  }

  /** The reader leaves its socket completed, with `op` for what it is then. */
  lemma LeaveReaders(n: Net, j: End, id: nat, op: Io, sock: Sock)
    requires TwoEnds(n) && Due(n, j, id)
    requires op.end == j && op.kind == Receiving && op.ec.Some? && (op.ec == Some(Success) <==> op.rest == [])
    requires op.ec != Some(Success) ==> op.moved == []
    requires sock.reader == None
    ensures Readers(n.(ops := n.ops[id := op], socks := n.socks[j := sock], resumed := n.resumed + [id]))
  {
    var m := n.(ops := n.ops[id := op], socks := n.socks[j := sock], resumed := n.resumed + [id]);
    forall i: End
      ensures ReaderOf(m.ops, m.lost, i, m.socks[i])
    {
      if i != j {
        assert ReaderOf(n.ops, n.lost, i, n.socks[i]);
      }
    }
    forall k | 0 <= k < |n.ops|
      ensures OpOf(m.ops[k], k, m.socks, m.lost)
    {
      assert OpOf(n.ops[k], k, n.socks, n.lost);
    }
  }

  lemma ReaderLatest(n: Net, j: End, id: nat)
    requires TwoEnds(n) && Balanced(n) && n.socks[j].reader == Some(id)
    ensures id !in n.passed ==> Latest(n.ops, j, id)
  {
    assert InOrder(n, j);
  }

  lemma ReaderRipe(n: Net, j: End, id: nat)
    requires TwoEnds(n) && Due(n, j, id) && |n.ops[id].rest| <= |n.socks[j].inbound|
    requires id !in n.passed ==> Latest(n.ops, j, id)
    ensures Ripe(n, j, id)
  {
    hide Latest, ResumedOf;
    forall k | 0 <= k < |n.ops| && n.ops[k].moved != []
      ensures n.ops[k].ec.Some?
    {
      assert OpOf(n.ops[k], k, n.socks, n.lost);
    }
  }

  lemma ReaderGone(n: Net, j: End)
    requires TwoEnds(n) && Balanced(n)
    ensures Balanced(SetReader(n, j, None))
  {
    var m := SetReader(n, j, None);
    forall i: End
      ensures Conserved(m, i) && InOrder(m, i)
    {
      assert Conserved(n, i) && InOrder(n, i);
    }
  }

  lemma ServeReaderKeeps(n: Net, j: End, id: nat)
    requires TwoEnds(n) && Due(n, j, id) && Balanced(n) && |n.ops[id].rest| <= |n.socks[j].inbound|
    ensures Inv(SetReader(Serve(n, j, id), j, None))
  {
    hide Balanced, Readers, OpsOf, ResumedOf, Latest;
    var op := Advance(n.ops[id], n.socks[j].inbound[..|n.ops[id].rest|]);
    assert n.passed + {} == n.passed;
    ReaderLatest(n, j, id);
    ReaderRipe(n, j, id);
    ServeBalanced(n, j, id);
    ReaderGone(Serve(n, j, id), j);
    var sock := Taken(n.socks[j], |n.ops[id].rest|);
    LeaveReaders(n, j, id, op, sock.(reader := None));
    assert n.socks[j := sock][j := sock.(reader := None)] == n.socks[j := sock.(reader := None)];
  }

  lemma FailFlows(n: Net, j: End, id: nat, e: Code, i: End, kind: Kind)
    requires TwoEnds(n) && ResumedOf(n.ops, n.resumed)
    requires id < |n.ops| && n.ops[id].ec == None && n.ops[id].moved == []
    ensures var m := Fail(n, j, id, e);
            && Flow(m.ops, i, kind) == Flow(n.ops, i, kind)
            && Done(m.ops, m.resumed, i, kind) == Done(n.ops, n.resumed, i, kind)
  {
    var m := Fail(n, j, id, e);
    FlowSame(n.ops, id, m.ops[id], i, kind);
    ResumedDone(n.ops, n.resumed);
    DoneSame(n.ops, m.ops, n.resumed, i, kind);
    DoneSnoc(m.ops, n.resumed, id, i, kind);
  }

  lemma FailBalanced(n: Net, j: End, id: nat, e: Code)
    requires TwoEnds(n) && Balanced(n) && ResumedOf(n.ops, n.resumed)
    requires id < |n.ops| && n.ops[id].ec == None && n.ops[id].moved == []
    ensures Balanced(Fail(n, j, id, e))
  {
    hide Flow, Done, ResumedOf, Ordered, PassedTook;
    var m := Fail(n, j, id, e);
    forall i: End
      ensures Conserved(m, i) && InOrder(m, i)
    {
      assert Conserved(n, i) && InOrder(n, i);
      FailFlows(n, j, id, e, i, Sending);
      FailFlows(n, j, id, e, 1 - i, Receiving);
      FailFlows(n, j, id, e, i, Receiving);
      FailOrdered(n, j, id, e, i);
    }
  }

  lemma FailOrdered(n: Net, j: End, id: nat, e: Code, i: End)
    requires TwoEnds(n) && Ordered(n.ops, n.resumed, n.passed, i)
    requires id < |n.ops| && n.ops[id].moved == []
    ensures var m := Fail(n, j, id, e);
            && Ordered(m.ops, m.resumed, m.passed, i)
            && (PassedTook(m.ops, m.passed, i) <==> PassedTook(n.ops, n.passed, i))
  {
    hide Ordered, PassedTook;
    var m := Fail(n, j, id, e);
    assert !Took(n.ops, id, i);
    assert forall k: nat :: Took(m.ops, k, i) <==> Took(n.ops, k, i);
    OrderedSame(n.ops, n.resumed, n.passed, m.ops, m.resumed, {}, i);
    assert n.passed + {} == n.passed;
  }

  lemma ReaderDue(n: Net, j: End)
    requires Inv(n) && n.socks[j].reader.Some?
    ensures n.socks[j].reader.value < |n.ops| && Due(n, j, n.socks[j].reader.value)
    ensures n.ops[n.socks[j].reader.value].rest != []
  {
    assert ReaderOf(n.ops, n.lost, j, n.socks[j]);
    assert ReaderOf(n.ops, n.lost, 1 - j, n.socks[1 - j]);
    hide Balanced;
  }

  lemma FailKeeps(n: Net, j: End, id: nat, e: Code)
    requires Inv(n) && n.socks[j].reader == Some(id) && e != Success
    ensures id < |n.ops| && Inv(Fail(n, j, id, e))
  {
    ReaderDue(n, j);
    FailBalanced(n, j, id, e);
    LeaveReaders(n, j, id, n.ops[id].(ec := Some(e)), n.socks[j].(reader := None));
    hide Readers, Balanced, Due;
  }

  lemma CancelKeeps(n: Net, id: nat)
    requires Inv(n) && CanCancel(n, id)
    ensures Inv(DoCancel(n, id))
  {
    hide Inv;
    if n.ops[id].ec == None {
      FailKeeps(n, n.ops[id].end, id, OperationAborted);
    }
  }

  lemma CodeKeeps(n: Net, j: End, e: Code)
    requires Inv(n)
    ensures Inv(n.(socks := n.socks[j := n.socks[j].(ec := e)]))
  {
    var socks := n.socks[j := n.socks[j].(ec := e)];
    SameReaders(n, socks);
    CodeBalanced(n, j, e);
    hide Readers, Balanced;
  }

  lemma CodeBalanced(n: Net, j: End, e: Code)
    requires TwoEnds(n) && Balanced(n)
    ensures Balanced(n.(socks := n.socks[j := n.socks[j].(ec := e)]))
  {
    var m := n.(socks := n.socks[j := n.socks[j].(ec := e)]);
    forall i: End
      ensures Conserved(m, i) && InOrder(m, i)
    {
      assert Conserved(n, i) && InOrder(n, i);
    }
  }

  lemma FailReaderKeeps(n: Net, j: End, e: Code)
    requires Inv(n) && e != Success
    ensures Inv(FailReader(n, j, e))
  {
    hide Readers, Balanced;
    if n.socks[j].reader.Some? {
      FailKeeps(n, j, n.socks[j].reader.value, e);
    }
  }

  lemma SetErrorKeeps(n: Net, j: End, e: Code)
    requires Inv(n) && e != Success
    ensures Inv(DoSetError(n, j, e))
  {
    CodeKeeps(n, j, e);
    FailReaderKeeps(n.(socks := n.socks[j := n.socks[j].(ec := e)]), j, e);
    hide Inv, FailReader;
  }

  lemma CloseKeeps(n: Net, j: End)
    requires Inv(n)
    ensures Inv(DoClose(n, j))
  {
    var e := if n.socks[j].ec == Success then Closed else n.socks[j].ec;
    CodeKeeps(n, j, e);
    FailReaderKeeps(n.(socks := n.socks[j := n.socks[j].(ec := e)]), j, OperationAborted);
    hide Inv, FailReader;
  }

  // ---- bytes are carried ----------------------------------------------------------

  lemma TakeKeeps(n: Net, i: End)
    requires Inv(n)
    ensures Inv(DoTake(n, i))
  {
    SameReaders(n, n.socks[i := n.socks[i].(outbound := [])]);
    TakeBalanced(n, i);
    hide Readers, Balanced;
  }

  lemma TakeBalanced(n: Net, i: End)
    requires TwoEnds(n) && Balanced(n)
    ensures Balanced(DoTake(n, i))
  {
    hide Flow, Done;
    var m := DoTake(n, i);
    forall k: End
      ensures Conserved(m, k) && InOrder(m, k)
    {
      assert Conserved(n, k) && InOrder(n, k);
      if k == i {
        var a := Done(n.ops, n.resumed, 1 - k, Receiving) + n.socks[1 - k].inbound;
        assert a + n.hand[k] + n.socks[k].outbound == a + (n.hand[k] + n.socks[k].outbound) + [];
      }
    }
  }

  lemma CarryBalanced(n: Net, j: End, k: nat)
    requires TwoEnds(n) && Balanced(n) && k <= |n.hand[1 - j]|
    ensures Balanced(Carry(n, j, k))
  {
    hide Flow, Done;
    var m := Carry(n, j, k);
    forall i: End
      ensures Conserved(m, i) && InOrder(m, i)
    {
      assert Conserved(n, i) && InOrder(n, i);
      if i == 1 - j {
        assert n.hand[i][..k] + n.hand[i][k..] == n.hand[i];
      }
    }
  }

  lemma CarryReaders(n: Net, j: End, k: nat)
    requires Inv(n) && k <= |n.hand[1 - j]|
    ensures var m := Carry(n, j, k); var r := n.socks[j].reader;
            && (r.Some? ==> r.value < |n.ops| && Due(m, j, r.value))
            && (r == None || |n.ops[r.value].rest| > |m.socks[j].inbound| ==> Readers(m))
  {
    if n.socks[j].reader.Some? {
      ReaderDue(n, j);
    }
    hide Balanced;
    var m := Carry(n, j, k);
    assert ReaderOf(n.ops, n.lost, 1 - j, n.socks[1 - j]);
    assert ReaderOf(n.ops, n.lost, j, n.socks[j]);
    forall id | 0 <= id < |n.ops|
      ensures OpOf(n.ops[id], id, m.socks, m.lost)
    {
      assert OpOf(n.ops[id], id, n.socks, n.lost);
    }
    if n.socks[j].reader == None || |n.ops[n.socks[j].reader.value].rest| > |m.socks[j].inbound| {
      forall i: End
        ensures ReaderOf(m.ops, m.lost, i, m.socks[i])
      {
        if i != j {
          assert i == 1 - j;
        }
      }
    }
  }

  lemma GiveKeeps(n: Net, j: End, k: nat)
    requires Inv(n) && k <= |n.hand[1 - j]|
    ensures Inv(DoGive(n, j, k))
  {
    hide Balanced, Readers, Due;
    var m := Carry(n, j, k);
    CarryBalanced(n, j, k);
    CarryReaders(n, j, k);
    var r := n.socks[j].reader;
    if r.Some? && |n.ops[r.value].rest| <= |m.socks[j].inbound| {
      ServeReaderKeeps(m, j, r.value);
      hide Serve, SetReader;
    }
  }

  // ---- runs ---------------------------------------------------------------------

  datatype Step =
    | Start(end: End, kind: Kind, data: Bytes, stopped: bool)
    | Stop(id: nat)
    | Take(end: End)
    | Give(end: End, k: nat)
    | SetError(end: End, e: Code)
    | Close(end: End)

  predicate Enabled(n: Net, st: Step) {
    TwoEnds(n)
    && match st
       case Start(_, _, data, _) => CanStart(n, data)
       case Stop(id) => CanCancel(n, id)
       case Take(_) => true
       case Give(end, k) => k <= |n.hand[1 - end]|
       case SetError(_, e) => e != Success
       case Close(_) => true
  }

  function Apply(n: Net, st: Step): Net
    requires Enabled(n, st)
  {
    match st
    case Start(end, kind, data, stopped) => DoStart(n, end, kind, data, stopped)
    case Stop(id) => DoCancel(n, id)
    case Take(end) => DoTake(n, end)
    case Give(end, k) => DoGive(n, end, k)
    case SetError(end, e) => DoSetError(n, end, e)
    case Close(end) => DoClose(n, end)
  }

  ghost predicate Runs(n: Net, steps: seq<Step>, m: Net)
    decreases |steps|
  {
    if steps == [] then n == m
    else Enabled(n, steps[0]) && Runs(Apply(n, steps[0]), steps[1..], m)
  }

  lemma StepKeeps(n: Net, st: Step)
    requires Inv(n) && Enabled(n, st)
    ensures Inv(Apply(n, st))
  {
    hide Inv, DoStart, DoCancel, DoTake, DoGive, DoSetError, DoClose;
    match st
    case Start(end, kind, data, stopped) => StartKeeps(n, end, kind, data, stopped);
    case Stop(id) => CancelKeeps(n, id);
    case Take(end) => TakeKeeps(n, end);
    case Give(end, k) => GiveKeeps(n, end, k);
    case SetError(end, e) => SetErrorKeeps(n, end, e);
    case Close(end) => CloseKeeps(n, end);
  }

  lemma {:induction false} RunKeeps(n: Net, steps: seq<Step>, m: Net)
    requires Inv(n) && Runs(n, steps, m)
    ensures Inv(m)
    decreases |steps|
  {
    hide Inv, Apply, Enabled;
    if steps != [] {
      StepKeeps(n, steps[0]);
      RunKeeps(Apply(n, steps[0]), steps[1..], m);
    }
  }

  lemma EmptyInv()
    ensures Inv(Empty())
  {
    hide CallOrder, PassedTook, PassedBy;
    assert forall j: End :: Ordered([], [], {}, j) by {
      forall j: End
        ensures Ordered([], [], {}, j)
      {
        NoneOrdered(j);
      }
    }
  }

  lemma NoneOrdered(j: End)
    ensures Ordered([], [], {}, j)
  {
  }

  /** Conservation: after any run, with the bytes carried in order and in any chunks, the
      bytes one end sent are those its peer has received, in the order its recvs completed,
      then the peer's inbound buffer, then those in hand, then its own outbound buffer. */
  lemma Conservation(steps: seq<Step>, n: Net, i: End)
    requires Runs(Empty(), steps, n)
    ensures TwoEnds(n)
    ensures Flow(n.ops, i, Sending)
            == Done(n.ops, n.resumed, 1 - i, Receiving) + n.socks[1 - i].inbound + n.hand[i] + n.socks[i].outbound
  {
    hide Runs, Readers;
    EmptyInv();
    RunKeeps(Empty(), steps, n);
    assert Conserved(n, i) && InOrder(n, i);
  }

  /** The recvs of an end that take bytes complete in the order of their calls exactly if no
      reader past which another recv was served has taken any; then what they were given, in
      the order of the calls, is what was received. */
  lemma RecvOrder(steps: seq<Step>, n: Net, j: End)
    requires Runs(Empty(), steps, n)
    ensures CallOrder(n.ops, n.resumed, j) <==> forall id :: id in n.passed ==> !Took(n.ops, id, j)
    ensures CallOrder(n.ops, n.resumed, j) ==> Flow(n.ops, j, Receiving) == Done(n.ops, n.resumed, j, Receiving)
  {
    hide Runs, Readers, CallOrder;
    EmptyInv();
    RunKeeps(Empty(), steps, n);
    assert InOrder(n, j);
  }

  // The states of the run of OutOfOrder.

  function Sent(moved: Bytes): Io {
    Io(0, Sending, moved, [], Some(Success))
  }

  function Arrived(): Net {
    Net([Fresh(), Fresh().(inbound := [1])], [Sent([1])], [[], []], [0], {}, {})
  }

  function Waiting(): Net {
    Net([Fresh(), Fresh().(inbound := [1], reader := Some(1))],
        [Sent([1]), Io(1, Receiving, [], [0, 0], None)], [[], []], [0], {}, {})
  }

  function ServedPast(): Net {
    Net([Fresh(), Fresh().(reader := Some(1))],
        [Sent([1]), Io(1, Receiving, [], [0, 0], None), Io(1, Receiving, [1], [], Some(Success))],
        [[], []], [0, 2], {}, {1})
  }

  function ServedLate(): Net {
    Net([Fresh(), Fresh()],
        [Sent([1]), Io(1, Receiving, [2, 3], [], Some(Success)), Io(1, Receiving, [1], [], Some(Success)),
         Sent([2, 3])],
        [[], []], [0, 2, 3, 1], {}, {1})
  }

  lemma AllSent(data: Bytes)
    requires data != []
    ensures Advance(Io(0, Sending, [], data, None), data) == Sent(data)
    ensures Queued(Fresh(), data) == Fresh().(outbound := data)
  {
    assert data[|data|..] == [] && [] + data == data;
  }

  lemma FirstByte()
    ensures Runs(Empty(), [Start(0, Sending, [1], false), Take(0), Give(1, 1)], Arrived())
  {
    var n := Empty();
    AllSent([1]);
    var a := DoStart(n, 0, Sending, [1], false);
    assert a.socks == [Fresh().(outbound := [1]), Fresh()] && a.ops == [Sent([1])] && a.resumed == [0];
    var b := DoTake(a, 0);
    assert [] + [1] == [1];
    assert b.socks == [Fresh(), Fresh()] && b.hand == [[1], []];
    assert [1][..1] == [1] && [1][1..] == [];
    var c := DoGive(b, 1, 1);
    assert c.socks == Arrived().socks && c.hand == Arrived().hand;
    RunThree(n, Start(0, Sending, [1], false), a, Take(0), b, Give(1, 1), c);
  }

  lemma TwoRecvs()
    ensures CanStart(Arrived(), [0, 0]) && DoStart(Arrived(), 1, Receiving, [0, 0], false) == Waiting()
    ensures CanStart(Waiting(), [0]) && DoStart(Waiting(), 1, Receiving, [0], false) == ServedPast()
  {
    var n := Arrived();
    var a := DoStart(n, 1, Receiving, [0, 0], false);
    assert a.ops == Waiting().ops && a.socks == Waiting().socks;
    var b := DoStart(a, 1, Receiving, [0], false);
    var io := Io(1, Receiving, [], [0], None);
    assert [1][..1] == [1] && [1][1..] == [] && [0][1..] == [] && [] + [1] == [1];
    assert Advance(io, [1]) == Io(1, Receiving, [1], [], Some(Success));
    assert b.ops == ServedPast().ops && b.socks == ServedPast().socks && b.resumed == ServedPast().resumed;
  }

  lemma LaterBytes()
    ensures Runs(ServedPast(), [Start(0, Sending, [2, 3], false), Take(0), Give(1, 2)], ServedLate())
  {
    var n := ServedPast();
    AllSent([2, 3]);
    var a := DoStart(n, 0, Sending, [2, 3], false);
    assert a.socks == [Fresh().(outbound := [2, 3]), n.socks[1]] && a.ops == n.ops + [Sent([2, 3])];
    assert a.resumed == [0, 2, 3];
    var b := DoTake(a, 0);
    assert [] + [2, 3] == [2, 3];
    assert b.socks == n.socks && b.hand == [[2, 3], []];
    var c := DoGive(b, 1, 2);
    assert [2, 3][..2] == [2, 3] && [2, 3][2..] == [] && [0, 0][2..] == [];
    var io := Io(1, Receiving, [], [0, 0], None);
    assert Advance(io, [2, 3]) == Io(1, Receiving, [2, 3], [], Some(Success));
    assert c.ops == ServedLate().ops && c.socks == ServedLate().socks && c.hand == ServedLate().hand;
    assert c.resumed == ServedLate().resumed && c.passed == {1};
    RunThree(n, Start(0, Sending, [2, 3], false), a, Take(0), b, Give(1, 2), c);
  }

  lemma RunThree(a: Net, x: Step, b: Net, y: Step, c: Net, z: Step, d: Net)
    requires Enabled(a, x) && b == Apply(a, x) && Enabled(b, y) && c == Apply(b, y)
    requires Enabled(c, z) && d == Apply(c, z)
    ensures Runs(a, [x, y, z], d)
  {
    hide Enabled, Apply;
    assert [x, y, z][1..] == [y, z] && [y, z][1..] == [z] && [z][1..] == [];
    assert Runs(d, [], d) && Runs(c, [z], d) && Runs(b, [y, z], d);
  }

  lemma {:induction false} RunThen(a: Net, more: seq<Step>, b: Net, steps: seq<Step>, c: Net)
    requires Runs(a, more, b) && Runs(b, steps, c)
    ensures Runs(a, more + steps, c)
    decreases |more|
  {
    hide Enabled, Apply;
    if more == [] {
      assert more + steps == steps;
    } else {
      RunThen(Apply(a, more[0]), more[1..], b, steps, c);
      assert (more + steps)[1..] == more[1..] + steps;
    }
  }

  /** A recv of two bytes parks with one byte there, a recv of one byte is served past it,
      and the next two bytes go to the first: the bytes given to the recvs, in the order of
      the calls, are not those sent. */
  lemma OutOfOrder() returns (steps: seq<Step>, n: Net)
    ensures Runs(Empty(), steps, n)
    ensures Flow(n.ops, 0, Sending) == [1, 2, 3] && Flow(n.ops, 1, Receiving) == [2, 3, 1]
    ensures n.passed == {1} && n.resumed == [0, 2, 3, 1]
  {
    FirstByte();
    TwoRecvs();
    LaterBytes();
    hide Runs, DoStart;
    var first := [Start(0, Sending, [1], false), Take(0), Give(1, 1)];
    var recvs := [Start(1, Receiving, [0, 0], false), Start(1, Receiving, [0], false)];
    RunTwo(Arrived(), recvs[0], Waiting(), recvs[1], ServedPast());
    RunThen(Empty(), first, Arrived(), recvs, ServedPast());
    n := ServedLate();
    RunThen(Empty(), first + recvs, ServedPast(), [Start(0, Sending, [2, 3], false), Take(0), Give(1, 2)], n);
    steps := first + recvs + [Start(0, Sending, [2, 3], false), Take(0), Give(1, 2)];
    LateFlows();
  }

  lemma LateFlows()
    ensures Flow(ServedLate().ops, 0, Sending) == [1, 2, 3] && Flow(ServedLate().ops, 1, Receiving) == [2, 3, 1]
  {
    var a, b, c, d := ServedLate().ops[0], ServedLate().ops[1], ServedLate().ops[2], ServedLate().ops[3];
    assert ServedLate().ops == [] + [a] + [b] + [c] + [d];
    forall end: End, kind: Kind
      ensures Flow(ServedLate().ops, end, kind) == Flow([], end, kind)
              + (if a.end == end && a.kind == kind then a.moved else [])
              + (if b.end == end && b.kind == kind then b.moved else [])
              + (if c.end == end && c.kind == kind then c.moved else [])
              + (if d.end == end && d.kind == kind then d.moved else [])
    {
      FlowSnoc([], a, end, kind);
      FlowSnoc([] + [a], b, end, kind);
      FlowSnoc([] + [a] + [b], c, end, kind);
      FlowSnoc([] + [a] + [b] + [c], d, end, kind);
    }
  }

  lemma RunTwo(a: Net, x: Step, b: Net, y: Step, c: Net)
    requires Enabled(a, x) && b == Apply(a, x) && Enabled(b, y) && c == Apply(b, y)
    ensures Runs(a, [x, y], c)
  {
    hide Enabled, Apply;
    assert [x, y][1..] == [y] && [y][1..] == [];
    assert Runs(c, [], c) && Runs(b, [y], c);
  }

  /** A parked reader always wants more than is buffered; an operation succeeds exactly
      when it has moved its whole span, and otherwise moves nothing; it is resumed
      exactly once, when it completes; one is pending exactly if it is the parked reader
      or another recv has taken its place. */
  lemma Completion(steps: seq<Step>, n: Net, id: nat, j: End)
    requires Runs(Empty(), steps, n)
    ensures TwoEnds(n)
    ensures n.socks[j].reader.Some? ==>
              n.socks[j].reader.value < |n.ops|
              && |n.ops[n.socks[j].reader.value].rest| > |n.socks[j].inbound|
    ensures id < |n.ops| ==>
              && (n.ops[id].ec == Some(Success) <==> n.ops[id].rest == [])
              && (n.ops[id].ec != Some(Success) ==> n.ops[id].moved == [])
              && (n.ops[id].ec == None <==> n.socks[n.ops[id].end].reader == Some(id) || id in n.lost)
    ensures multiset(n.resumed)[id] == if id < |n.ops| && n.ops[id].ec.Some? then 1 else 0
  {
    hide Runs, Balanced;
    EmptyInv();
    RunKeeps(Empty(), steps, n);
    assert ReaderOf(n.ops, n.lost, j, n.socks[j]);
    assert id < |n.ops| ==> OpOf(n.ops[id], id, n.socks, n.lost);
  }

  lemma LostStays(n: Net, st: Step)
    requires Enabled(n, st)
    ensures n.lost <= Apply(n, st).lost
  {
    hide Advance;
  }

  lemma {:induction false} LostRun(n: Net, steps: seq<Step>, m: Net)
    requires Runs(n, steps, m)
    ensures n.lost <= m.lost
    decreases |steps|
  {
    hide Apply, Enabled;
    if steps != [] {
      LostStays(n, steps[0]);
      LostRun(Apply(n, steps[0]), steps[1..], m);
    }
  }

  /** A reader whose place another recv has taken is never resumed, whatever comes. */
  lemma LostForever(steps: seq<Step>, n: Net, more: seq<Step>, m: Net, id: nat)
    requires Runs(Empty(), steps, n) && Runs(n, more, m) && id in n.lost
    ensures id < |m.ops| && m.ops[id].ec == None && id !in m.resumed && !CanCancel(m, id)
  {
    hide Runs, Balanced;
    EmptyInv();
    RunKeeps(Empty(), steps, n);
    RunKeeps(n, more, m);
    LostRun(n, more, m);
    assert OpOf(m.ops[id], id, m.socks, m.lost);
    assert ReaderOf(m.ops, m.lost, m.ops[id].end, m.socks[m.ops[id].end]);
    ResumedDone(m.ops, m.resumed);
  }

  /** Which steps there are: any operation with a span that is not empty can start, any part
      of the bytes taken can be given, and a stop callback fails exactly for a pending reader
      whose place another recv has taken. */
  lemma StepsOpen(steps: seq<Step>, n: Net, st: Step)
    requires Runs(Empty(), steps, n)
    ensures TwoEnds(n)
    ensures Enabled(n, st) <==>
              match st
              case Start(_, _, data, _) => data != []
              case Stop(id) => id < |n.ops| && id !in n.lost
              case Take(_) => true
              case Give(end, k) => k <= |n.hand[1 - end]|
              case SetError(_, e) => e != Success
              case Close(_) => true
  {
    EmptyInv();
    RunKeeps(Empty(), steps, n);
    hide Runs, Balanced;
    if st.Stop? && st.id < |n.ops| {
      var id := st.id;
      assert OpOf(n.ops[id], id, n.socks, n.lost);
      assert ReaderOf(n.ops, n.lost, n.ops[id].end, n.socks[n.ops[id].end]);
    }
  }

  /** Two recvs on a fresh pair: the second takes the place of the first. */
  lemma SecondReader()
    ensures var n := DoStart(DoStart(Empty(), 0, Receiving, [0], false), 0, Receiving, [0], false);
            n.socks[0].reader == Some(1) && n.lost == {0}
  {
    var n := DoStart(Empty(), 0, Receiving, [0], false);
    assert n.socks[0].reader == Some(0) && |n.ops| == 1;
  }

  // ---- after close ----------------------------------------------------------------

  /** close is said to cancel all future requests. It does so for a request exactly when
      the request would have been cancelled without it: if its stop token had fired. */
  lemma CloseCancelsFuture(n: Net, end: End, kind: Kind, data: Bytes, stopped: bool)
    requires CanStart(n, data)
    ensures var m := DoStart(DoClose(n, end), end, kind, data, stopped); var id := |DoClose(n, end).ops|;
            && id < |m.ops|
            && (m.ops[id].ec.Some? && m.ops[id].ec != Some(Success) <==> stopped)
            && (m.ops[id].ec == Some(Success) <==> !stopped && (kind == Sending || |data| <= |n.socks[end].inbound|))
            && (m.ops[id].ec == None <==> !stopped && kind == Receiving && |data| > |n.socks[end].inbound|)
  {
    CloseBytes(n, end);
    hide DoClose;
    if stopped {
    } else if kind == Sending {
    } else if |data| <= |n.socks[end].inbound| {
    }
  }

  lemma CloseBytes(n: Net, end: End)
    requires TwoEnds(n)
    ensures TwoEnds(DoClose(n, end)) && DoClose(n, end).socks[end].inbound == n.socks[end].inbound
  {
  }

  /** After close on a fresh pair a send succeeds and a recv parks. */
  lemma RequestsAfterClose()
    ensures var n := DoClose(Empty(), 0);
            && CanStart(n, [7]) && CanStart(n, [0])
            && DoStart(n, 0, Sending, [7], false).ops[0].ec == Some(Success)
            && DoStart(n, 0, Sending, [7], false).socks[0].outbound == [7]
            && DoStart(n, 0, Receiving, [0], false).ops[0].ec == None
            && DoStart(n, 0, Receiving, [0], false).socks[0].reader == Some(0)
  {
    var n := DoClose(Empty(), 0);
    assert n.socks[0] == Sock(Closed, None, [], []);
  }

  // ---- which code a recv gets -------------------------------------------------------

  /** What a step does to a pending recv: bytes for its end complete it, with success and its
      whole span, exactly if there are then enough and it is the parked reader; its own stop
      callback and a close of its socket abort it, the first error of its socket fails it with
      that error, and nothing else completes it. */
  lemma Outcome(n: Net, st: Step, id: nat)
    requires Inv(n) && Enabled(n, st) && id < |n.ops| && n.ops[id].ec == None
    ensures id < |Apply(n, st).ops|
    ensures var j, op := n.ops[id].end, Apply(n, st).ops[id];
            var parked := n.socks[j].reader == Some(id);
            match st
            case Start(_, _, _, _) => op == n.ops[id]
            case Stop(k) => op == n.ops[id].(ec := if k == id then Some(OperationAborted) else None)
            case Take(_) => op == n.ops[id]
            case Give(end, k) =>
              op.ec == if end == j && parked && |n.ops[id].rest| <= |n.socks[j].inbound| + k then Some(Success) else None
            case SetError(end, e) =>
              op == n.ops[id].(ec := if end == j && parked && n.socks[j].ec == Success then Some(e) else None)
            case Close(end) => op == n.ops[id].(ec := if end == j && parked then Some(OperationAborted) else None)
  {
    hide Balanced;
    var j := n.ops[id].end;
    assert OpOf(n.ops[id], id, n.socks, n.lost);
    assert ReaderOf(n.ops, n.lost, 0, n.socks[0]) && ReaderOf(n.ops, n.lost, 1, n.socks[1]);
    match st
    case Start(end, kind, data, stopped) => StartOthers(n, end, kind, data, stopped, id);
    case Stop(k) =>
    case Take(end) =>
    case Give(end, k) => GiveOutcome(n, end, k, id);
    case SetError(end, e) =>
    case Close(end) =>
  }

  lemma StartOthers(n: Net, end: End, kind: Kind, data: Bytes, stopped: bool, id: nat)
    requires CanStart(n, data) && id < |n.ops|
    ensures id < |DoStart(n, end, kind, data, stopped).ops| && DoStart(n, end, kind, data, stopped).ops[id] == n.ops[id]
  {
    hide Advance;
  }

  lemma GiveOutcome(n: Net, end: End, k: nat, id: nat)
    requires TwoEnds(n) && k <= |n.hand[1 - end]| && id < |n.ops| && n.ops[id].ec == None
    requires n.socks[end].reader.Some? ==>
               n.socks[end].reader.value < |n.ops| && n.ops[n.socks[end].reader.value].end == end
    ensures id < |DoGive(n, end, k).ops|
    ensures DoGive(n, end, k).ops[id].ec
            == if n.socks[end].reader == Some(id) && |n.ops[id].rest| <= |n.socks[end].inbound| + k
               then Some(Success) else None
  {
  }

  /** The error of a socket: the first it was given, closed if that was a close; once there is
      one it stays. */
  lemma SocketError(n: Net, st: Step, j: End)
    requires TwoEnds(n) && Enabled(n, st)
    ensures TwoEnds(Apply(n, st))
    ensures Apply(n, st).socks[j].ec
            == if n.socks[j].ec != Success then n.socks[j].ec
               else if st.SetError? && st.end == j then st.e
               else if st.Close? && st.end == j then Closed
               else Success
  {
    hide Advance;
  }
}
