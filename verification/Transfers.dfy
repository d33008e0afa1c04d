/** Transfers between two connected ends: what one call of send or recv has moved, and
    the bytes all calls of one kind at one end have moved, in order. */
module Transfers {
  import opened Common

  type End = i: int | 0 <= i < 2

  datatype Kind = Sending | Receiving

  /** One call of send or recv: the part of its buffer that has been transferred, the
      span `mData` that is left, and `mEc`, which is set when it completes. */
  datatype Io = Io(end: End, kind: Kind, moved: Bytes, rest: Bytes, ec: Option<Code>)

  /** The end the bytes of an operation flow to. */
  function Dest(end: End, kind: Kind): End {
    if kind == Sending then 1 - end else end
  }

  /** An operation takes `bytes` of its span; with nothing left it succeeds. */
  function Advance(op: Io, bytes: Bytes): Io
    requires |bytes| <= |op.rest|
  {
    var rest := op.rest[|bytes|..];
    op.(moved := op.moved + bytes, rest := rest, ec := if rest == [] then Some(Success) else op.ec)
  }

  /** Every operation that has completed was resumed, once; no other was. */
  ghost predicate ResumedOf(ops: seq<Io>, resumed: seq<nat>) {
    forall id: nat :: multiset(resumed)[id] == if id < |ops| && ops[id].ec.Some? then 1 else 0
  }

  /** The bytes transferred by the operations of one kind at one end, in order. */
  function Flow(ops: seq<Io>, end: End, kind: Kind): Bytes {
    if ops == [] then []
    else
      var op := ops[|ops| - 1];
      Flow(ops[..|ops| - 1], end, kind) + (if op.end == end && op.kind == kind then op.moved else [])
  }

  lemma FlowSnoc(ops: seq<Io>, op: Io, end: End, kind: Kind)
    ensures Flow(ops + [op], end, kind)
            == Flow(ops, end, kind) + if op.end == end && op.kind == kind then op.moved else []
  {
    assert (ops + [op])[..|ops|] == ops;
  }

  /** Bytes moved by the last operation of its end and kind that has moved any come last
      in its flow. */
  lemma {:induction false} FlowAdvance(ops: seq<Io>, id: nat, op: Io, more: Bytes, end: End, kind: Kind)
    requires id < |ops| && op.end == ops[id].end && op.kind == ops[id].kind
    requires op.moved == ops[id].moved + more
    requires forall j :: id < j < |ops| && ops[j].kind == op.kind && ops[j].end == op.end ==> ops[j].moved == []
    ensures Flow(ops[id := op], end, kind)
            == Flow(ops, end, kind) + if op.end == end && op.kind == kind then more else []
    decreases |ops|
  {
    hide Flow;
    var n := |ops| - 1;
    var ops' := ops[id := op];
    FlowSnoc(ops[..n], ops[n], end, kind);
    FlowSnoc(ops'[..n], ops'[n], end, kind);
    assert ops == ops[..n] + [ops[n]] && ops' == ops'[..n] + [ops'[n]];
    if id == n {
      assert ops'[..n] == ops[..n];
    } else {
      FlowAdvance(ops[..n], id, op, more, end, kind);
      assert ops'[..n] == ops[..n][id := op];
    }
  }

  /** What an operation has left, or how it ends, does not matter; nor does it matter to
      the flow of another kind or end what it moves. */
  lemma {:induction false} FlowSame(ops: seq<Io>, id: nat, op: Io, end: End, kind: Kind)
    requires id < |ops| && op.end == ops[id].end && op.kind == ops[id].kind
    requires op.moved == ops[id].moved || op.kind != kind || op.end != end
    ensures Flow(ops[id := op], end, kind) == Flow(ops, end, kind)
    decreases |ops|
  {
    var n := |ops| - 1;
    var ops' := ops[id := op];
    if id == n {
      assert ops'[..n] == ops[..n];
    } else {
      FlowSame(ops[..n], id, op, end, kind);
      assert ops'[..n] == ops[..n][id := op];
    }
  }

  /** The bytes transferred by the operations of one kind at one end, in the order in which
      they completed. */
  function Done(ops: seq<Io>, resumed: seq<nat>, end: End, kind: Kind): Bytes {
    if resumed == [] then []
    else
      var n := |resumed| - 1;
      Done(ops, resumed[..n], end, kind)
      + (if resumed[n] < |ops| && ops[resumed[n]].end == end && ops[resumed[n]].kind == kind
         then ops[resumed[n]].moved else [])
  }

  lemma DoneSnoc(ops: seq<Io>, resumed: seq<nat>, id: nat, end: End, kind: Kind)
    requires id < |ops|
    ensures Done(ops, resumed + [id], end, kind)
            == Done(ops, resumed, end, kind)
               + if ops[id].end == end && ops[id].kind == kind then ops[id].moved else []
  {
    assert (resumed + [id])[..|resumed|] == resumed;
  }

  lemma DoneNone(ops: seq<Io>, more: seq<Io>, end: End, kind: Kind)
    ensures Done(more, [], end, kind) == Done(ops, [], end, kind)
  {
  }

  /** Only the operations that have completed matter. */
  lemma {:induction false} DoneSame(ops: seq<Io>, more: seq<Io>, resumed: seq<nat>, end: End, kind: Kind)
    requires |ops| <= |more| && forall id :: id in resumed ==> id < |ops| && more[id] == ops[id]
    ensures Done(more, resumed, end, kind) == Done(ops, resumed, end, kind)
    decreases |resumed|
  {
    hide Done;
    if resumed == [] {
      DoneNone(ops, more, end, kind);
    } else {
      var n := |resumed| - 1;
      assert resumed == resumed[..n] + [resumed[n]] && resumed[n] in resumed;
      assert forall id :: id in resumed[..n] ==> id in resumed;
      DoneSame(ops, more, resumed[..n], end, kind);
      DoneSnoc(ops, resumed[..n], resumed[n], end, kind);
      DoneSnoc(more, resumed[..n], resumed[n], end, kind);
    }
  }

  /** The operations resumed have completed. */
  lemma ResumedDone(ops: seq<Io>, resumed: seq<nat>)
    requires ResumedOf(ops, resumed)
    ensures forall id :: id in resumed ==> id < |ops| && ops[id].ec.Some?
  {
    forall id | id in resumed
      ensures id < |ops| && ops[id].ec.Some?
    {
      assert multiset(resumed)[id] > 0;
    }
  }
}
