/** The intrusive list of sends the send task walks, as the code keeps it: `mNext` and
    `mPrev` in each operation, `mSendBufferBegin` and `mSendBufferLast` beside it. */
module SendList {
  import opened Scheduler

  /** A send operation: its place in the list, and the fork it belongs to. */
  class SendNode {
    const op: OpId
    const fork: nat
    var next: SendNode?
    var prev: SendNode?

    constructor (op: OpId, fork: nat)
      ensures this.op == op && this.fork == fork && next == null && prev == null
    {
      this.op, this.fork, next, prev := op, fork, null, null;
    }

    method SetNext(n: SendNode?)
      modifies this`next, (if n == null then {} else {n})`prev
      ensures next == n && (n != null ==> n.prev == this)
    {
      next := n;
      if n != null {
        n.prev := this;
      }
    }
  }

  /** The operations of a list of nodes. */
  ghost function Ops(ns: seq<SendNode>): (r: seq<OpId>)
    ensures |r| == |ns|
  {
    seq(|ns|, i requires 0 <= i < |ns| => ns[i].op)
  }

  class SendList {
    var first: SendNode?
    var last: SendNode?
    ghost var nodes: seq<SendNode>  // what is reached from `first`

    /** The links are those of the doubly linked list `nodes`. The head's `prev` is the
        operation completed before it and is never followed. */
    ghost predicate Valid()
      reads this, nodes
    {
      && (forall i, j :: 0 <= i < j < |nodes| ==> nodes[i] != nodes[j])
      && first == (if nodes == [] then null else nodes[0])
      && (first == null <==> last == null)
      && (forall i :: 0 <= i < |nodes| - 1 ==> last != nodes[i])
      && (forall i :: 0 <= i < |nodes| - 1 ==> nodes[i].next == nodes[i + 1])
      && (nodes != [] ==> nodes[|nodes| - 1].next == null)
      && (forall i :: 0 < i < |nodes| ==> nodes[i].prev == nodes[i - 1])
    }

    /** `last` is the last node that is reached. */
    ghost predicate Tailed()
      reads this
    {
      nodes != [] ==> last == nodes[|nodes| - 1]
    }

    ghost function Order(): seq<OpId>
      reads this
    {
      Ops(nodes)
    }

    constructor ()
      ensures Valid() && Tailed() && nodes == []
    {
      first, last, nodes := null, null, [];
    }

    /** The list part of send. The operation is reached by the send task exactly when
        `last` was; otherwise it is linked to an operation that has been erased. */
    method Append(n: SendNode)
      requires Valid() && n !in nodes && n != last && n.next == null
      modifies this, last, n
      ensures Valid() && last == n
      ensures nodes == if old(Tailed()) then old(nodes) + [n] else old(nodes)
      ensures Order() == if old(Tailed()) then old(Order()) + [n.op] else old(Order())
      ensures Tailed() <==> old(Tailed())
      ensures n.next == null
    {
      if first == null {
        first, last := n, n;
        nodes := [n];
      } else {
        LinkBehind(n);
      }
      hide Valid;
    }

    method LinkBehind(n: SendNode)
      requires Valid() && nodes != [] && n !in nodes && n != last && n.next == null
      modifies this`last, this`nodes, last, n
      ensures Valid() && last == n && n.next == null
      ensures nodes == if old(last) == old(nodes)[|old(nodes)| - 1] then old(nodes) + [n] else old(nodes)
    {
      ghost var reached := last == nodes[|nodes| - 1];
      last.SetNext(n);
      last := n;
      nodes := if reached then nodes + [n] else nodes;
    }

    /** completePrev: the head leaves the list; when it was alone `last` is reset too. */
    method CompleteHead() returns (op: OpId)
      requires Valid() && nodes != []
      modifies this, nodes
      ensures Valid() && nodes == old(nodes)[1..]
      ensures op == old(Order())[0] && Order() == old(Order())[1..]
      ensures Tailed() <==> old(Tailed()) || |old(nodes)| == 1
      ensures last == if nodes == [] then null else old(last)
    {
      var head := first;
      op := head.op;
      var next := head.next;
      assert |nodes| > 1 ==> next == nodes[1];
      head.SetNext(null);
      first := next;
      if next == null {
        last := null;
      }
      nodes := nodes[1..];
    }

    /** The stop callback: the neighbours of an operation that has not started are
        linked to each other. `last` is not moved, so it stays right exactly when the
        operation was not the last one. */
    method Cancel(n: SendNode, ghost i: nat)
      requires Valid() && 0 < i < |nodes| && nodes[i] == n
      modifies nodes
      modifies this`nodes
      ensures Valid() && nodes == old(nodes)[..i] + old(nodes)[i + 1..]
      ensures Order() == old(Order())[..i] + old(Order())[i + 1..]
      ensures n !in nodes && last == old(last)
      ensures Tailed() <==> old(Tailed()) && i < |old(nodes)| - 1
    {
      Bypass(n, i);
      hide Valid;
    }

    method Bypass(n: SendNode, ghost i: nat)
      requires Valid() && 0 < i < |nodes| && nodes[i] == n
      modifies nodes
      modifies this`nodes
      ensures Valid() && nodes == old(nodes)[..i] + old(nodes)[i + 1..] && n !in nodes
      ensures forall k :: 0 <= k < |old(nodes)| - 1 ==> old(nodes)[k] != last
    {
      assert i < |nodes| - 1 ==> n.next == nodes[i + 1];
      assert n.prev == nodes[i - 1];
      n.prev.SetNext(n.next);
      nodes := nodes[..i] + nodes[i + 1..];
    }

    /** cancel takes the whole list: the operations keep their links. */
    method Take() returns (n: SendNode?)
      requires Valid()
      modifies this
      ensures Valid() && Tailed() && nodes == [] && first == null && last == null
      ensures n == if old(nodes) == [] then null else old(nodes)[0]
    {
      n := first;
      first, last, nodes := null, null, [];
    }

    method Size() returns (n: nat)
      requires Valid()
      ensures n == |nodes|
    {
      n := 0;
      var iter := first;
      while iter != null
        invariant n <= |nodes| && iter == (if n == |nodes| then null else nodes[n])
        decreases |nodes| - n
      {
        iter := iter.next;
        n := n + 1;
      }
    }
  }

  // ---- any sequence of calls --------------------------------------------------

  /** A call on the list: a cancel of the head or past the end is not made. */
  datatype Call = Append(op: OpId) | Unlink(i: nat) | Complete

  /** What a list is to its callers: the operations reached, whether the next one appended
      will be reached too, and the operations completed so far. */
  datatype Plain = Plain(order: seq<OpId>, tailed: bool, done: seq<OpId>)

  function PlainCall(p: Plain, call: Call): Plain {
    match call
    case Append(op) => if p.tailed then p.(order := p.order + [op]) else p
    case Unlink(i) =>
      if 0 < i < |p.order|
      then p.(order := p.order[..i] + p.order[i + 1..], tailed := p.tailed && i < |p.order| - 1) else p
    case Complete =>
      if p.order == [] then p
      else Plain(p.order[1..], p.tailed || |p.order| == 1, p.done + [p.order[0]])
  }

  function PlainRun(calls: seq<Call>): Plain {
    if calls == [] then Plain([], true, [])
    else PlainCall(PlainRun(calls[..|calls| - 1]), calls[|calls| - 1])
  }

  /** The node at place `i`. */
  method Find(list: SendList, i: nat) returns (n: SendNode)
    requires list.Valid() && i < |list.nodes|
    ensures n == list.nodes[i]
  {
    n := list.first;
    for k := 0 to i
      invariant n == list.nodes[k]
    {
      assert list.nodes[k].next == list.nodes[k + 1];
      n := n.next;
    }
  }

  method Make(list: SendList, call: Call) returns (done: seq<OpId>)
    requires list.Valid()
    modifies list, list.last, list.nodes
    ensures list.Valid()
    ensures forall n :: n in list.nodes ==> n in old(list.nodes) || fresh(n)
    ensures list.last == null || list.last == old(list.last) || fresh(list.last)
    ensures forall old_done ::
              Plain(list.Order(), list.Tailed(), old_done + done)
              == PlainCall(Plain(old(list.Order()), old(list.Tailed()), old_done), call)
  {
    done := [];
    match call
    case Append(op) =>
      var n := new SendNode(op, 0);
      list.Append(n);
    case Unlink(i) =>
      var size := list.Size();
      if 0 < i < size {
        var n := Find(list, i);
        list.Cancel(n, i);
      }
    case Complete =>
      if list.first != null {
        var op := list.CompleteHead();
        done := [op];
      }
  }

  /** For any sequence of calls the links hold what the plain sequence holds. */
  method Replay(calls: seq<Call>) returns (list: SendList, done: seq<OpId>)
    ensures fresh(list) && list.Valid()
    ensures Plain(list.Order(), list.Tailed(), done) == PlainRun(calls)
  {
    hide PlainCall;
    list := new SendList();
    done := [];
    for k := 0 to |calls|
      invariant fresh(list) && list.Valid()
      invariant forall n :: n in list.nodes ==> fresh(n)
      invariant list.last == null || fresh(list.last)
      invariant Plain(list.Order(), list.Tailed(), done) == PlainRun(calls[..k])
    {
      assert calls[..k + 1][..k] == calls[..k];
      assert forall i :: 0 <= i < |list.nodes| ==> list.nodes[i] in list.nodes;
      ghost var was, last := list.nodes, list.last;
      label L:
      var more := Make(list, calls[k]);
      done := done + more;
      assert list.last != null && list.last != last ==> fresh@L(list.last);
      forall n | n in list.nodes
        ensures fresh(n)
      {
        assert n !in was ==> fresh@L(n);
      }
    }
    assert calls[..|calls|] == calls;
  }

  lemma PlainNone()
    ensures PlainRun([]) == Plain([], true, [])
  {
  }

  lemma PlainNext(calls: seq<Call>, call: Call, more: seq<Call>)
    requires more == calls + [call]
    ensures PlainRun(more) == PlainCall(PlainRun(calls), call)
  {
    assert more[..|calls|] == calls;
  }

  /** Cancelling the last operation loses the next one: of three sends, the second
      cancelled behind the first, the send task completes the first and finds nothing more
      to do. */
  lemma LosesNextSend()
    ensures PlainRun([Append(0), Append(1), Unlink(1), Append(2), Complete]) == Plain([], true, [0])
  {
    hide PlainRun;
    PlainNone();
    PlainNext([], Append(0), [Append(0)]);
    PlainNext([Append(0)], Append(1), [Append(0), Append(1)]);
    PlainNext([Append(0), Append(1)], Unlink(1), [Append(0), Append(1), Unlink(1)]);
    assert [0, 1][..1] + [0, 1][2..] == [0];
    PlainNext([Append(0), Append(1), Unlink(1)], Append(2), [Append(0), Append(1), Unlink(1), Append(2)]);
    PlainNext([Append(0), Append(1), Unlink(1), Append(2)], Complete,
              [Append(0), Append(1), Unlink(1), Append(2), Complete]);
  }
}
