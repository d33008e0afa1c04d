/** The operations an endpoint has queued, as the code keeps them: a block queue of sends
    and one of recvs in every fork, the list that links the sends of all forks, the flush
    tokens, and the addresses the stop callbacks hold. */
module ForkQueues {
  import opened Common
  import opened Framing
  import opened Bits
  import opened Rings
  import opened Relabel
  import opened Queue
  import opened Lanes
  import opened Scheduler
  import opened SendList
  import opened Lists
  import opened Invariants
  import opened QueueProofs
  import opened Endpoint
  import opened Blocks

  /** The address of a queued operation: a slot of a block. */
  datatype Place<T> = Place(block: Block<T>, slot: nat)

  function OpOf(n: SendNode): OpId {
    n.op
  }

  function Itself(op: OpId): OpId {
    op
  }

  /** The part of a scheduler's state that is queued operations. */
  datatype Tables = Tables(order: seq<OpId>, dangling: bool, sendR: seq<Ring>, recvR: seq<Ring>,
                           numRecvs: nat, q: Queued)

  function TablesOf(s: Sched): Tables {
    Tables(s.order, s.dangling, s.sendR, s.recvR, s.numRecvs, s.q)
  }

  /** Every element is where its address says. */
  ghost predicate Placed<T>(items: seq<Item<Block<T>, T>>, f: T -> OpId, at: map<OpId, Place<T>>) {
    forall p :: 0 <= p < |items| ==>
      var op := f(items[p].value);
      op in at && at[op] == Place(items[p].block, And(items[p].index, items[p].block.mask))
  }

  lemma PlacedPush<T>(items: seq<Item<Block<T>, T>>, f: T -> OpId, at: map<OpId, Place<T>>, item: Item<Block<T>, T>)
    requires Placed(items, f, at) && f(item.value) !in at
    ensures Placed(items + [item], f, at[f(item.value) := Place(item.block, And(item.index, item.block.mask))])
  {
    hide And;
  }

  lemma PlacedPop<T>(items: seq<Item<Block<T>, T>>, f: T -> OpId, at: map<OpId, Place<T>>)
    requires Placed(items, f, at) && items != []
    ensures Placed(items[1..], f, at)
  {
    hide And;
  }

  lemma PlacedRemove<T>(items: seq<Item<Block<T>, T>>, f: T -> OpId, at: map<OpId, Place<T>>, p: nat)
    requires Placed(items, f, at) && p < |items|
    ensures Placed(Remove(items, p), f, at)
  {
    hide And;
  }

  /** A fork's sends are nodes of that fork, known by their operation. */
  ghost predicate Noded(items: seq<Item<Block<SendNode>, SendNode>>, i: nat, node: map<OpId, SendNode>) {
    forall p :: 0 <= p < |items| ==>
      items[p].value.op in node && node[items[p].value.op] == items[p].value && items[p].value.fork == i
  }

  type SendRing = seq<Window<Block<SendNode>, SendNode>>

  type RecvRing = seq<Window<Block<OpId>, OpId>>

  ghost predicate SendsOk(rings: seq<SendRing>, node: map<OpId, SendNode>, at: map<OpId, Place<SendNode>>) {
    forall i :: 0 <= i < |rings| ==> Placed(AllLive(rings[i]), OpOf, at) && Noded(AllLive(rings[i]), i, node)
  }

  ghost predicate RecvsOk(rings: seq<RecvRing>, at: map<OpId, Place<OpId>>) {
    forall i :: 0 <= i < |rings| ==> Placed(AllLive(rings[i]), Itself, at)
  }

  ghost predicate ListOk(ns: seq<SendNode>, node: map<OpId, SendNode>) {
    forall n :: n in ns ==> n.op in node && node[n.op] == n
  }

  lemma NothingOk()
    ensures SendsOk([], map[], map[]) && RecvsOk([], map[]) && ListOk([], map[])
    ensures SeenSends([]) == [] && SeenRecvs([]) == []
  {
  }

  lemma SendsAdd(rings: seq<SendRing>, node: map<OpId, SendNode>, at: map<OpId, Place<SendNode>>, b: Block<SendNode>)
    requires SendsOk(rings, node, at)
    ensures SendsOk(rings + [Fresh(b, DEFAULT_CAPACITY)], node, at)
    ensures SeenSends(rings + [Fresh(b, DEFAULT_CAPACITY)]) == SeenSends(rings) + [EmptyRing()]
  {
    FreshItems<Block<SendNode>, SendNode>(b, DEFAULT_CAPACITY);
    FreshSeen(b, DEFAULT_CAPACITY, OpOf);
    hide AllLive, SeenAll;
  }

  lemma RecvsAdd(rings: seq<RecvRing>, at: map<OpId, Place<OpId>>, b: Block<OpId>)
    requires RecvsOk(rings, at)
    ensures RecvsOk(rings + [Fresh(b, DEFAULT_CAPACITY)], at)
    ensures SeenRecvs(rings + [Fresh(b, DEFAULT_CAPACITY)]) == SeenRecvs(rings) + [EmptyRing()]
  {
    FreshItems<Block<OpId>, OpId>(b, DEFAULT_CAPACITY);
    FreshSeen(b, DEFAULT_CAPACITY, Itself);
    hide AllLive, SeenAll;
  }

  ghost function SeenSends(rings: seq<SendRing>): (r: seq<Ring>)
    ensures |r| == |rings|
  {
    seq(|rings|, i requires 0 <= i < |rings| => SeenAll(rings[i], OpOf))
  }

  ghost function SeenRecvs(rings: seq<RecvRing>): (r: seq<Ring>)
    ensures |r| == |rings|
  {
    seq(|rings|, i requires 0 <= i < |rings| => SeenAll(rings[i], Itself))
  }

  lemma PlacedMore<T>(items: seq<Item<Block<T>, T>>, f: T -> OpId, at: map<OpId, Place<T>>, op: OpId, place: Place<T>)
    requires Placed(items, f, at) && op !in at
    ensures Placed(items, f, at[op := place])
  {
    hide And;
  }

  lemma RecvsPush(rings: seq<RecvRing>, at: map<OpId, Place<OpId>>, i: nat, op: OpId, b: Block<OpId>, index: nat)
    requires RecvsOk(rings, at) && i < |rings| && op !in at
    requires AllLive(RingPush(rings[i], op, b)) == AllLive(rings[i]) + [Item(b, index, op)]
    ensures RecvsOk(rings[i := RingPush(rings[i], op, b)], at[op := Place(b, And(index, b.mask))])
    ensures SeenRecvs(rings[i := RingPush(rings[i], op, b)]) == PushTo(SeenRecvs(rings), i, op)
  {
    hide AllLive, SeenAll, RingPush, And, Placed;
    PushSeen(rings[i], op, b, Itself);
    PlacedPush(AllLive(rings[i]), Itself, at, Item(b, index, op));
    forall j | 0 <= j < |rings| && j != i
      ensures Placed(AllLive(rings[j]), Itself, at[op := Place(b, And(index, b.mask))])
    {
      PlacedMore(AllLive(rings[j]), Itself, at, op, Place(b, And(index, b.mask)));
    }
  }

  lemma SendsPush(rings: seq<SendRing>, node: map<OpId, SendNode>, at: map<OpId, Place<SendNode>>,
                  n: SendNode, b: Block<SendNode>, index: nat)
    requires SendsOk(rings, node, at) && n.fork < |rings| && n.op !in at && n.op in node && node[n.op] == n
    requires AllLive(RingPush(rings[n.fork], n, b)) == AllLive(rings[n.fork]) + [Item(b, index, n)]
    ensures var i := n.fork;
            && SendsOk(rings[i := RingPush(rings[i], n, b)], node, at[n.op := Place(b, And(index, b.mask))])
            && SeenSends(rings[i := RingPush(rings[i], n, b)]) == PushTo(SeenSends(rings), i, n.op)
  {
    hide AllLive, SeenAll, RingPush, And, Placed, Noded;
    var i := n.fork;
    PushSeen(rings[i], n, b, OpOf);
    PlacedPush(AllLive(rings[i]), OpOf, at, Item(b, index, n));
    NodedPush(AllLive(rings[i]), i, node, Item(b, index, n));
    forall j | 0 <= j < |rings| && j != i
      ensures Placed(AllLive(rings[j]), OpOf, at[n.op := Place(b, And(index, b.mask))])
    {
      PlacedMore(AllLive(rings[j]), OpOf, at, n.op, Place(b, And(index, b.mask)));
    }
  }

  lemma SendsMore(rings: seq<SendRing>, node: map<OpId, SendNode>, at: map<OpId, Place<SendNode>>, n: SendNode)
    requires SendsOk(rings, node, at) && n.op !in node
    ensures SendsOk(rings, node[n.op := n], at)
  {
    hide AllLive, Placed, Noded;
    forall j | 0 <= j < |rings|
      ensures Noded(AllLive(rings[j]), j, node[n.op := n])
    {
      NodedMore(AllLive(rings[j]), j, node, n);
    }
  }

  lemma RecvsPop(rings: seq<RecvRing>, at: map<OpId, Place<OpId>>, i: nat)
    requires RecvsOk(rings, at) && i < |rings| && AllLive(rings[i]) != []
    requires AllLive(RingPop(rings[i])) == AllLive(rings[i])[1..]
    ensures RecvsOk(rings[i := RingPop(rings[i])], at)
    ensures SeenRecvs(rings[i := RingPop(rings[i])]) == PopFrom(SeenRecvs(rings), i)
  {
    hide AllLive, SeenAll, RingPop, Placed;
    PopSeen(rings[i], Itself);
    PlacedPop(AllLive(rings[i]), Itself, at);
  }

  lemma SendsPop(rings: seq<SendRing>, node: map<OpId, SendNode>, at: map<OpId, Place<SendNode>>, i: nat)
    requires SendsOk(rings, node, at) && i < |rings| && AllLive(rings[i]) != []
    requires AllLive(RingPop(rings[i])) == AllLive(rings[i])[1..]
    ensures SendsOk(rings[i := RingPop(rings[i])], node, at)
    ensures SeenSends(rings[i := RingPop(rings[i])]) == PopFrom(SeenSends(rings), i)
  {
    hide AllLive, SeenAll, RingPop, Placed, Noded;
    PopSeen(rings[i], OpOf);
    PlacedPop(AllLive(rings[i]), OpOf, at);
    NodedPop(AllLive(rings[i]), i, node);
  }

  lemma NodedPop(items: seq<Item<Block<SendNode>, SendNode>>, i: nat, node: map<OpId, SendNode>)
    requires Noded(items, i, node) && items != []
    ensures Noded(items[1..], i, node)
  {
  }

  // ---- erasing by address -----------------------------------------------------------

  /** `op` is queued, once. */
  ghost predicate HoldsOnce(r: Ring, op: OpId) {
    && op in Values(AllLive(r))
    && forall j, k ::
         0 <= j < k < |AllLive(r)| ==> AllLive(r)[j].value != op || AllLive(r)[k].value != op
  }

  /** Where it is in the blocks. */
  lemma HoldsAt<T>(ring: seq<Window<Block<T>, T>>, f: T -> OpId, op: OpId) returns (p: nat)
    requires HoldsOnce(SeenAll(ring, f), op)
    ensures p < |AllLive(ring)| && f(AllLive(ring)[p].value) == op
    ensures forall k :: 0 <= k < |AllLive(ring)| && f(AllLive(ring)[k].value) == op ==> k == p
  {
    AllLiveSeen(ring, f);
    hide AllLive, SeenAll;
    var r := SeenAll(ring, f);
    p :| 0 <= p < |Values(AllLive(r))| && Values(AllLive(r))[p] == op;
    forall k | 0 <= k < |AllLive(ring)| && f(AllLive(ring)[k].value) == op
      ensures k == p
    {
      assert AllLive(r)[k].value == op && AllLive(r)[p].value == op;
    }
  }

  lemma RecvsErase(rings: seq<RecvRing>, to: seq<RecvRing>, at: map<OpId, Place<OpId>>, i: nat, op: OpId, p: nat)
    requires RecvsOk(rings, at) && i < |rings| && p < |AllLive(rings[i])| && AllLive(rings[i])[p].value == op
    requires forall k :: 0 <= k < |AllLive(rings[i])| && AllLive(rings[i])[k].value == op ==> k == p
    ensures UnwrappedAt(rings[i], p) <==> CanErase(SeenRecvs(rings), i, op)
    ensures |to| == |rings| && ErasedAt(rings[i], to[i], p) && to == rings[i := to[i]]
            && AllLive(to[i]) == Remove(AllLive(rings[i]), p) ==>
              RecvsOk(to, at) && SeenRecvs(to) == EraseFrom(SeenRecvs(rings), i, op)
  {
    hide AllLive, SeenAll, RingErase, Placed, ErasedAt, UnwrappedAt, Erasable, EraseValue, Remove;
    ErasedSeen(rings[i], p, op, Itself);
    PlacedRemove(AllLive(rings[i]), Itself, at, p);
  }

  lemma SendsErase(rings: seq<SendRing>, to: seq<SendRing>, node: map<OpId, SendNode>, at: map<OpId, Place<SendNode>>,
                   i: nat, op: OpId, p: nat)
    requires SendsOk(rings, node, at) && i < |rings| && p < |AllLive(rings[i])| && AllLive(rings[i])[p].value.op == op
    requires forall k :: 0 <= k < |AllLive(rings[i])| && AllLive(rings[i])[k].value.op == op ==> k == p
    ensures UnwrappedAt(rings[i], p) <==> CanErase(SeenSends(rings), i, op)
    ensures |to| == |rings| && ErasedAt(rings[i], to[i], p) && to == rings[i := to[i]]
            && AllLive(to[i]) == Remove(AllLive(rings[i]), p) ==>
              SendsOk(to, node, at) && SeenSends(to) == EraseFrom(SeenSends(rings), i, op)
  {
    hide AllLive, SeenAll, RingErase, Placed, Noded, ErasedAt, UnwrappedAt, Erasable, EraseValue, Remove;
    ErasedSeen(rings[i], p, op, OpOf);
    PlacedRemove(AllLive(rings[i]), OpOf, at, p);
    NodedRemove(AllLive(rings[i]), i, node, p);
  }

  lemma NodedRemove(items: seq<Item<Block<SendNode>, SendNode>>, i: nat, node: map<OpId, SendNode>, p: nat)
    requires Noded(items, i, node) && p < |items|
    ensures Noded(Remove(items, p), i, node)
  {
  }

  lemma NodedPush(items: seq<Item<Block<SendNode>, SendNode>>, i: nat, node: map<OpId, SendNode>,
                  item: Item<Block<SendNode>, SendNode>)
    requires Noded(items, i, node) && item.value.op in node && node[item.value.op] == item.value
    requires item.value.fork == i
    ensures Noded(items + [item], i, node)
  {
  }

  lemma NodedMore(items: seq<Item<Block<SendNode>, SendNode>>, i: nat, node: map<OpId, SendNode>, n: SendNode)
    requires Noded(items, i, node) && n.op !in node
    ensures Noded(items, i, node[n.op := n])
  {
  }

  // ---- drains --------------------------------------------------------------------

  lemma {:induction false} DrainSplit(q: Queued, a: seq<OpId>, b: seq<OpId>, dir: Dir, e: Code)
    ensures DrainOps(q, a + b, dir, e)
            == DrainOps(DrainOps(q, a, dir, e), b, dir, if a == [] then e else Cancel)
    decreases |a|
  {
    hide Finish;
    if a == [] {
      assert a + b == b;
    } else {
      assert (a + b)[1..] == a[1..] + b;
      DrainSplit(Finish(q, a[0], Failed(dir, e)), a[1..], b, dir, Cancel);
    }
  }

  lemma DrainTurn(q: Queued, ops: seq<OpId>, dir: Dir, e: Code)
    ensures ops != [] ==>
              DrainOps(q, ops, dir, e) == DrainOps(Finish(q, ops[0], Failed(dir, e)), ops[1..], dir, Cancel)
    ensures ops == [] ==> DrainOps(q, ops, dir, e) == q
  {
    hide Finish;
  }

  lemma FrontFor(r: Ring, q: seq<OpId>)
    requires RingFor(r, q) && q != []
    ensures AllLive(r) != [] && AllLive(r)[0].value == q[0]
    ensures RingFor(RingPop(r), q[1..]) && Drained(RingPop(r)) == Drained(r)
  {
    PopFor(r, q);
    PopLast(r);
    hide AllLive, Ready, RingPop, Drained;
  }

  /** The queues with those of the first `f` forks drained. */
  ghost function DrainedTo(rs: seq<Ring>, f: nat): (r: seq<Ring>)
    ensures |r| == |rs|
  {
    seq(|rs|, i requires 0 <= i < |rs| => if i < f then Drained(rs[i]) else rs[i])
  }

  lemma DrainedNext(rs: seq<Ring>, f: nat)
    requires f < |rs|
    ensures DrainedTo(rs, f)[f] == rs[f]
    ensures DrainedTo(rs, f)[f := Drained(rs[f])] == DrainedTo(rs, f + 1)
  {
    hide Drained;
  }

  lemma DrainedEnds(rs: seq<Ring>)
    ensures DrainedTo(rs, 0) == rs && DrainedTo(rs, |rs|) == DrainAll(rs)
  {
    hide Drained;
  }

  /** A drained queue is the same whether or not some of it was popped before. */
  ghost predicate SameDrained(rs: seq<Ring>, ts: seq<Ring>) {
    |rs| == |ts| && forall i :: 0 <= i < |rs| ==> Drained(rs[i]) == Drained(ts[i])
  }

  lemma AllDrained(rs: seq<Ring>, ts: seq<Ring>, q: seq<seq<OpId>>)
    requires RingsFor(rs, q) && SameDrained(rs, ts) && forall i :: 0 <= i < |q| ==> q[i] == []
    ensures rs == DrainAll(ts)
  {
    hide RingFor, Drained;
    forall i | 0 <= i < |rs|
      ensures rs[i] == DrainAll(ts)[i]
    {
      NothingFor(rs[i]);
    }
  }

  lemma PopSameDrained(rs: seq<Ring>, ts: seq<Ring>, q: seq<seq<OpId>>, i: nat)
    requires RingsFor(rs, q) && SameDrained(rs, ts) && i < |q| && q[i] != []
    ensures RingsFor(PopFrom(rs, i), q[i := q[i][1..]]) && SameDrained(PopFrom(rs, i), ts)
  {
    hide RingFor, Drained, RingPop;
    FrontFor(rs[i], q[i]);
  }

  /** The tables a drain of the send list relies on. */
  ghost predicate QueuedParts(forks: seq<Fork>, idMap: map<Sid, nat>, remoteMap: map<nat, nat>, nextLocal: nat,
                              sops: map<OpId, SendOp>, order: seq<OpId>, sendQ: seq<seq<OpId>>, sendR: seq<Ring>) {
    && IdsOf(forks, idMap, remoteMap, nextLocal) && SendQOf(sendQ, order, sops, forks)
    && (forall op :: op in order ==> op in sops && sops[op].sid in idMap)
    && RingsFor(sendR, sendQ)
  }

  ghost predicate SendsQueued(s: Sched) {
    QueuedParts(s.forks, s.idMap, s.remoteMap, s.nextLocal, s.sops, s.order, s.sendQ, s.sendR)
  }

  /** The head of the list is the front of its fork's sends. */
  lemma HeadFront(s: Sched)
    requires SendsQueued(s) && s.order != []
    ensures var i := sOf(s, s.order[0]);
            && i < |s.sendQ| == |s.sendR| && s.sendQ[i] != [] && s.sendQ[i][0] == s.order[0]
            && RingFor(s.sendR[i], s.sendQ[i])
  {
    SendQPop(s.sendQ, s.order, s.sops, s.forks, s.idMap, s.remoteMap, s.nextLocal);
    hide IdsOf, SendQOf, RingFor;
  }

  /** The state once the head has left the list and its queue. */
  ghost function Headless(s: Sched): Sched
    requires SendsQueued(s) && s.order != []
  {
    HeadFront(s);
    var i := sOf(s, s.order[0]);
    s.(order := s.order[1..], sendQ := s.sendQ[i := s.sendQ[i][1..]], sendR := PopFrom(s.sendR, i))
  }

  lemma TablesQueue(s: Sched)
    ensures TablesOf(s).q == s.q && TablesOf(s).sendR == s.sendR
  {
  }

  lemma HeadlessOrder(s: Sched)
    requires SendsQueued(s) && s.order != []
    ensures Headless(s).order == s.order[1..]
  {
    hide SendsQueued, sOf, PopFrom;
  }

  lemma HeadlessParts(s: Sched, ts: seq<Ring>)
    requires SendsQueued(s) && s.order != [] && SameDrained(s.sendR, ts)
    ensures var i := sOf(s, s.order[0]);
            && i < |s.sendQ| && s.sendQ[i] != []
            && QueuedParts(s.forks, s.idMap, s.remoteMap, s.nextLocal, s.sops, s.order[1..],
                           s.sendQ[i := s.sendQ[i][1..]], PopFrom(s.sendR, i))
            && SameDrained(PopFrom(s.sendR, i), ts)
  {
    hide IdsOf, SendQOf, RingsFor, SameDrained, PopFrom;
    HeadFront(s);
    SendQPop(s.sendQ, s.order, s.sops, s.forks, s.idMap, s.remoteMap, s.nextLocal);
    PopSameDrained(s.sendR, ts, s.sendQ, sOf(s, s.order[0]));
  }

  lemma HeadlessQueued(s: Sched, ts: seq<Ring>)
    requires SendsQueued(s) && s.order != [] && SameDrained(s.sendR, ts)
    ensures SendsQueued(Headless(s)) && SameDrained(Headless(s).sendR, ts)
  {
    hide QueuedParts, SameDrained, PopFrom, sOf;
    HeadlessParts(s, ts);
  }

  lemma NoneQueued(s: Sched)
    requires SendsQueued(s) && s.order == []
    ensures forall i :: 0 <= i < |s.sendQ| ==> s.sendQ[i] == []
  {
    hide IdsOf, RingsFor;
  }

  lemma Emptied(r: Ring, q: seq<OpId>)
    requires RingFor(r, q)
    ensures AllLive(r) == [] <==> q == []
  {
    hide AllLive, Ready;
  }

  lemma NothingFor(r: Ring)
    requires RingFor(r, [])
    ensures AllLive(r) == [] && r == Drained(r)
  {
    DrainedAll(r);
    hide AllLive, Ready;
  }

  // ---- the last operations -----------------------------------------------------------

  ghost function LastOne(r: Ring): set<OpId> {
    if AllLive(r) == [] then {} else {AllLive(r)[|AllLive(r)| - 1].value}
  }

  /** The last operation of every fork that has one. */
  ghost function LastOnes(rs: seq<Ring>): set<OpId> {
    if rs == [] then {} else LastOnes(rs[..|rs| - 1]) + LastOne(rs[|rs| - 1])
  }

  lemma {:induction false} LastIsBack(rs: seq<Ring>, q: seq<seq<OpId>>)
    requires RingsFor(rs, q)
    ensures LastOnes(rs) == Backs(q)
    decreases |rs|
  {
    hide AllLive, Ready;
    if rs != [] {
      var n := |rs| - 1;
      LastIsBack(rs[..n], q[..n]);
      assert RingFor(rs[n], q[n]);
      BacksSnoc(q, n);
    }
  }

  lemma BacksSnoc(q: seq<seq<OpId>>, n: nat)
    requires n == |q| - 1
    ensures Backs(q) == Backs(q[..n]) + if q[n] == [] then {} else {q[n][|q[n]| - 1]}
  {
    forall x | x in Backs(q)
      ensures x in Backs(q[..n]) || (q[n] != [] && x == q[n][|q[n]| - 1])
    {
      var i :| 0 <= i < |q| && q[i] != [] && q[i][|q[i]| - 1] == x;
      assert i < n ==> q[..n][i] == q[i];
    }
    forall x | x in Backs(q[..n])
      ensures x in Backs(q)
    {
      var i :| 0 <= i < n && q[..n][i] != [] && q[..n][i][|q[..n][i]| - 1] == x;
      assert q[i] == q[..n][i];
    }
  }

  lemma BackSeen<T>(ring: seq<Window<Block<T>, T>>, f: T -> OpId)
    ensures BackLive(SeenAll(ring, f)) <==> BackLive(ring)
    ensures |AllLive(SeenAll(ring, f))| == |AllLive(ring)|
    ensures forall k :: 0 <= k < |AllLive(ring)| ==> AllLive(SeenAll(ring, f))[k].value == f(AllLive(ring)[k].value)
  {
    AllLiveSeen(ring, f);
    hide AllLive;
  }

  class ForkQueues {
    const sends: Lanes<SendNode>
    const recvs: Lanes<OpId>
    const list: SendList
    var numRecvs: nat
    var q: Queued
    var node: map<OpId, SendNode>
    var sendAt: map<OpId, Place<SendNode>>
    var recvAt: map<OpId, Place<OpId>>
    ghost var nodes: set<object>  // every send operation made

    ghost function Repr(): set<object>
      reads this, sends, recvs
    {
      {this, sends, recvs, list} + sends.repr + recvs.repr + nodes
    }

    /** The operations that have ever had an address. */
    ghost function Keys(): set<OpId>
      reads this
    {
      sendAt.Keys + node.Keys + recvAt.Keys
    }

    /** The parts share no object. */
    ghost predicate Disjoint()
      reads this, sends, recvs, list
    {
      && {this, list, recvs} !! sends.repr && {this, list, sends} !! recvs.repr && {this, list, sends, recvs} !! nodes
      && sends.repr !! recvs.repr && sends.repr !! nodes && recvs.repr !! nodes
      && (forall n :: n in list.nodes ==> n in nodes) && (list.last != null ==> list.last in nodes)
    }

    ghost predicate Shape()
      reads Repr()
    {
      Disjoint() && sends.Valid() && recvs.Valid() && list.Valid() && |sends.qs| == |recvs.qs|
    }

    ghost predicate Valid()
      reads Repr()
    {
      && Shape() && SendsOk(sends.Windows(), node, sendAt) && RecvsOk(recvs.Windows(), recvAt)
      && ListOk(list.nodes, node)
    }

    ghost function Abs(): (t: Tables)
      requires Valid()
      reads Repr()
      ensures |t.sendR| == |t.recvR| == |sends.qs| == |recvs.qs|
    {
      Tables(list.Order(), !list.Tailed(), SeenSends(sends.Windows()), SeenRecvs(recvs.Windows()), numRecvs, q)
    }

    /** No fork, nothing queued. */
    constructor ()
      ensures Valid() && fresh(Repr()) && |sends.qs| == 0 && Keys() == {}
      ensures Abs() == Tables([], false, [], [], 0, Queued([], []))
    {
      hide SendsOk, RecvsOk, ListOk, SeenSends, SeenRecvs;
      NothingOk();
      sends := new Lanes<SendNode>();
      recvs := new Lanes<OpId>();
      list := new SendList();
      numRecvs, q := 0, Queued([], []);
      node, sendAt, recvAt, nodes := map[], map[], map[], {};
    }

    method AddFork()
      requires Valid()
      modifies sends, recvs
      ensures Valid() && fresh(Repr() - old(Repr())) && |sends.qs| == old(|sends.qs|) + 1 && Keys() == old(Keys())
      ensures Abs() == old(Abs()).(sendR := old(Abs()).sendR + [EmptyRing()], recvR := old(Abs()).recvR + [EmptyRing()])
    {
      hide Lanes.Valid, Lanes.Windows, SendsOk, RecvsOk, ListOk, SendList.Valid, Fresh, SeenSends, SeenRecvs;
      ghost var ss, rs := sends.Windows(), recvs.Windows();
      sends.Add();
      ghost var b :| sends.Windows() == ss + [Fresh(b, DEFAULT_CAPACITY)];
      SendsAdd(ss, node, sendAt, b);
      recvs.Add();
      ghost var c :| recvs.Windows() == rs + [Fresh(c, DEFAULT_CAPACITY)];
      RecvsAdd(rs, recvAt, c);
    }

    /** emplace_recv: the address of the new operation is kept for its stop callback. */
    method PushRecv(i: nat, op: OpId)
      requires Valid() && i < |recvs.qs| && op !in Keys()
      modifies this`numRecvs, this`recvAt, recvs, recvs.repr
      ensures Valid() && fresh(Repr() - old(Repr())) && recvs.qs == old(recvs.qs)
      ensures Keys() == old(Keys()) + {op}
      ensures Abs() == old(Abs()).(recvR := PushTo(old(Abs()).recvR, i, op), numRecvs := old(Abs()).numRecvs + 1)
    {
      hide Lanes.Valid, Lanes.Windows, SendsOk, RecvsOk, ListOk, SendList.Valid, SeenSends, SeenRecvs, PushTo,
           AllLive, And, RingPush, Ops, SendList.Tailed;
      ghost var rs := recvs.Windows();
      var b, slot;
      ghost var index;
      b, slot, index := recvs.Push(i, op);
      RecvsPush(rs, recvAt, i, op, b, index);
      recvAt := recvAt[op := Place(b, slot)];
      numRecvs := numRecvs + 1;
    }

    /** A send operation is made. */
    method Enroll(i: nat, op: OpId) returns (n: SendNode)
      requires Valid() && op !in node
      modifies this`node, this`nodes
      ensures Valid() && Repr() == old(Repr()) + {n} && nodes == old(nodes) + {n} && op in node && node[op] == n
      ensures fresh(n) && n.op == op && n.fork == i && n.next == null
      ensures Keys() == old(Keys()) + {n.op} && n !in list.nodes && n != list.last && sendAt == old(sendAt)
      ensures Abs() == old(Abs()) && sends.qs == old(sends.qs) && sends.repr == old(sends.repr)
    {
      hide Lanes.Valid, Lanes.Windows, SendsOk, RecvsOk, SendList.Valid, SeenSends, SeenRecvs;
      n := new SendNode(op, i);
      SendsMore(sends.Windows(), node, sendAt, n);
      node := node[n.op := n];
      nodes := nodes + {n};
    }

    /** emplace_send */
    method EmplaceSend(n: SendNode)
      requires Valid() && n.fork < |sends.qs| && n.op !in sendAt && n.op in node && node[n.op] == n && n in nodes
      modifies this`sendAt, sends, sends.repr
      ensures Valid() && fresh(Repr() - old(Repr())) && sends.qs == old(sends.qs) && Keys() == old(Keys())
      ensures node == old(node) && nodes == old(nodes)
      ensures list.nodes == old(list.nodes) && list.last == old(list.last) && n.next == old(n.next)
      ensures Abs() == old(Abs()).(sendR := PushTo(old(Abs()).sendR, n.fork, n.op))
    {
      hide Lanes.Valid, Lanes.Windows, SendsOk, RecvsOk, ListOk, SendList.Valid, SeenSends, SeenRecvs, PushTo,
           AllLive, And, RingPush;
      ghost var ss := sends.Windows();
      var b, slot;
      ghost var index;
      b, slot, index := sends.Push(n.fork, n);
      SendsPush(ss, node, sendAt, n, b, index);
      sendAt := sendAt[n.op := Place(b, slot)];
    }

    /** The list part of send: the operation is reached by the send task exactly if the
        tail of the list was. */
    method LinkSend(n: SendNode)
      requires Valid() && n in nodes && n.op in node && node[n.op] == n
      requires n !in list.nodes && n != list.last && n.next == null
      modifies list, nodes
      ensures Valid() && Repr() == old(Repr()) && Keys() == old(Keys()) && sends.qs == old(sends.qs)
      ensures Abs() == old(Abs()).(order := if old(Abs()).dangling then old(Abs()).order else old(Abs()).order + [n.op])
    {
      hide Lanes.Valid, Lanes.Windows, SendsOk, RecvsOk, SendList.Valid, SeenSends, SeenRecvs;
      list.Append(n);
    }

    lemma Unknown(op: OpId)
      requires op !in Keys()
      ensures op !in sendAt && op !in node && op !in recvAt
    {
    }

    method PushSend(i: nat, op: OpId)
      requires Valid() && i < |sends.qs| && op !in Keys()
      modifies this`sendAt, this`node, this`nodes, sends, sends.repr, list, nodes
      ensures Valid() && fresh(Repr() - old(Repr())) && sends.qs == old(sends.qs)
      ensures Keys() == old(Keys()) + {op}
      ensures var t := old(Abs());
              Abs() == t.(order := if t.dangling then t.order else t.order + [op], sendR := PushTo(t.sendR, i, op))
    {
      hide Valid, Abs, PushTo, Keys, Repr, Lanes.Valid;
      Unknown(op);
      var n := Enroll(i, op);
      ghost var r := Repr();
      label L:
      EmplaceSend(n);
      forall o | o in Repr() && o !in old(Repr())
        ensures fresh(o)
      {
        assert o !in r ==> fresh@L(o);
      }
      LinkSend(n);
    }

    /** The handle of a call that is refused, or of a flush that does not wait. */
    method Log(h: Handle)
      requires Valid()
      modifies this`q
      ensures Valid() && Repr() == old(Repr()) && Keys() == old(Keys())
      ensures Abs() == old(Abs()).(q := old(Abs()).q.(log := old(Abs()).q.log + [h]))
    {
      hide Lanes.Valid, Lanes.Windows, SendsOk, RecvsOk, ListOk, SendList.Valid, SeenSends, SeenRecvs;
      q := q.(log := q.log + [h]);
    }

    // ---- completion

    /** completeOn: the handle of the operation is queued, then every flush for which it
        held the last reference; its references are dropped. */
    method CompleteOn(op: OpId, r: Result)
      modifies this`q
      ensures q == Finish(old(q), op, r)
    {
      var log := q.log + [OpDone(op, r)];
      var tokens := q.tokens;
      for t := 0 to |q.tokens|
        invariant log + Fired(q.tokens, op, t) == q.log + [OpDone(op, r)] + Fired(q.tokens, op, 0)
        invariant |tokens| == |q.tokens|
        invariant forall k :: 0 <= k < t ==> tokens[k] == q.tokens[k] - {op}
        invariant forall k :: t <= k < |tokens| ==> tokens[k] == q.tokens[k]
      {
        if tokens[t] == {op} {
          log := log + [FlushDone(t)];
        }
        tokens := tokens[t := tokens[t] - {op}];
      }
      assert tokens == Release(q.tokens, op);
      q := Queued(log, tokens);
    }

    method Complete(op: OpId, r: Result)
      requires Valid()
      modifies this`q
      ensures Valid() && Repr() == old(Repr()) && Keys() == old(Keys())
      ensures Abs() == old(Abs()).(q := Finish(old(Abs()).q, op, r))
    {
      hide Lanes.Valid, Lanes.Windows, SendsOk, RecvsOk, ListOk, SendList.Valid, SeenSends, SeenRecvs, Finish;
      CompleteOn(op, r);
    }

    method Uncount()
      requires Valid() && Abs().numRecvs > 0
      modifies this`numRecvs
      ensures Valid() && Repr() == old(Repr()) && Keys() == old(Keys())
      ensures Abs() == old(Abs()).(numRecvs := old(Abs()).numRecvs - 1)
    {
      hide Lanes.Valid, Lanes.Windows, SendsOk, RecvsOk, ListOk, SendList.Valid, SeenSends, SeenRecvs;
      numRecvs := numRecvs - 1;
    }

    /** The front send of a fork is popped. */
    method PopSend(i: nat)
      requires Valid() && i < |sends.qs| && !sends.IsEmpty(i)
      modifies sends, sends.repr
      ensures Valid() && Repr() == old(Repr()) && Keys() == old(Keys()) && sends.qs == old(sends.qs) && sends.repr == old(sends.repr)
      ensures node == old(node) && Abs() == old(Abs()).(sendR := PopFrom(old(Abs()).sendR, i))
    {
      hide Lanes.Valid, Lanes.Windows, SendsOk, RecvsOk, ListOk, SendList.Valid, SeenSends, SeenRecvs, PopFrom,
           AllLive, And, RingPop;
      ghost var ss := sends.Windows();
      sends.Pop(i);
      SendsPop(ss, node, sendAt, i);
    }

    method PopRecv(i: nat)
      requires Valid() && i < |recvs.qs| && !recvs.IsEmpty(i)
      modifies recvs, recvs.repr
      ensures Valid() && Repr() == old(Repr()) && Keys() == old(Keys()) && recvs.qs == old(recvs.qs) && recvs.repr == old(recvs.repr)
      ensures Abs() == old(Abs()).(recvR := PopFrom(old(Abs()).recvR, i))
    {
      hide Lanes.Valid, Lanes.Windows, SendsOk, RecvsOk, ListOk, SendList.Valid, SeenSends, SeenRecvs, PopFrom,
           AllLive, And, RingPop;
      ghost var rs := recvs.Windows();
      recvs.Pop(i);
      RecvsPop(rs, recvAt, i);
    }

    method UnlinkHead() returns (op: OpId)
      requires Valid() && list.nodes != []
      modifies list, nodes
      ensures Valid() && Repr() == old(Repr()) && Keys() == old(Keys()) && sends.qs == old(sends.qs)
      ensures var t := old(Abs());
              t.order != [] && op == t.order[0]
              && Abs() == t.(order := t.order[1..], dangling := t.dangling && |t.order| > 1)
    {
      hide Lanes.Valid, Lanes.Windows, SendsOk, RecvsOk, SendList.Valid, SeenSends, SeenRecvs;
      op := list.CompleteHead();
    }

    /** NextSendOp::completePrev: the head of the list is completed and leaves the list and
        the queue of its fork. */
    method CompletePrevSend(r: Result) returns (i: nat)
      requires Valid() && list.nodes != [] && list.nodes[0].fork < |sends.qs| && !sends.IsEmpty(list.nodes[0].fork)
      modifies Repr()
      ensures Valid() && Repr() == old(Repr()) && Keys() == old(Keys()) && sends.qs == old(sends.qs) && i == old(list.nodes[0].fork)
      ensures var t := old(Abs());
              t.order != []
              && Abs() == t.(order := t.order[1..], dangling := t.dangling && |t.order| > 1,
                             sendR := PopFrom(t.sendR, i), q := Finish(t.q, t.order[0], r))
    {
      hide SendsOk, RecvsOk, ListOk, Finish, PopFrom, SeenSends, SeenRecvs, Lanes.Valid, Lanes.Windows;
      i := list.first.fork;
      Complete(list.first.op, r);
      var op := UnlinkHead();
      PopSend(i);
    }

    /** The recv queue of a fork as seen. */
    lemma RecvLane(i: nat)
      requires Valid() && i < |recvs.qs|
      ensures recvs.Valid() && (recvs.IsEmpty(i) <==> AllLive(Abs().recvR[i]) == [])
      ensures !recvs.IsEmpty(i) ==> recvs.Front(i) == AllLive(Abs().recvR[i])[0].value
    {
      hide Lanes.Valid, Lanes.Windows, SendsOk, RecvsOk, ListOk, SendList.Valid, SeenSends, AllLive, SeenAll;
      AllLiveSeen(recvs.Windows()[i], Itself);
    }

    /** The front recv of a fork is completed and popped. */
    method FinishRecv(i: nat, r: Result) returns (op: OpId)
      requires Valid() && i < |recvs.qs| && AllLive(Abs().recvR[i]) != []
      modifies this`q, recvs, recvs.repr
      ensures Valid() && Repr() == old(Repr()) && Keys() == old(Keys()) && recvs.qs == old(recvs.qs) && recvs.repr == old(recvs.repr)
      ensures var t := old(Abs());
              && op == AllLive(t.recvR[i])[0].value
              && Abs() == t.(recvR := PopFrom(t.recvR, i), q := Finish(t.q, op, r))
    {
      hide Valid, Abs, PopFrom, AllLive, Finish;
      RecvLane(i);
      op := recvs.Front(i);
      Complete(op, r);
      RecvLane(i);
      PopRecv(i);
    }

    /** AnyRecvOp::completePrev */
    method CompletePrevRecv(i: nat, r: Result) returns (op: OpId)
      requires Valid() && i < |recvs.qs| && AllLive(Abs().recvR[i]) != [] && Abs().numRecvs > 0
      modifies this`q, this`numRecvs, recvs, recvs.repr
      ensures Valid() && Repr() == old(Repr()) && Keys() == old(Keys()) && recvs.qs == old(recvs.qs)
      ensures var t := old(Abs());
              && op == AllLive(t.recvR[i])[0].value
              && Abs() == t.(recvR := PopFrom(t.recvR, i), q := Finish(t.q, op, r), numRecvs := t.numRecvs - 1)
    {
      hide Valid, Abs, PopFrom, AllLive, Finish;
      op := FinishRecv(i, r);
      Uncount();
    }

    // ---- stop callbacks

    /** The stop callback of a recv that has not started: its handle is queued, and then it
        is erased by its address, which fails exactly once its block has wrapped. */
    method CancelRecv(i: nat, op: OpId) returns (ok: bool)
      requires Valid() && i < |recvs.qs| && Abs().numRecvs > 0 && HoldsOnce(Abs().recvR[i], op)
      modifies this`q, this`numRecvs, recvs, recvs.repr
      ensures Valid() && Repr() == old(Repr()) && Keys() == old(Keys()) && recvs.qs == old(recvs.qs)
      ensures ok <==> CanErase(old(Abs()).recvR, i, op)
      ensures var t := old(Abs());
              Abs() == t.(q := Finish(t.q, op, Withdrawn), numRecvs := t.numRecvs - 1,
                          recvR := if ok then EraseFrom(t.recvR, i, op) else t.recvR)
    {
      hide Valid, Abs, HoldsOnce, CanErase, EraseFrom, Finish;
      Uncount();
      Complete(op, Withdrawn);
      ok := EraseRecv(i, op);
    }

    method EraseRecv(i: nat, op: OpId) returns (ok: bool)
      requires Valid() && i < |recvs.qs| && HoldsOnce(Abs().recvR[i], op)
      modifies recvs, recvs.repr
      ensures Valid() && Repr() == old(Repr()) && Keys() == old(Keys()) && recvs.qs == old(recvs.qs)
      ensures ok <==> CanErase(old(Abs()).recvR, i, op)
      ensures Abs() == old(Abs()).(recvR := if ok then EraseFrom(old(Abs()).recvR, i, op) else old(Abs()).recvR)
    {
      hide Lanes.Valid, Lanes.Windows, SendsOk, ListOk, SendList.Valid, SeenSends, AllLive, SeenAll, HoldsOnce,
           CanErase, EraseFrom, UnwrappedAt, ErasedAt, Remove, And;
      ghost var rs := recvs.Windows();
      ghost var p := HoldsAt(rs[i], Itself, op);
      assert Placed(AllLive(rs[i]), Itself, recvAt);
      var at := recvAt[op];
      ok := recvs.EraseSlot(i, at.block, at.slot, p);
      RecvsErase(rs, recvs.Windows(), recvAt, i, op, p);
    }

    /** A send behind the head is unlinked; the tail is left as it was. */
    method UnlinkSend(op: OpId)
      requires Valid() && op in Abs().order && Abs().order[0] != op && Ascending(Abs().order)
      modifies list, nodes
      ensures Valid() && Repr() == old(Repr()) && Keys() == old(Keys()) && sends.qs == old(sends.qs)
      ensures var t := old(Abs());
              Abs() == t.(order := Without(t.order, {op}), dangling := t.dangling || t.order[|t.order| - 1] == op)
    {
      hide Lanes.Valid, Lanes.Windows, SendsOk, RecvsOk, SendList.Valid, SeenSends, SeenRecvs, Without;
      ghost var k :| 0 <= k < |list.nodes| && list.Order()[k] == op;
      assert list.nodes[k] in list.nodes;
      RemoveIsWithout(list.Order(), k);
      list.Cancel(node[op], k);
    }

    method EraseSend(i: nat, op: OpId) returns (ok: bool)
      requires Valid() && i < |sends.qs| && HoldsOnce(Abs().sendR[i], op)
      modifies sends, sends.repr
      ensures Valid() && Repr() == old(Repr()) && Keys() == old(Keys()) && sends.qs == old(sends.qs)
      ensures ok <==> CanErase(old(Abs()).sendR, i, op)
      ensures Abs() == old(Abs()).(sendR := if ok then EraseFrom(old(Abs()).sendR, i, op) else old(Abs()).sendR)
    {
      hide Lanes.Valid, Lanes.Windows, RecvsOk, ListOk, SendList.Valid, SeenRecvs, AllLive, SeenAll, HoldsOnce,
           CanErase, EraseFrom, UnwrappedAt, ErasedAt, Remove, And, Noded;
      ghost var ss := sends.Windows();
      ghost var p := HoldsAt(ss[i], OpOf, op);
      assert Placed(AllLive(ss[i]), OpOf, sendAt);
      var at := sendAt[op];
      ok := sends.EraseSlot(i, at.block, at.slot, p);
      SendsErase(ss, sends.Windows(), node, sendAt, i, op, p);
    }

    /** The stop callback of a send that has not started: its handle is queued, it is
        unlinked, and then it is erased by its address, which fails exactly once its block
        has wrapped: it stays in the queue of its fork though its handle is queued. */
    method CancelSend(i: nat, op: OpId) returns (ok: bool)
      requires Valid() && i < |sends.qs| && HoldsOnce(Abs().sendR[i], op)
      requires op in Abs().order && Abs().order[0] != op && Ascending(Abs().order)
      modifies Repr()
      ensures Valid() && Repr() == old(Repr()) && Keys() == old(Keys()) && sends.qs == old(sends.qs)
      ensures ok <==> CanErase(old(Abs()).sendR, i, op)
      ensures var t := old(Abs());
              Abs() == t.(q := Finish(t.q, op, Withdrawn), order := Without(t.order, {op}),
                          dangling := t.dangling || t.order[|t.order| - 1] == op,
                          sendR := if ok then EraseFrom(t.sendR, i, op) else t.sendR)
    {
      hide Valid, Abs, HoldsOnce, CanErase, EraseFrom, Finish, Without, Ascending;
      Complete(op, Withdrawn);
      UnlinkSend(op);
      ok := EraseSend(i, op);
    }

    // ---- flush

    lemma RecvBack(i: nat)
      requires Valid() && i < |recvs.qs| && (AllLive(Abs().recvR[i]) != [] ==> BackLive(Abs().recvR[i]))
      ensures recvs.Valid() && (recvs.IsEmpty(i) ==> LastOne(Abs().recvR[i]) == {})
      ensures !recvs.IsEmpty(i) ==> recvs.Back(i).Some? && LastOne(Abs().recvR[i]) == {recvs.Back(i).value}
    {
      hide Lanes.Valid, Lanes.Windows, SendsOk, RecvsOk, ListOk, SendList.Valid, SeenSends, AllLive, SeenAll, BackLive;
      BackSeen(recvs.Windows()[i], Itself);
    }

    lemma SendBack(i: nat)
      requires Valid() && i < |sends.qs| && (AllLive(Abs().sendR[i]) != [] ==> BackLive(Abs().sendR[i]))
      ensures sends.Valid() && (sends.IsEmpty(i) ==> LastOne(Abs().sendR[i]) == {})
      ensures !sends.IsEmpty(i) ==> sends.Back(i).Some? && LastOne(Abs().sendR[i]) == {sends.Back(i).value.op}
    {
      hide Lanes.Valid, Lanes.Windows, SendsOk, RecvsOk, ListOk, SendList.Valid, SeenRecvs, AllLive, SeenAll, BackLive;
      BackSeen(sends.Windows()[i], OpOf);
    }

    method AddToken(holders: set<OpId>)
      requires Valid()
      modifies this`q
      ensures Valid() && Repr() == old(Repr()) && Keys() == old(Keys())
      ensures Abs() == old(Abs()).(q := old(Abs()).q.(tokens := old(Abs()).q.tokens + [holders]))
    {
      hide Lanes.Valid, Lanes.Windows, SendsOk, RecvsOk, ListOk, SendList.Valid, SeenSends, SeenRecvs;
      q := q.(tokens := q.tokens + [holders]);
    }

    /** The loop of flush: the token is given to the last recv and the last send of every
        fork that has one. */
    method AttachToken()
      requires Valid()
      requires forall i :: 0 <= i < |sends.qs| && AllLive(Abs().sendR[i]) != [] ==> BackLive(Abs().sendR[i])
      requires forall i :: 0 <= i < |recvs.qs| && AllLive(Abs().recvR[i]) != [] ==> BackLive(Abs().recvR[i])
      modifies this`q
      ensures Valid() && Repr() == old(Repr()) && Keys() == old(Keys())
      ensures var t := old(Abs());
              Abs() == t.(q := t.q.(tokens := t.q.tokens + [LastOnes(t.recvR) + LastOnes(t.sendR)]))
    {
      hide Valid, Abs, Repr, Keys, AllLive, BackLive, LastOne, Lanes.Valid, Lanes.IsEmpty, Lanes.Back;
      ghost var t := Abs();
      var holders: set<OpId> := {};
      for i := 0 to |sends.qs|
        invariant Valid() && Abs() == t && Repr() == old(Repr()) && Keys() == old(Keys())
        invariant holders == LastOnes(t.recvR[..i]) + LastOnes(t.sendR[..i])
      {
        assert t.recvR[..i + 1][..i] == t.recvR[..i] && t.sendR[..i + 1][..i] == t.sendR[..i];
        RecvBack(i);
        SendBack(i);
        if !recvs.IsEmpty(i) {
          holders := holders + {recvs.Back(i).value};
        }
        if !sends.IsEmpty(i) {
          holders := holders + {sends.Back(i).value.op};
        }
      }
      assert t.recvR[..|t.recvR|] == t.recvR && t.sendR[..|t.sendR|] == t.sendR;
      AddToken(holders);
    }

    // ---- the loops of cancel

    /** One fork of the loop over all recvs. */
    method DrainFork(f: nat, e: Code, ghost ops: seq<OpId>) returns (code: Code)
      requires Valid() && f < |recvs.qs| && RingFor(Abs().recvR[f], ops)
      modifies this`q, recvs, recvs.repr
      ensures Valid() && Repr() == old(Repr()) && Keys() == old(Keys()) && recvs.qs == old(recvs.qs) && recvs.repr == old(recvs.repr)
      ensures code == if ops == [] then e else Cancel
      ensures var t := old(Abs());
              Abs() == t.(recvR := t.recvR[f := Drained(t.recvR[f])], q := DrainOps(t.q, ops, RecvDir, e))
    {
      hide Valid, Abs, Repr, Keys, RingFor, Drained, Finish, AllLive, RingPop, DrainOps, Lanes.Valid, Lanes.IsEmpty,
           Lanes.Front;
      ghost var t := Abs();
      ghost var rest, r, q0 := ops, t.recvR[f], t.q;
      code := e;
      RecvLane(f);
      Emptied(r, rest);
      while !recvs.IsEmpty(f)
        invariant Valid() && Repr() == old(Repr()) && Keys() == old(Keys()) && recvs.qs == old(recvs.qs) && recvs.repr == old(recvs.repr)
        invariant recvs.Valid()
        invariant Abs() == t.(recvR := t.recvR[f := r], q := q0) && RingFor(r, rest) && Drained(r) == Drained(t.recvR[f])
        invariant recvs.IsEmpty(f) <==> rest == []
        invariant |rest| <= |ops| && code == if |rest| == |ops| then e else Cancel
        invariant DrainOps(q0, rest, RecvDir, code) == DrainOps(t.q, ops, RecvDir, e)
        decreases |rest|
      {
        FrontFor(r, rest);
        DrainTurn(q0, rest, RecvDir, code);
        var op := FinishRecv(f, Failed(RecvDir, code));
        q0 := Finish(q0, op, Failed(RecvDir, code));
        code := Cancel;
        r, rest := RingPop(r), rest[1..];
        RecvLane(f);
        Emptied(r, rest);
      }
      NothingFor(r);
      DrainTurn(q0, rest, RecvDir, code);
    }

    /** The loop over all recvs: fork by fork, only the first of all gets the error. */
    method DrainForks(e: Code, ghost recvQ: seq<seq<OpId>>)
      requires Valid() && RingsFor(Abs().recvR, recvQ)
      modifies this`q, this`numRecvs, recvs, recvs.repr
      ensures Valid() && Repr() == old(Repr()) && Keys() == old(Keys()) && recvs.qs == old(recvs.qs)
      ensures var t := old(Abs());
              Abs() == t.(recvR := DrainAll(t.recvR), numRecvs := 0, q := DrainOps(t.q, Flatten(recvQ), RecvDir, e))
    {
      hide Valid, Abs, RingFor, Drained, DrainOps, Flatten, DrainedTo, DrainAll;
      ghost var t := Abs();
      ghost var q0 := t.q;
      var code := e;
      DrainedEnds(t.recvR);
      for f := 0 to |recvs.qs|
        invariant Valid() && Repr() == old(Repr()) && Keys() == old(Keys()) && recvs.qs == old(recvs.qs) && recvs.repr == old(recvs.repr)
        invariant Abs() == t.(recvR := DrainedTo(t.recvR, f), q := q0)
        invariant DrainOps(q0, Flatten(recvQ[f..]), RecvDir, code) == DrainOps(t.q, Flatten(recvQ), RecvDir, e)
      {
        DrainedNext(t.recvR, f);
        FlattenNext(recvQ, f);
        DrainSplit(q0, recvQ[f], Flatten(recvQ[f + 1..]), RecvDir, code);
        ghost var c := code;
        code := DrainFork(f, code, recvQ[f]);
        q0 := DrainOps(q0, recvQ[f], RecvDir, c);
      }
      DrainNothing(q0, recvQ[|recvQ|..], RecvDir, code);
      Count0();
    }

    method Count0()
      requires Valid()
      modifies this`numRecvs
      ensures Valid() && Repr() == old(Repr()) && Keys() == old(Keys()) && Abs() == old(Abs()).(numRecvs := 0)
    {
      hide Lanes.Valid, Lanes.Windows, SendsOk, RecvsOk, ListOk, SendList.Valid, SeenSends, SeenRecvs;
      numRecvs := 0;
    }

    /** What is at the front of a fork's sends is the node of its first operation. */
    lemma SendLane(i: nat, ops: seq<OpId>)
      requires Valid() && i < |sends.qs| && RingFor(Abs().sendR[i], ops) && ops != []
      ensures sends.Valid() && !sends.IsEmpty(i) && ops[0] in node && node[ops[0]].fork == i
    {
      FrontFor(Abs().sendR[i], ops);
      hide Lanes.Valid, Lanes.Windows, RecvsOk, ListOk, SendList.Valid, SeenRecvs, AllLive, SeenAll, RingFor;
      AllLiveSeen(sends.Windows()[i], OpOf);
      assert Noded(AllLive(sends.Windows()[i]), i, node);
    }

    method TakeList() returns (n: SendNode?)
      requires Valid()
      modifies list
      ensures Valid() && Repr() == old(Repr()) && Keys() == old(Keys()) && sends.qs == old(sends.qs) && sends.repr == old(sends.repr)
      ensures n == (if old(list.nodes) == [] then null else old(list.nodes)[0]) && node == old(node)
      ensures Abs() == old(Abs()).(order := [], dangling := false)
    {
      hide Lanes.Valid, Lanes.Windows, SendsOk, RecvsOk, SeenSends, SeenRecvs;
      n := list.Take();
    }

    /** One turn of the loop over the list. */
    method DrainOne(n: SendNode, code: Code, ghost s: Sched)
      requires Valid() && SendsQueued(s) && s.order != [] && s.order[0] == n.op && n.op in node && node[n.op] == n
      requires Abs().sendR == s.sendR
      modifies this`q, sends, sends.repr
      ensures Valid() && Repr() == old(Repr()) && Keys() == old(Keys()) && sends.qs == old(sends.qs) && sends.repr == old(sends.repr)
      ensures node == old(node)
      ensures Abs() == old(Abs()).(sendR := Headless(s).sendR, q := Finish(old(Abs()).q, n.op, Failed(SendDir, code)))
    {
      hide Valid, Abs, PopFrom, AllLive, Finish, SendsQueued, sOf, RingFor;
      ghost var i := sOf(s, n.op);
      HeadFront(s);
      Complete(n.op, Failed(SendDir, code));
      SendLane(i, s.sendQ[i]);
      PopSend(n.fork);
    }

    /** The loop of cancel over the list: the first operation completes with `e`, the others
        with cancel, and each is popped from the queue of its fork. */
    method DrainList(e: Code, ghost s: Sched)
      requires Valid() && SendsQueued(s) && Abs() == TablesOf(s)
      modifies this`q, list, sends, sends.repr
      ensures Valid() && Repr() == old(Repr()) && Keys() == old(Keys()) && sends.qs == old(sends.qs)
      ensures Abs() == old(Abs()).(order := [], dangling := false, sendR := DrainAll(s.sendR),
                                   q := DrainOps(s.q, s.order, SendDir, e))
    {
      hide Valid, Abs, Repr, Keys, PopFrom, AllLive, Finish, SendsQueued, sOf, RingsFor, SameDrained, DrainAll, DrainOps,
           Headless, Chain, TablesOf;
      ghost var t0, ns, k, t := Abs(), list.nodes, 0, s;
      ghost var q0 := s.q;
      TablesQueue(s);
      ListChain(s);
      var iter := TakeList();
      var code := e;
      SameRefl(s.sendR);
      while iter != null
        invariant Valid() && Repr() == old(Repr()) && Keys() == old(Keys()) && sends.qs == old(sends.qs) && sends.repr == old(sends.repr)
        invariant k <= |ns| == |s.order| && Chain(ns, k, iter) && node == old(node) && t.order == s.order[k..]
        invariant SendsQueued(t) && SameDrained(t.sendR, s.sendR)
        invariant Abs() == t0.(order := [], dangling := false, sendR := t.sendR, q := q0)
        invariant DrainOps(q0, t.order, SendDir, code) == DrainOps(s.q, s.order, SendDir, e)
        decreases |ns| - k
      {
        assert forall j :: 0 <= j < |ns| ==> ns[j] in ns;
        DrainTurn(q0, t.order, SendDir, code);
        ChainNext(ns, k, iter);
        HeadlessOrder(t);
        DrainOne(iter, code, t);
        assert Chain(ns, k, iter);
        HeadlessQueued(t, s.sendR);
        q0 := Finish(q0, iter.op, Failed(SendDir, code));
        code := Code.Cancel;
        t := Headless(t);
        ChainNext(ns, k, iter);
        iter := iter.next;
        k := k + 1;
      }
      DrainTurn(q0, t.order, SendDir, code);
      ChainNext(ns, k, iter);
      NoneQueued(t);
      QueuedRings(t);
      AllDrained(t.sendR, s.sendR, t.sendQ);
    }

    lemma ChainNext(ns: seq<SendNode>, k: nat, iter: SendNode?)
      requires Chain(ns, k, iter)
      ensures iter == null ==> k == |ns|
      ensures iter != null ==> k < |ns| && iter == ns[k] && Chain(ns, k + 1, iter.next)
    {
    }

    lemma ListChain(s: Sched)
      requires Valid() && Abs() == TablesOf(s)
      ensures Chain(list.nodes, 0, if list.nodes == [] then null else list.nodes[0]) && |list.nodes| == |s.order|
      ensures forall k :: 0 <= k < |list.nodes| ==>
                var n := list.nodes[k]; n.op == s.order[k] && n.op in node && node[n.op] == n
      ensures forall n :: n in list.nodes ==> n !in sends.repr + {this, sends, list}
    {
      hide Lanes.Valid, Lanes.Windows, SendsOk, RecvsOk, SeenSends, SeenRecvs;
    }

    /** The nodes of a list taken, as they stay linked. */
    ghost predicate Chain(ns: seq<SendNode>, k: nat, iter: SendNode?)
      reads ns
    {
      && k <= |ns| && iter == (if k == |ns| then null else ns[k])
      && (forall i :: 0 <= i < |ns| - 1 ==> ns[i].next == ns[i + 1])
      && (ns != [] ==> ns[|ns| - 1].next == null)
    }
  }

  lemma QueuedRings(s: Sched)
    requires SendsQueued(s)
    ensures RingsFor(s.sendR, s.sendQ)
  {
    hide IdsOf, SendQOf, RingsFor;
  }

  lemma SameRefl(rs: seq<Ring>)
    ensures SameDrained(rs, rs)
  {
    hide Drained;
  }

  lemma FlattenNext(q: seq<seq<OpId>>, f: nat)
    requires f < |q|
    ensures Flatten(q[f..]) == q[f] + Flatten(q[f + 1..])
  {
    assert q[f..][1..] == q[f + 1..];
  }

  lemma DrainNothing(q: Queued, none: seq<seq<OpId>>, dir: Dir, e: Code)
    requires none == []
    ensures DrainOps(q, Flatten(none), dir, e) == q
  {
  }
}
