/** How the tables, the send list and the fork queues keep their invariants under
    the elementary updates the steps are made of. */
module QueueProofs {
  import opened Common
  import opened Framing
  import opened Scheduler
  import opened Lists
  import opened Invariants

  // ---- fork table -------------------------------------------------------

  /** The fork of a session. */
  lemma IdsFork(forks: seq<Fork>, idMap: map<Sid, nat>, remoteMap: map<nat, nat>, nextLocal: nat)
    requires IdsOf(forks, idMap, remoteMap, nextLocal)
    ensures forall sid :: sid in idMap ==> idMap[sid] < |forks| && forks[idMap[sid]].sid == sid
  {
  }

  lemma IdsNew(forks: seq<Fork>, idMap: map<Sid, nat>, remoteMap: map<nat, nat>, nextLocal: nat,
               sid: Sid, mine: bool)
    requires IdsOf(forks, idMap, remoteMap, nextLocal)
    requires sid !in idMap
    requires mine ==> nextLocal < NO_SLOT
    ensures IdsOf(forks + [Fork(sid, if mine then nextLocal else NO_SLOT, NO_SLOT, false)],
                  idMap[sid := |forks|], remoteMap, if mine then nextLocal + 1 else nextLocal)
  {
    var f := Fork(sid, if mine then nextLocal else NO_SLOT, NO_SLOT, false);
    var forks' := forks + [f];
    assert forks'[|forks|] == f && forks'[..|forks|] == forks;
    assert forall i :: 0 <= i < |forks| ==> forks'[i] == forks[i];
  }

  lemma IdsLocal(forks: seq<Fork>, idMap: map<Sid, nat>, remoteMap: map<nat, nat>, nextLocal: nat, i: nat)
    requires IdsOf(forks, idMap, remoteMap, nextLocal)
    requires i < |forks| && forks[i].localId == NO_SLOT && nextLocal < NO_SLOT
    ensures IdsOf(forks[i := forks[i].(localId := nextLocal)], idMap, remoteMap, nextLocal + 1)
  {
  }

  lemma IdsRemote(forks: seq<Fork>, idMap: map<Sid, nat>, remoteMap: map<nat, nat>, nextLocal: nat,
                  i: nat, slot: nat)
    requires IdsOf(forks, idMap, remoteMap, nextLocal)
    requires i < |forks| && forks[i].remoteId == NO_SLOT && slot < NO_SLOT && slot !in remoteMap
    ensures IdsOf(forks[i := forks[i].(remoteId := slot)], idMap, remoteMap[slot := i], nextLocal)
  {
  }

  lemma IdsInitiated(forks: seq<Fork>, idMap: map<Sid, nat>, remoteMap: map<nat, nat>, nextLocal: nat, i: nat)
    requires IdsOf(forks, idMap, remoteMap, nextLocal)
    requires i < |forks| && forks[i].localId != NO_SLOT
    ensures IdsOf(forks[i := forks[i].(initiated := true)], idMap, remoteMap, nextLocal)
  {
  }

  /** The fork table only grows, and a local slot once given stays. */
  ghost predicate Grow(forks: seq<Fork>, idMap: map<Sid, nat>, forks': seq<Fork>, idMap': map<Sid, nat>) {
    && |forks| <= |forks'|
    && (forall sid :: sid in idMap ==> sid in idMap' && idMap'[sid] == idMap[sid])
    && (forall i :: 0 <= i < |forks| ==>
                      forks'[i].sid == forks[i].sid
                      && (forks[i].localId != NO_SLOT ==> forks'[i].localId == forks[i].localId)
                      && (forks[i].initiated ==> forks'[i].initiated))
  }

  lemma GrowSet(forks: seq<Fork>, idMap: map<Sid, nat>, i: nat, f: Fork)
    requires i < |forks| && f.sid == forks[i].sid
    requires forks[i].localId != NO_SLOT ==> f.localId == forks[i].localId
    requires forks[i].initiated ==> f.initiated
    ensures Grow(forks, idMap, forks[i := f], idMap)
  {
  }

  lemma GrowAdd(forks: seq<Fork>, idMap: map<Sid, nat>, f: Fork)
    requires f.sid !in idMap
    ensures Grow(forks, idMap, forks + [f], idMap[f.sid := |forks|])
  {
  }

  lemma OpsGrow(sops: map<OpId, SendOp>, rops: map<OpId, RecvOp>, forks: seq<Fork>, idMap: map<Sid, nat>,
                nextOp: nat, forks': seq<Fork>, idMap': map<Sid, nat>)
    requires OpsOf(sops, rops, forks, idMap, nextOp) && Grow(forks, idMap, forks', idMap')
    ensures OpsOf(sops, rops, forks', idMap', nextOp)
  {
  }

  lemma OpsMore(sops: map<OpId, SendOp>, rops: map<OpId, RecvOp>, forks: seq<Fork>, idMap: map<Sid, nat>,
                nextOp: nat)
    requires OpsOf(sops, rops, forks, idMap, nextOp)
    ensures OpsOf(sops, rops, forks, idMap, nextOp + 1)
  {
  }

  // ---- send list --------------------------------------------------------

  lemma AscendingPush(s: seq<OpId>, op: OpId)
    requires Ascending(s) && forall x :: x in s ==> x < op
    ensures Ascending(s + [op])
  {
    forall i, j | 0 <= i < j < |s + [op]|
      ensures (s + [op])[i] < (s + [op])[j]
    {
      assert s[i] in s;
    }
  }

  lemma ListPush(order: seq<OpId>, sops: map<OpId, SendOp>, status: map<OpId, Status>,
                 op: OpId, r: SendOp, st: Status)
    requires ListOf(order, sops, status)
    requires forall x :: x in order ==> x < op
    requires order != [] ==> st == NotStarted
    ensures ListOf(order + [op], sops[op := r], status[op := st])
  {
    AscendingPush(order, op);
    assert order != [] ==> (order + [op])[1..] == order[1..] + [op];
  }

  lemma ListPop(order: seq<OpId>, sops: map<OpId, SendOp>, status: map<OpId, Status>)
    requires ListOf(order, sops, status) && order != []
    ensures ListOf(order[1..], sops, status)
  {
  }

  lemma AscendingCons(x: OpId, s: seq<OpId>)
    requires Ascending(s) && forall y :: y in s ==> x < y
    ensures Ascending([x] + s)
  {
    forall i, j | 0 <= i < j < |[x] + s|
      ensures ([x] + s)[i] < ([x] + s)[j]
    {
      assert s[j - 1] in s;
    }
  }

  lemma AscendingTail(s: seq<OpId>)
    requires Ascending(s) && s != []
    ensures Ascending(s[1..]) && forall y :: y in s[1..] ==> s[0] < y
  {
  }

  lemma {:induction false} AscendingWithout(s: seq<OpId>, w: set<OpId>)
    requires Ascending(s)
    ensures Ascending(Without(s, w))
  {
    if s != [] {
      AscendingTail(s);
      AscendingWithout(s[1..], w);
      WithoutMembers(s[1..], w);
      AscendingCons(s[0], Without(s[1..], w));
      hide Ascending;
    }
  }

  lemma AscendingCount(s: seq<OpId>, op: OpId)
    requires Ascending(s) && op in s
    ensures multiset(s)[op] == 1
  {
    var i :| 0 <= i < |s| && s[i] == op;
    assert s == s[..i] + [op] + s[i + 1..];
    assert op !in s[..i] && op !in s[i + 1..];
  }

  lemma ListErase(order: seq<OpId>, sops: map<OpId, SendOp>, status: map<OpId, Status>, op: OpId)
    requires ListOf(order, sops, status)
    requires order != [] && order[0] != op
    ensures ListOf(Without(order, {op}), sops, status)
  {
    AscendingWithout(order, {op});
    WithoutHead(order, op);
    WithoutMembers(order[1..], {op});
    WithoutMembers(order, {op});
    hide Without, Ascending;
  }

  lemma SendQPush(sendQ: seq<seq<OpId>>, order: seq<OpId>, sops: map<OpId, SendOp>, forks: seq<Fork>,
                  idMap: map<Sid, nat>, remoteMap: map<nat, nat>, nextLocal: nat, op: OpId, r: SendOp)
    requires SendQOf(sendQ, order, sops, forks)
    requires IdsOf(forks, idMap, remoteMap, nextLocal)
    requires op !in order && r.sid in idMap
    ensures var i := idMap[r.sid];
            SendQOf(sendQ[i := sendQ[i] + [op]], order + [op], sops[op := r], forks)
  {
    var i := idMap[r.sid];
    forall j | 0 <= j < |forks|
      ensures On(order + [op], sops[op := r], forks[j].sid) == if j == i then sendQ[i] + [op] else sendQ[j]
    {
      OnAppend(order, [op], sops[op := r], forks[j].sid);
      OnFresh(order, sops, op, r, forks[j].sid);
      assert On([op], sops[op := r], forks[j].sid) == if r.sid == forks[j].sid then [op] else [];
    }
  }

  lemma SendQPop(sendQ: seq<seq<OpId>>, order: seq<OpId>, sops: map<OpId, SendOp>, forks: seq<Fork>,
                 idMap: map<Sid, nat>, remoteMap: map<nat, nat>, nextLocal: nat)
    requires SendQOf(sendQ, order, sops, forks)
    requires IdsOf(forks, idMap, remoteMap, nextLocal)
    requires order != [] && order[0] in sops && sops[order[0]].sid in idMap
    ensures var i := idMap[sops[order[0]].sid];
            && i < |sendQ| && sendQ[i] != [] && sendQ[i][0] == order[0]
            && SendQOf(sendQ[i := sendQ[i][1..]], order[1..], sops, forks)
  {
    var i := idMap[sops[order[0]].sid];
    forall j | 0 <= j < |forks|
      ensures On(order, sops, forks[j].sid) ==
              (if j == i then [order[0]] else []) + On(order[1..], sops, forks[j].sid)
    {
    }
    assert sendQ[i][1..] == On(order[1..], sops, forks[i].sid);
  }

  lemma SendQErase(sendQ: seq<seq<OpId>>, order: seq<OpId>, sops: map<OpId, SendOp>, forks: seq<Fork>,
                   idMap: map<Sid, nat>, remoteMap: map<nat, nat>, nextLocal: nat, op: OpId)
    requires SendQOf(sendQ, order, sops, forks)
    requires IdsOf(forks, idMap, remoteMap, nextLocal)
    requires op in sops && sops[op].sid in idMap
    ensures var i := idMap[sops[op].sid];
            i < |sendQ| && SendQOf(sendQ[i := Without(sendQ[i], {op})], Without(order, {op}), sops, forks)
  {
    var i := idMap[sops[op].sid];
    forall j | 0 <= j < |forks|
      ensures On(Without(order, {op}), sops, forks[j].sid) ==
              if j == i then Without(sendQ[i], {op}) else sendQ[j]
    {
      OnWithout(order, sops, forks[j].sid, {op});
      if j != i {
        OnMembers(order, sops, forks[j].sid);
        WithoutNone(sendQ[j], {op});
      }
    }
  }

  lemma SendQDrain(sops: map<OpId, SendOp>, forks: seq<Fork>)
    ensures SendQOf(NoQueues(|forks|), [], sops, forks)
  {
  }

  lemma Inhabited(s: seq<OpId>)
    ensures s != [] ==> exists op :: op in s
  {
    if s != [] {
      assert s[0] in s;
    }
  }

  /** A new fork has no send on it; changing ids of a fork moves no operation. */
  lemma SendQForks(sendQ: seq<seq<OpId>>, order: seq<OpId>, sops: map<OpId, SendOp>, rops: map<OpId, RecvOp>,
                   forks: seq<Fork>, idMap: map<Sid, nat>, nextOp: nat, sid: Sid, f: Fork)
    requires SendQOf(sendQ, order, sops, forks)
    requires OpsOf(sops, rops, forks, idMap, nextOp)
    requires sid !in idMap && f.sid == sid
    ensures SendQOf(sendQ + [[]], order, sops, forks + [f])
  {
    OnMembers(order, sops, sid);
    Inhabited(On(order, sops, sid));
  }

  // ---- recv queues ------------------------------------------------------

  lemma QueuePush(q: seq<OpId>, i: nat, rops: map<OpId, RecvOp>, status: map<OpId, Status>,
                  idMap: map<Sid, nat>, op: OpId, r: RecvOp, st: Status)
    requires QueueAt(q, i, rops, status, idMap)
    requires r.sid in idMap && idMap[r.sid] == i
    requires forall x :: x in rops ==> x < op
    ensures QueueAt(q + [op], i, rops[op := r], status[op := st], idMap)
  {
    assert forall x :: x in q ==> x in rops && x < op;
    AscendingPush(q, op);
  }

  lemma QueueSame(q: seq<OpId>, i: nat, rops: map<OpId, RecvOp>, status: map<OpId, Status>,
                  idMap: map<Sid, nat>, op: OpId, r: RecvOp, st: Status)
    requires QueueAt(q, i, rops, status, idMap) && op !in rops
    ensures QueueAt(q, i, rops[op := r], status[op := st], idMap)
  {
    hide Ascending;
  }

  lemma RecvQPush(recvQ: seq<seq<OpId>>, rops: map<OpId, RecvOp>, status: map<OpId, Status>,
                  idMap: map<Sid, nat>, numRecvs: nat, op: OpId, r: RecvOp, st: Status)
    requires RecvQOf(recvQ, rops, status, idMap, numRecvs)
    requires r.sid in idMap && idMap[r.sid] < |recvQ|
    requires forall x :: x in rops ==> x < op
    ensures var i := idMap[r.sid];
            RecvQOf(recvQ[i := recvQ[i] + [op]], rops[op := r], status[op := st], idMap, numRecvs + 1)
  {
    hide Flatten, QueueAt;
    var i := idMap[r.sid];
    FlattenPush(recvQ, i, op);
    forall j | 0 <= j < |recvQ|
      ensures QueueAt(if j == i then recvQ[j] + [op] else recvQ[j], j, rops[op := r], status[op := st], idMap)
    {
      if j == i {
        QueuePush(recvQ[j], j, rops, status, idMap, op, r, st);
      } else {
        assert op !in rops;
        QueueSame(recvQ[j], j, rops, status, idMap, op, r, st);
      }
    }
  }

  lemma FlattenPush(recvQ: seq<seq<OpId>>, i: nat, op: OpId)
    requires i < |recvQ|
    ensures |Flatten(recvQ[i := recvQ[i] + [op]])| == |Flatten(recvQ)| + 1
  {
    FlattenUpdate(recvQ, i, recvQ[i] + [op]);
    hide Flatten;
  }

  lemma RecvQPop(recvQ: seq<seq<OpId>>, rops: map<OpId, RecvOp>, status: map<OpId, Status>,
                 idMap: map<Sid, nat>, numRecvs: nat, i: nat)
    requires RecvQOf(recvQ, rops, status, idMap, numRecvs)
    requires i < |recvQ| && recvQ[i] != []
    ensures numRecvs > 0
    ensures RecvQOf(recvQ[i := recvQ[i][1..]], rops, status, idMap, numRecvs - 1)
  {
    hide Flatten;
    FlattenUpdate(recvQ, i, recvQ[i][1..]);
    FlattenBag(recvQ, i);
    assert QueueAt(recvQ[i], i, rops, status, idMap);
    assert QueueAt(recvQ[i][1..], i, rops, status, idMap);
  }

  lemma QueueErase(q: seq<OpId>, i: nat, rops: map<OpId, RecvOp>, status: map<OpId, Status>,
                   idMap: map<Sid, nat>, op: OpId)
    requires QueueAt(q, i, rops, status, idMap) && op in q
    ensures QueueAt(Without(q, {op}), i, rops, status, idMap)
    ensures |Without(q, {op})| == |q| - 1
  {
    AscendingCount(q, op);
    WithoutOne(q, op);
    AscendingWithout(q, {op});
    WithoutMembers(q, {op});
    hide Without;
  }

  lemma RecvQErase(recvQ: seq<seq<OpId>>, rops: map<OpId, RecvOp>, status: map<OpId, Status>,
                   idMap: map<Sid, nat>, numRecvs: nat, i: nat, op: OpId)
    requires RecvQOf(recvQ, rops, status, idMap, numRecvs)
    requires i < |recvQ| && op in recvQ[i]
    ensures numRecvs > 0
    ensures RecvQOf(recvQ[i := Without(recvQ[i], {op})], rops, status, idMap, numRecvs - 1)
  {
    hide Flatten, Without, QueueAt;
    QueueErase(recvQ[i], i, rops, status, idMap, op);
    FlattenUpdate(recvQ, i, Without(recvQ[i], {op}));
    FlattenBag(recvQ, i);
  }

  lemma RecvQDrain(rops: map<OpId, RecvOp>, status: map<OpId, Status>, idMap: map<Sid, nat>, n: nat)
    ensures RecvQOf(NoQueues(n), rops, status, idMap, 0)
  {
    FlattenEmpty(n);
  }

  /** An operation that is queued is in the queue of its fork. */
  lemma RecvQWhere(recvQ: seq<seq<OpId>>, rops: map<OpId, RecvOp>, status: map<OpId, Status>,
                   idMap: map<Sid, nat>, numRecvs: nat, op: OpId)
    requires RecvQOf(recvQ, rops, status, idMap, numRecvs)
    requires op in Flatten(recvQ)
    ensures op in rops && op in status && rops[op].sid in idMap && idMap[rops[op].sid] < |recvQ|
    ensures op in recvQ[idMap[rops[op].sid]] && numRecvs > 0
  {
    FlattenMembers(recvQ);
    hide Flatten;
    var i :| 0 <= i < |recvQ| && op in recvQ[i];
    assert QueueAt(recvQ[i], i, rops, status, idMap);
  }

  lemma RecvQNew(recvQ: seq<seq<OpId>>, rops: map<OpId, RecvOp>, status: map<OpId, Status>,
                 idMap: map<Sid, nat>, numRecvs: nat, sid: Sid)
    requires RecvQOf(recvQ, rops, status, idMap, numRecvs)
    requires sid !in idMap
    ensures RecvQOf(recvQ + [[]], rops, status, idMap[sid := |recvQ|], numRecvs)
    ensures Flatten(recvQ + [[]]) == Flatten(recvQ)
  {
    FlattenAppend(recvQ, [[]]);
    assert Flatten([[]]) == [];
    hide Flatten;
    forall i | 0 <= i < |recvQ|
      ensures QueueAt((recvQ + [[]])[i], i, rops, status, idMap[sid := |recvQ|])
    {
      assert QueueAt(recvQ[i], i, rops, status, idMap);
    }
  }
}
