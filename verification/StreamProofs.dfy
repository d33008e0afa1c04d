/** How the frame streams, the ledger of sends and the execution queue keep their
    invariants under the elementary updates the steps are made of. */
module StreamProofs {
  import opened Common
  import opened Framing
  import opened Streams
  import opened Scheduler
  import opened Lists
  import opened Invariants
  import opened QueueProofs

  // ---- frames begun -----------------------------------------------------

  /** Announcing a fork: its slot and session are new to the stream. */
  lemma TxUnused(tx: seq<Frame>, forks: seq<Fork>, idMap: map<Sid, nat>, remoteMap: map<nat, nat>,
                 nextLocal: nat, i: nat)
    requires TxOf(tx, forks) && IdsOf(forks, idMap, remoteMap, nextLocal)
    requires i < |forks| && !forks[i].initiated && forks[i].localId != NO_SLOT
    ensures forks[i].localId < NO_SLOT && forks[i].localId !in Slots(tx)
    ensures forall slot :: slot in Slots(tx) ==> Slots(tx)[slot] != forks[i].sid
  {
    hide Slots, ValidFrames, Announced;
    forall slot | slot in Slots(tx)
      ensures slot != forks[i].localId && Slots(tx)[slot] != forks[i].sid
    {
      var j :| 0 <= j < |forks| && forks[j].initiated && forks[j].localId == slot;
      assert idMap[forks[j].sid] == j;
    }
  }

  lemma TxMeta(tx: seq<Frame>, forks: seq<Fork>, idMap: map<Sid, nat>, remoteMap: map<nat, nat>,
               nextLocal: nat, i: nat)
    requires TxOf(tx, forks) && IdsOf(forks, idMap, remoteMap, nextLocal)
    requires i < |forks| && !forks[i].initiated && forks[i].localId != NO_SLOT
    ensures TxOf(tx + [Meta(forks[i].localId, forks[i].sid)], forks[i := forks[i].(initiated := true)])
  {
    var m := Meta(forks[i].localId, forks[i].sid);
    TxUnused(tx, forks, idMap, remoteMap, nextLocal, i);
    Snoc(tx, m);
    OwnersMore(Slots(tx), forks, i);
    hide IdsOf, Slots, Announced;
  }

  /** The forks that have announced their slots are those the slots belong to. */
  lemma OwnersMore(slots: map<nat, Sid>, forks: seq<Fork>, i: nat)
    requires forall j :: 0 <= j < |forks| && forks[j].initiated ==>
                           forks[j].localId in slots && slots[forks[j].localId] == forks[j].sid
    requires forall slot :: slot in slots ==>
                              exists j :: 0 <= j < |forks| && forks[j].initiated && forks[j].localId == slot
    requires i < |forks| && !forks[i].initiated && forks[i].localId !in slots
    ensures var slots' := slots[forks[i].localId := forks[i].sid];
            var forks' := forks[i := forks[i].(initiated := true)];
            && (forall j :: 0 <= j < |forks'| && forks'[j].initiated ==>
                              forks'[j].localId in slots' && slots'[forks'[j].localId] == forks'[j].sid)
            && (forall slot :: slot in slots' ==>
                                 exists j :: 0 <= j < |forks'| && forks'[j].initiated && forks'[j].localId == slot)
  {
    var slots' := slots[forks[i].localId := forks[i].sid];
    var forks' := forks[i := forks[i].(initiated := true)];
    forall slot | slot in slots'
      ensures exists j :: 0 <= j < |forks'| && forks'[j].initiated && forks'[j].localId == slot
    {
      if slot == forks[i].localId {
        assert forks'[i].initiated;
      } else {
        var j :| 0 <= j < |forks| && forks[j].initiated && forks[j].localId == slot;
        assert forks'[j].initiated;
      }
    }
  }

  lemma TxData(tx: seq<Frame>, forks: seq<Fork>, i: nat, body: Bytes)
    requires TxOf(tx, forks)
    requires i < |forks| && forks[i].initiated && 0 < |body| < U32
    ensures TxOf(tx + [Data(forks[i].localId, body)], forks)
  {
    var slot := forks[i].localId;
    Snoc(tx, Data(slot, body));
    MetaSlot(tx, slot);
  }

  lemma {:induction false} MetaSlot(tx: seq<Frame>, slot: nat)
    requires Announced(tx) && slot in Slots(tx)
    ensures slot < NO_SLOT
    decreases |tx|
  {
    var f := tx[|tx| - 1];
    if !(f.Meta? && f.slot == slot) {
      MetaSlot(tx[..|tx| - 1], slot);
    }
  }

  /** Forks not announced may change freely, and new ones may appear. */
  lemma TxForks(tx: seq<Frame>, forks: seq<Fork>, forks': seq<Fork>)
    requires TxOf(tx, forks)
    requires |forks| <= |forks'|
    requires forall i :: 0 <= i < |forks| ==>
                           forks'[i].initiated == forks[i].initiated && forks'[i].sid == forks[i].sid
                           && (forks[i].initiated ==> forks'[i].localId == forks[i].localId)
    requires forall i :: |forks| <= i < |forks'| ==> !forks'[i].initiated
    ensures TxOf(tx, forks')
  {
    forall slot | slot in Slots(tx)
      ensures exists i :: 0 <= i < |forks'| && forks'[i].initiated && forks'[i].localId == slot
    {
      var i :| 0 <= i < |forks| && forks[i].initiated && forks[i].localId == slot;
      assert forks'[i].initiated;
    }
  }

  lemma BodiesMeta(tx: seq<Frame>, begun: seq<OpId>, sops: map<OpId, SendOp>, m: Frame)
    requires BodiesOf(tx, begun, sops) && m.Meta?
    ensures BodiesOf(tx + [m], begun, sops)
  {
    Snoc(tx, m);
    AllBodiesSnoc(tx, m);
  }

  lemma BodiesData(tx: seq<Frame>, forks: seq<Fork>, begun: seq<OpId>, sops: map<OpId, SendOp>,
                   i: nat, op: OpId)
    requires TxOf(tx, forks) && BodiesOf(tx, begun, sops)
    requires i < |forks| && forks[i].initiated && op in sops && sops[op].sid == forks[i].sid
    ensures BodiesOf(tx + [Data(forks[i].localId, sops[op].body)], begun + [op], sops)
  {
    Snoc(tx, Data(forks[i].localId, sops[op].body));
    AllBodiesSnoc(tx, Data(forks[i].localId, sops[op].body));
    assert (begun + [op])[..|begun|] == begun;
    forall sid
      ensures BodiesOn(begun + [op], sops, sid) ==
              BodiesOn(begun, sops, sid) + if sops[op].sid == sid then [sops[op].body] else []
    {
      BodiesOnAppend(begun, [op], sops, sid);
      assert BodiesOn([op], sops, sid) == if sops[op].sid == sid then [sops[op].body] else [];
    }
  }

  lemma BodiesFresh(tx: seq<Frame>, begun: seq<OpId>, sops: map<OpId, SendOp>, op: OpId, r: SendOp)
    requires BodiesOf(tx, begun, sops) && op !in sops
    ensures BodiesOf(tx, begun, sops[op := r])
  {
    forall sid
      ensures BodiesOn(begun, sops[op := r], sid) == BodiesOn(begun, sops, sid)
    {
      OnFresh(begun, sops, op, r, sid);
    }
    BodiesAllFresh(begun, sops, op, r);
  }

  // ---- ledger of sends --------------------------------------------------

  lemma LedgerPush(accepted: seq<OpId>, withdrawn: set<OpId>, begun: seq<OpId>, order: seq<OpId>,
                   headBegun: bool, op: OpId)
    requires LedgerOf(accepted, withdrawn, begun, order, headBegun, false, op)
    requires headBegun ==> order != []
    ensures LedgerOf(accepted + [op], withdrawn, begun, order + [op], headBegun, false, op + 1)
  {
    WithoutAppend(accepted, [op], withdrawn);
    assert Without([op], withdrawn) == [op];
    AscendingPush(accepted, op);
    assert Unbegun(order + [op], headBegun) == Unbegun(order, headBegun) + [op];
    assert begun + (Unbegun(order, headBegun) + [op]) == begun + Unbegun(order, headBegun) + [op];
  }

  lemma LedgerErase(accepted: seq<OpId>, withdrawn: set<OpId>, begun: seq<OpId>, order: seq<OpId>,
                    headBegun: bool, nextOp: nat, op: OpId)
    requires LedgerOf(accepted, withdrawn, begun, order, headBegun, false, nextOp)
    requires order != [] && op in order[1..] && op != order[0] && op < nextOp
    ensures LedgerOf(accepted, withdrawn + {op}, begun, Without(order, {op}), headBegun, false, nextOp)
  {
    var rest := Unbegun(order, headBegun);
    var live := Without(accepted, withdrawn);
    WithoutTwice(accepted, withdrawn, {op});
    WithoutAppend(begun, rest, {op});
    WithoutHead(order, op);
    assert op !in begun by {
      AscendingWithout(accepted, withdrawn);
      assert op in rest;
      var j :| 0 <= j < |rest| && rest[j] == op;
      assert live[|begun| + j] == op;
      assert forall i :: 0 <= i < |begun| ==> begun[i] == live[i];
    }
    WithoutNone(begun, {op});
    assert Without(rest, {op}) == Unbegun(Without(order, {op}), headBegun);
  }

  // ---- frames processed -------------------------------------------------

  lemma RxMeta(rx: seq<Frame>, remoteMap: map<nat, nat>, forks: seq<Fork>, idMap: map<Sid, nat>,
               nextLocal: nat, slot: nat, sid: Sid)
    requires RxMapOf(rx, remoteMap, forks) && IdsOf(forks, idMap, remoteMap, nextLocal)
    requires ValidFrames(rx) && Announced(rx)
    requires sid in idMap && forks[idMap[sid]].remoteId == NO_SLOT
    requires slot < NO_SLOT && slot !in remoteMap
    ensures var i := idMap[sid];
            && ValidFrames(rx + [Meta(slot, sid)]) && Announced(rx + [Meta(slot, sid)])
            && RxMapOf(rx + [Meta(slot, sid)], remoteMap[slot := i], forks[i := forks[i].(remoteId := slot)])
  {
    RxUnused(rx, remoteMap, forks, idMap, nextLocal, sid);
    Snoc(rx, Meta(slot, sid));
    assert idMap[sid] < |forks| && forks[idMap[sid]].sid == sid;
    hide IdsOf, Slots, ValidFrames, Announced;
  }

  lemma RxUnused(rx: seq<Frame>, remoteMap: map<nat, nat>, forks: seq<Fork>, idMap: map<Sid, nat>,
                 nextLocal: nat, sid: Sid)
    requires RxMapOf(rx, remoteMap, forks) && IdsOf(forks, idMap, remoteMap, nextLocal)
    requires sid in idMap && forks[idMap[sid]].remoteId == NO_SLOT
    ensures forall s :: s in Slots(rx) ==> Slots(rx)[s] != sid
  {
    hide Slots;
    forall s | s in Slots(rx)
      ensures Slots(rx)[s] != sid
    {
      assert forks[remoteMap[s]].remoteId == s;
    }
  }

  lemma RxData(rx: seq<Frame>, remoteMap: map<nat, nat>, forks: seq<Fork>, slot: nat, body: Bytes)
    requires RxMapOf(rx, remoteMap, forks) && ValidFrames(rx) && Announced(rx)
    requires slot in remoteMap && slot < U32 && 0 < |body| < U32
    ensures ValidFrames(rx + [Data(slot, body)]) && Announced(rx + [Data(slot, body)])
    ensures RxMapOf(rx + [Data(slot, body)], remoteMap, forks)
    ensures forall sid :: Bodies(rx + [Data(slot, body)], sid) ==
                          Bodies(rx, sid) + if forks[remoteMap[slot]].sid == sid then [body] else []
  {
    Snoc(rx, Data(slot, body));
  }

  lemma RxForks(rx: seq<Frame>, remoteMap: map<nat, nat>, forks: seq<Fork>, forks': seq<Fork>)
    requires RxMapOf(rx, remoteMap, forks)
    requires |forks| <= |forks'| && forall i :: 0 <= i < |forks| ==> forks'[i].sid == forks[i].sid
    ensures RxMapOf(rx, remoteMap, forks')
  {
  }

  // ---- each handle once -------------------------------------------------

  lemma BagCancel<T>(a: multiset<T>, b: multiset<T>, c: multiset<T>)
    requires a + c == b + c
    ensures a == b
  {
    forall x
      ensures a[x] == b[x]
    {
      assert (a + c)[x] == (b + c)[x];
    }
  }

  /** A new call, pending or with its handle queued at once. */
  lemma OnceNew(order: seq<OpId>, recvQ: seq<seq<OpId>>, log: seq<Handle>, op: OpId,
                order': seq<OpId>, recvQ': seq<seq<OpId>>, log': seq<Handle>)
    requires OnceOf(order, recvQ, log, op)
    requires Pends(order', recvQ') + DoneBag(log') == Pends(order, recvQ) + DoneBag(log) + multiset{op}
    ensures OnceOf(order', recvQ', log', op + 1)
  {
    hide Flatten, DoneBag, Pends;
    forall x: OpId
      ensures (Pends(order', recvQ') + DoneBag(log'))[x] == if x < op + 1 then 1 else 0
    {
      assert (Pends(order, recvQ) + DoneBag(log))[x] == if x < op then 1 else 0;
    }
  }

  lemma OncePushSend(order: seq<OpId>, recvQ: seq<seq<OpId>>, log: seq<Handle>, op: OpId)
    requires OnceOf(order, recvQ, log, op)
    ensures OnceOf(order + [op], recvQ, log, op + 1)
    ensures Pends(order + [op], recvQ) == Pends(order, recvQ) + multiset{op}
  {
    assert Pends(order + [op], recvQ) == Pends(order, recvQ) + multiset{op};
    OnceNew(order, recvQ, log, op, order + [op], recvQ, log);
  }

  lemma PendsPushRecv(order: seq<OpId>, recvQ: seq<seq<OpId>>, i: nat, op: OpId)
    requires i < |recvQ|
    ensures Pends(order, recvQ[i := recvQ[i] + [op]]) == Pends(order, recvQ) + multiset{op}
  {
    FlattenUpdate(recvQ, i, recvQ[i] + [op]);
    hide Flatten;
    var f, f' := multiset(Flatten(recvQ)), multiset(Flatten(recvQ[i := recvQ[i] + [op]]));
    var c := multiset(recvQ[i]);
    assert multiset(recvQ[i] + [op]) == c + multiset{op};
    assert f + (c + multiset{op}) == (f + multiset{op}) + c;
    BagCancel(f', f + multiset{op}, c);
  }

  lemma OncePushRecv(order: seq<OpId>, recvQ: seq<seq<OpId>>, log: seq<Handle>, op: OpId, i: nat)
    requires OnceOf(order, recvQ, log, op) && i < |recvQ|
    ensures OnceOf(order, recvQ[i := recvQ[i] + [op]], log, op + 1)
  {
    PendsPushRecv(order, recvQ, i, op);
    OnceNew(order, recvQ, log, op, order, recvQ[i := recvQ[i] + [op]], log);
  }

  lemma OnceRefuse(order: seq<OpId>, recvQ: seq<seq<OpId>>, log: seq<Handle>, op: OpId, r: Result)
    requires OnceOf(order, recvQ, log, op)
    ensures OnceOf(order, recvQ, log + [OpDone(op, r)], op + 1)
  {
    LogSnoc(log, OpDone(op, r));
    OnceNew(order, recvQ, log, op, order, recvQ, log + [OpDone(op, r)]);
  }

  /** Completion of pending operations: they move from the queues to the log. */
  lemma OnceMove(order: seq<OpId>, recvQ: seq<seq<OpId>>, log: seq<Handle>, nextOp: nat,
                 order': seq<OpId>, recvQ': seq<seq<OpId>>, log': seq<Handle>, done: multiset<OpId>)
    requires OnceOf(order, recvQ, log, nextOp)
    requires Pends(order, recvQ) == Pends(order', recvQ') + done
    requires DoneBag(log') == DoneBag(log) + done
    ensures OnceOf(order', recvQ', log', nextOp)
  {
    hide Flatten, DoneBag, Pends;
    assert Pends(order', recvQ') + DoneBag(log') == Pends(order, recvQ) + DoneBag(log);
  }

  lemma PendsPopSend(order: seq<OpId>, recvQ: seq<seq<OpId>>)
    requires order != []
    ensures Pends(order, recvQ) == Pends(order[1..], recvQ) + multiset{order[0]}
  {
    assert order == [order[0]] + order[1..];
  }

  /** Replacing a recv queue by one that lacks `op` once. */
  lemma PendsShrink(order: seq<OpId>, recvQ: seq<seq<OpId>>, i: nat, r: seq<OpId>, op: OpId)
    requires i < |recvQ| && multiset(recvQ[i]) == multiset(r) + multiset{op}
    ensures Pends(order, recvQ) == Pends(order, recvQ[i := r]) + multiset{op}
  {
    FlattenUpdate(recvQ, i, r);
    hide Flatten;
    var f, f' := multiset(Flatten(recvQ)), multiset(Flatten(recvQ[i := r]));
    var c := multiset(r);
    assert f' + (c + multiset{op}) == (f' + multiset{op}) + c;
    BagCancel(f, f' + multiset{op}, c);
  }

  lemma PendsPopRecv(order: seq<OpId>, recvQ: seq<seq<OpId>>, i: nat)
    requires i < |recvQ| && recvQ[i] != []
    ensures Pends(order, recvQ) == Pends(order, recvQ[i := recvQ[i][1..]]) + multiset{recvQ[i][0]}
  {
    assert recvQ[i] == [recvQ[i][0]] + recvQ[i][1..];
    PendsShrink(order, recvQ, i, recvQ[i][1..], recvQ[i][0]);
  }

  lemma PendsEraseSend(order: seq<OpId>, recvQ: seq<seq<OpId>>, op: OpId)
    requires Ascending(order) && op in order
    ensures Pends(order, recvQ) == Pends(Without(order, {op}), recvQ) + multiset{op}
  {
    AscendingCount(order, op);
    WithoutOne(order, op);
  }

  lemma PendsEraseRecv(order: seq<OpId>, recvQ: seq<seq<OpId>>, i: nat, op: OpId)
    requires i < |recvQ| && Ascending(recvQ[i]) && op in recvQ[i]
    ensures Pends(order, recvQ) == Pends(order, recvQ[i := Without(recvQ[i], {op})]) + multiset{op}
  {
    AscendingCount(recvQ[i], op);
    WithoutOne(recvQ[i], op);
    PendsShrink(order, recvQ, i, Without(recvQ[i], {op}), op);
  }

  lemma PendsDrainRecv(order: seq<OpId>, recvQ: seq<seq<OpId>>)
    ensures Pends(order, recvQ) == Pends(order, NoQueues(|recvQ|)) + multiset(Flatten(recvQ))
  {
    FlattenEmpty(|recvQ|);
  }
}
