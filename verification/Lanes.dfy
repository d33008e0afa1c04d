/** The queues of one direction, one for each fork: distinct objects that share no block,
    so a call on one leaves the others as they are. */
module Lanes {
  import opened Common
  import opened Bits
  import opened Rings
  import opened Queue

  /** No two of the sets share an object, and all are within `all`. */
  ghost predicate Apart(feet: seq<set<object>>, all: set<object>) {
    && (forall i :: 0 <= i < |feet| ==> feet[i] <= all)
    && (forall i, j :: 0 <= i < j < |feet| ==> feet[i] !! feet[j])
  }

  lemma ApartSnoc(feet: seq<set<object>>, all: set<object>, foot: set<object>)
    requires Apart(feet, all) && foot !! all
    ensures Apart(feet + [foot], all + foot)
  {
  }

  lemma ApartSet(feet: seq<set<object>>, all: set<object>, i: nat, foot: set<object>)
    requires Apart(feet, all) && i < |feet| && (foot - feet[i]) !! all
    ensures Apart(feet[i := foot], all + foot)
  {
  }

  lemma ApartAt(feet: seq<set<object>>, all: set<object>, i: nat)
    requires Apart(feet, all) && i < |feet|
    ensures forall j :: 0 <= j < |feet| && j != i ==> feet[j] !! feet[i]
  {
  }

  class Lanes<T> {
    var qs: seq<Queue<T>>
    ghost var feet: seq<set<object>>  // each queue and its blocks
    ghost var repr: set<object>

    ghost predicate Lane(i: nat)
      requires i < |qs| == |feet|
      reads this, if i < |feet| then feet[i] else {}
    {
      && qs[i] in feet[i] && qs[i].Footprint() == feet[i] - {qs[i]} && qs[i].Valid()
    }

    ghost predicate Valid()
      reads this, repr
    {
      && this !in repr && |feet| == |qs| && Apart(feet, repr)
      && forall i :: 0 <= i < |qs| ==> feet[i] <= repr && qs[i] in repr && qs[i].Footprint() <= repr && Lane(i)
    }

    ghost function Windows(): (rs: seq<seq<Window<Block<T>, T>>>)
      reads this, repr
      requires Valid()
      ensures |rs| == |qs|
    {
      seq(|qs|, i requires 0 <= i < |qs| && qs[i] in repr && qs[i].Footprint() <= repr reads this, repr => qs[i].Windows())
    }

    constructor ()
      ensures Valid() && qs == [] && repr == {}
    {
      qs, feet, repr := [], [], {};
    }

    /** A new fork. */
    method Add()
      requires Valid()
      modifies this
      ensures Valid() && fresh(repr - old(repr)) && |qs| == |old(qs)| + 1
      ensures exists b: Block<T> :: Windows() == old(Windows()) + [Fresh(b, DEFAULT_CAPACITY)]
    {
      hide Queue.Linked, Queue.Footprint, Queue.Windows, Apart, Ready, AllLive;
      var q := new Queue<T>();
      q.Ends();
      hide Queue.Valid;
      ghost var rs := Windows();
      ghost var foot := {q} + q.Footprint();
      ApartSnoc(feet, repr, foot);
      qs := qs + [q];
      feet := feet + [foot];
      repr := repr + foot;
      assert forall i :: 0 <= i < |rs| ==> qs[i].Windows() == rs[i];
      assert Windows() == rs + [Fresh(q.first, DEFAULT_CAPACITY)];
    }

    /** A call on the queue of fork `i` has left it valid; nothing of the others was touched. */
    ghost method Settle(i: nat, rs: seq<seq<Window<Block<T>, T>>>)
      requires this !in repr && |feet| == |qs| == |rs| && Apart(feet, repr) && i < |qs|
      requires forall j :: 0 <= j < |qs| ==> feet[j] <= repr && qs[j] in repr && qs[j] in feet[j]
      requires forall j :: 0 <= j < |qs| && j != i ==> Lane(j) && qs[j].Windows() == rs[j]
      requires qs[i].Valid() && (qs[i].Footprint() - feet[i]) !! repr && this !in qs[i].Footprint()
      modifies this`feet, this`repr
      ensures Valid() && repr == old(repr) + qs[i].Footprint()
      ensures Windows() == rs[i := old(qs[i].Windows())]
    {
      hide Queue.Linked, Queue.Windows, Ready, AllLive, Queue.Footprint;
      ghost var foot := {qs[i]} + qs[i].Footprint();
      qs[i].Ends();
      hide Queue.Valid;
      ApartSet(feet, repr, i, foot);
      hide Apart;
      repr := repr + foot;
      feet := feet[i := foot];
      assert forall j :: 0 <= j < |qs| ==> qs[j].Windows() == rs[i := qs[i].Windows()][j];
    }

    /** The address of the new element is `slot` of `block`. */
    method Push(i: nat, x: T) returns (block: Block<T>, slot: nat, ghost index: nat)
      requires Valid() && i < |qs|
      modifies this, repr
      ensures Valid() && fresh(repr - old(repr)) && qs == old(qs)
      ensures Windows() == old(Windows())[i := RingPush(old(Windows())[i], x, block)]
      ensures AllLive(Windows()[i]) == AllLive(old(Windows())[i]) + [Item(block, index, x)]
      ensures slot == And(index, block.mask)
    {
      hide Queue.Valid, Queue.Footprint, Queue.Windows, Apart, AllLive, RingPush;
      ghost var rs := Windows();
      assert Lane(i);
      ApartAt(feet, repr, i);
      assert forall j :: 0 <= j < |qs| && j != i ==> Lane(j) && qs[j].Windows() == rs[j];
      qs[i].PushBack(x);
      block, index, slot := qs[i].last, qs[i].last.end - 1, And(qs[i].last.end - 1, qs[i].last.mask);
      Settle(i, rs);
    }

    function Front(i: nat): (x: T)
      requires Valid() && i < |qs| && !IsEmpty(i)
      reads this, repr
      ensures AllLive(Windows()[i]) != [] && x == AllLive(Windows()[i])[0].value
    {
      assert Lane(i);
      qs[i].Front()
    }

    predicate IsEmpty(i: nat)
      requires Valid() && i < |qs|
      reads this, repr
      ensures IsEmpty(i) <==> AllLive(Windows()[i]) == []
    {
      assert Lane(i);
      qs[i].size == 0
    }

    /** The newest element, if it is still there. */
    function Back(i: nat): (x: Option<T>)
      requires Valid() && i < |qs| && !IsEmpty(i)
      reads this, repr
      ensures x.Some? <==> BackLive(Windows()[i])
      ensures x.Some? ==> var items := AllLive(Windows()[i]); items != [] && x.value == items[|items| - 1].value
    {
      assert Lane(i);
      qs[i].Back()
    }

    method Pop(i: nat)
      requires Valid() && i < |qs| && !IsEmpty(i)
      modifies this, repr
      ensures Valid() && repr == old(repr) && qs == old(qs)
      ensures Windows() == old(Windows())[i := RingPop(old(Windows())[i])]
      ensures AllLive(Windows()[i]) == AllLive(old(Windows())[i])[1..]
    {
      hide Queue.Valid, Queue.Footprint, Queue.Windows, Apart, AllLive, RingPop;
      ghost var rs := Windows();
      assert Lane(i);
      ApartAt(feet, repr, i);
      assert forall j :: 0 <= j < |qs| && j != i ==> Lane(j) && qs[j].Windows() == rs[j];
      qs[i].PopFront();
      Settle(i, rs);
    }

    /** The element at an address is erased, unless the address is not its index. */
    method EraseSlot(i: nat, block: Block<T>, slot: nat, ghost p: nat) returns (ok: bool)
      requires Valid() && i < |qs| && p < |AllLive(Windows()[i])|
      requires AllLive(Windows()[i])[p].block == block && slot == And(AllLive(Windows()[i])[p].index, block.mask)
      modifies this, repr
      ensures Valid() && repr == old(repr) && qs == old(qs)
      ensures ok <==> UnwrappedAt(old(Windows())[i], p)
      ensures !ok ==> Windows() == old(Windows())
      ensures ok ==> ErasedAt(old(Windows())[i], Windows()[i], p)
      ensures ok ==> Windows() == old(Windows())[i := Windows()[i]]
      ensures ok ==> AllLive(Windows()[i]) == Remove(AllLive(old(Windows())[i]), p)
    {
      hide Queue.Valid, Queue.Footprint, Queue.Windows, Apart, AllLive, ErasedAt, UnwrappedAt, Remove;
      ghost var rs := Windows();
      assert Lane(i);
      ApartAt(feet, repr, i);
      assert forall j :: 0 <= j < |qs| && j != i ==> Lane(j) && qs[j].Windows() == rs[j];
      ok := qs[i].EraseSlot(block, slot, p);
      Settle(i, rs);
    }
  }
}
