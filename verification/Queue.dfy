/** The queue of operations a fork keeps: a linked list of ring blocks, each twice the
    capacity of the one before, whose erased slots are left behind as tombstones. */
module Queue {
  import opened Common
  import opened Bits
  import opened Rings

  // ---- a ring block -------------------------------------------------------

  class Block<T> {
    const data: array<Option<T>>
    const mask: nat
    var next: Block?<T>
    var begin: nat
    var end: nat
    ghost var view: seq<Option<T>>

    ghost predicate Valid()
      reads this, data
    {
      && IsPow2(data.Length) && mask == data.Length - 1
      && end == begin + |view| && |view| <= data.Length
      && forall i :: begin <= i < end ==> data[And(i, mask)] == view[i - begin]
    }

    constructor (capacity: nat)
      requires IsPow2(capacity)
      ensures Valid() && fresh(data) && data.Length == capacity
      ensures view == [] && next == null && begin == 0
    {
      data := new Option<T>[capacity](_ => None);
      mask := capacity - 1;
      next, begin, end, view := null, 0, 0, [];
    }

    method PushBack(x: T)
      requires Valid() && end - begin < data.Length
      modifies this`end, this`view, data
      ensures Valid() && view == old(view) + [Some(x)]
    {
      forall i | begin <= i < end
        ensures And(i, mask) != And(end, mask)
      {
        SlotsApart(i, end, data.Length);
      }
      data[And(end, mask)] := Some(x);
      end := end + 1;
      view := view + [Some(x)];
    }

    /** entry.reset() at a logical index */
    method Reset(index: nat)
      requires Valid() && begin <= index < end
      modifies this`view, data
      ensures Valid() && view == old(view)[index - begin := None]
    {
      forall i | begin <= i < end && i != index
        ensures And(i, mask) != And(index, mask)
      {
        if i < index {
          SlotsApart(i, index, data.Length);
        } else {
          SlotsApart(index, i, data.Length);
        }
      }
      data[And(index, mask)] := None;
      view := view[index - begin := None];
    }

    method DropFront()
      requires Valid() && begin < end
      modifies this`begin, this`view
      ensures Valid() && begin == old(begin) + 1 && view == old(view)[1..]
    {
      begin := begin + 1;
      view := view[1..];
    }
  }

  /** The objects of a list of blocks. */
  ghost function Nodes<T>(bs: seq<Block<T>>): (s: set<object>)
    ensures forall b :: b in bs ==> b in s && b.data in s
  {
    (set b: Block<T> | b in bs :: b as object) + (set b: Block<T> | b in bs :: b.data as object)
  }

  lemma NodesSnoc<T>(bs: seq<Block<T>>, b: Block<T>)
    ensures Nodes(bs + [b]) == Nodes(bs) + {b, b.data}
  {
  }

  ghost function WindowsOf<T>(bs: seq<Block<T>>): (ws: seq<Window<Block<T>, T>>)
    reads Nodes(bs)
    ensures |ws| == |bs|
  {
    seq(|bs|, i requires 0 <= i < |bs| reads Nodes(bs) => Window(bs[i], bs[i].data.Length, bs[i].begin, bs[i].view))
  }

  /** Queue::Iterator; `End` is end(). */
  datatype Iterator<T> = End | At(block: Block<T>, index: nat)

  const DEFAULT_CAPACITY: nat := 8

  lemma FrontTombView<T>(ws: seq<Window<Block<T>, T>>)
    requires FrontTomb(ws)
    ensures ws != [] && ws[0].view != [] && Trim(DropSlot(ws)) == Trim(ws)
  {
  }

  class Queue<T> {
    var first: Block<T>
    var last: Block<T>
    var size: nat
    ghost var blocks: seq<Block<T>>

    ghost function Footprint(): set<object>
      reads this`blocks
    {
      Nodes(blocks)
    }

    /** The blocks form a list of distinct rings; only the last may be empty. */
    ghost predicate Linked()
      reads this`first, this`last, this`blocks, Footprint()
    {
      && |blocks| > 0 && first == blocks[0] && last == blocks[|blocks| - 1]
      && (forall i :: 0 <= i < |blocks| ==> blocks[i].Valid())
      && (forall i, j :: 0 <= i < j < |blocks| ==> blocks[i] != blocks[j] && blocks[i].data != blocks[j].data)
      && (forall i :: 0 <= i < |blocks| - 1 ==> blocks[i].next == blocks[i + 1])
      && last.next == null
    }

    ghost function Windows(): (ws: seq<Window<Block<T>, T>>)
      reads this`blocks, Footprint()
    {
      WindowsOf(blocks)
    }

    /** The live elements in order, each with its block and logical index. */
    ghost function Items(): seq<Item<Block<T>, T>>
      reads this`blocks, Footprint()
    {
      AllLive(Windows())
    }

    ghost function Contents(): seq<T>
      reads this`blocks, Footprint()
    {
      Values(Items())
    }

    ghost predicate Valid()
      reads this, Footprint()
    {
      Linked() && size == |Items()| && Ready(Windows())
    }

    /** Iterator `it` stands at the `p`-th live element, or is end(). */
    ghost predicate Refers(it: Iterator<T>, p: nat)
      reads this`blocks, Footprint()
    {
      && p <= |Items()|
      && it == if p == |Items()| then End else At(Items()[p].block, Items()[p].index)
    }

    lemma Ends()
      requires Linked()
      ensures {first, first.data, last, last.data} <= Footprint() && this !in Footprint()
      ensures blocks != [] && first == blocks[0]
      ensures Windows()[0] == Window(first, first.data.Length, first.begin, first.view) && first.end == first.begin + |first.view|
      ensures first.next == null <==> |blocks| == 1
      ensures IsPow2(last.data.Length) && 0 < last.data.Length && last.begin <= last.end <= last.begin + last.data.Length
      ensures Windows()[|blocks| - 1] == Window(last, last.data.Length, last.begin, last.view)
      ensures last.end == last.begin + |last.view|
    {
      assert |blocks| > 1 ==> blocks[0].next == blocks[1];
    }

    // ---- construction and capacity

    constructor ()
      ensures Valid() && fresh(Footprint()) && Contents() == []
      ensures Windows() == Fresh(first, DEFAULT_CAPACITY)
    {
      assert IsPow2(8) by {
        assert Pow2(3) == 8;
      }
      var b := new Block<T>(DEFAULT_CAPACITY);
      first, last, size, blocks := b, b, 0, [b];
      new;
      FreshItems<Block<T>, T>(b, b.data.Length);
    }

    /** The capacity a block needs to hold `capacity` elements. */
    static method RoundUp(capacity: nat) returns (v: nat)
      requires capacity >= 1
      ensures v == Smeared(capacity - 1) + 1
      ensures IsPow2(v) <==> NoGap(capacity - 1)
      ensures NoGap(capacity - 1) ==> capacity <= v < 2 * capacity
    {
      v := capacity - 1;
      v := Or(v, Shr(v, 1));
      v := Or(v, Shr(v, 2));
      v := Or(v, Shr(v, 4));
      v := Or(v, Shr(v, 8));
      v := Or(v, Shr(v, 16));
      assert v == Smeared(capacity - 1);
      v := v + 1;
      RoundsUp(capacity);
    }

    constructor WithCapacity(capacity: nat)
      requires capacity >= 1 && NoGap(capacity - 1)
      ensures Valid() && fresh(Footprint()) && Contents() == []
      ensures last.data.Length >= capacity
    {
      var v := RoundUp(capacity);
      var b := new Block<T>(v);
      first, last, size, blocks := b, b, 0, [b];
      new;
      FreshItems<Block<T>, T>(b, b.data.Length);
    }

    method AllocateBlock(nextSize: nat)
      requires Linked() && IsPow2(nextSize)
      modifies this`last, this`blocks, last`next
      ensures Linked() && blocks == old(blocks) + [last]
      ensures last.end - last.begin < last.data.Length
      ensures fresh(last) && fresh(last.data) && last.data.Length == nextSize && last.begin == last.end == 0
      ensures Windows() == old(Windows()) + Fresh(last, nextSize)
    {
      hide IsPow2, And;
      var b := new Block<T>(nextSize);
      last.next := b;
      last := b;
      blocks := blocks + [b];
    }

    /** Reserving on a queue in use keeps its elements; it leaves the queue usable
        exactly when no block was added behind an empty one. */
    method Reserve(capacity: nat)
      requires Valid() && capacity >= 1 && NoGap(capacity - 1)
      modifies this, Footprint()
      ensures Linked() && Items() == old(Items()) && size == old(size)
      ensures last.data.Length >= capacity
      ensures Windows() == RingReserve(old(Windows()), Smeared(capacity - 1) + 1, last)
      ensures Valid() <==> Windows() == old(Windows()) || old(last.view != [])
    {
      hide AllLive, Live, Ready, Linked, WindowsOf, Smeared, NoGap;
      Ends();
      RoundsUp(capacity);
      var v := RoundUp(capacity);
      if last.data.Length < v {
        ghost var ws := Windows();
        AllocateBlock(v);
        var w := Window(last, v, 0, []);
        AllLiveSnoc(ws, w);
        LiveNil(w);
        ReadyGrow(ws, w);
      }
    }

    // ---- operations

    method PushLast(x: T)
      requires Linked() && last.end - last.begin < last.data.Length
      modifies last`end, last`view, last.data
      ensures Linked() && last.end > 0
      ensures Windows() == PutLast(old(Windows()), x)
    {
      last.PushBack(x);
    }

    /** A block of twice the capacity is added when the last one is full. */
    method MakeRoom()
      requires Valid()
      modifies this`last, this`blocks, last`next
      ensures Valid() && last.end - last.begin < last.data.Length
      ensures fresh(Footprint() - old(Footprint()))
      ensures Windows() == Grown(old(Windows()), last)
    {
      hide AllLive, Live, Ready, Nodes, Linked, IsPow2, WindowsOf;
      Ends();
      GrownItems(Windows(), last);
      if last.end - last.begin == last.data.Length {
        ghost var ws, bs := Windows(), blocks;
        Doubled(last.data.Length);
        AllocateBlock(2 * last.data.Length);
        GrownItems(ws, last);
        NodesSnoc(bs, last);
      }
    }

    method PushBack(x: T)
      requires Valid()
      modifies this, Footprint()
      ensures Valid() && fresh(Footprint() - old(Footprint()))
      ensures Windows() == RingPush(old(Windows()), x, last)
      ensures last.end > 0 && Items() == old(Items()) + [Item(last, last.end - 1, x)]
      ensures Contents() == old(Contents()) + [x]
    {
      hide AllLive, Live, Ready, Nodes, Linked, WindowsOf, Values, Grown;
      ghost var ws := Windows();
      Ends();
      MakeRoom();
      Ends();
      assert Windows()[|blocks| - 1] == Window(last, last.data.Length, last.begin, last.view);
      PushItems(ws, x, last);
      PushLast(x);
      Ends();
      size := size + 1;
      ValuesSnoc(AllLive(ws), Item(last, last.end - 1, x));
    }

    /** What a logical index of the `i`-th block holds is erased. */
    method ResetAt(b: Block<T>, index: nat, ghost i: nat)
      requires Linked() && i < |blocks| && b == blocks[i] && b.begin <= index < b.end
      modifies b`view, b.data
      ensures Linked()
      ensures b == old(Windows()[i]).block && old(b.begin) <= index < old(b.begin) + |old(Windows()[i]).view|
      ensures Windows() == ClearAt(old(Windows()), i, index - old(b.begin))
    {
      b.Reset(index);
    }

    predicate FrontIsTombstone()
      requires Linked()
      reads this`first, this`last, this`blocks, Footprint()
      ensures Windows() != []
      ensures FrontIsTombstone() <==> FrontTomb(Windows())
    {
      first.begin != first.end && first.data[And(first.begin, first.mask)].None?
    }

    method DropFront()
      requires Linked() && first.begin != first.end
      modifies first`begin, first`view
      ensures Linked() && first.begin == old(first.begin) + 1
      ensures first.view == old(first.view)[1..]
      ensures old(Windows()) != [] && old(Windows())[0].view != []
      ensures var w := old(Windows())[0];
              Windows() == old(Windows())[0 := w.(begin := w.begin + 1, view := w.view[1..])]
    {
      Ends();
      first.DropFront();
    }

    /** The first block, now empty, is released. */
    method ReleaseFirst()
      requires Linked() && first.next != null
      modifies this`first, this`blocks
      ensures Linked() && |blocks| < |old(blocks)| && old(Windows()) != []
      ensures Windows() == old(Windows())[1..] && Footprint() <= old(Footprint())
    {
      assert blocks[0].next == null || |blocks| > 1;
      first := first.next;
      blocks := blocks[1..];
    }

    /** The front slot is dropped, and its block released if it is empty and not the last. */
    method DropFirst()
      requires Linked() && first.begin != first.end
      modifies this`first, this`blocks, first`begin, first`view
      ensures Linked() && Footprint() <= old(Footprint())
      ensures old(Windows()) != [] && old(Windows())[0].view != [] && Windows() == DropSlot(old(Windows()))
      ensures |blocks| < |old(blocks)| || (|blocks| == |old(blocks)| && |first.view| < |old(first.view)|)
    {
      hide Linked, WindowsOf, Nodes;
      Ends();
      DropFront();
      Ends();
      if first.begin == first.end && first.next != null {
        ReleaseFirst();
      }
    }

    method PopFront()
      requires Valid() && size > 0
      modifies this, Footprint()
      ensures Valid() && Footprint() <= old(Footprint())
      ensures Windows() == RingPop(old(Windows()))
      ensures Items() == old(Items())[1..]
      ensures Contents() == old(Contents())[1..]
    {
      hide AllLive, Live, Nodes, Linked, WindowsOf, Values, Ready, Packed, FrontTomb, DropSlot;
      ghost var ws := Windows();
      ghost var foot := Footprint();
      Ends();
      PopItems(ws);
      ResetAt(first, first.begin, 0);
      size := size - 1;
      while FrontIsTombstone()
        invariant Linked() && Footprint() <= foot && size == |AllLive(ws)| - 1
        invariant Trim(Windows()) == Trim(ClearAt(ws, 0, 0))
        decreases |blocks|, |first.view|
      {
        Ends();
        FrontTombView(Windows());
        DropFirst();
      }
      ValuesRemove(AllLive(ws), 0);
    }

    function Front(): (x: T)
      requires Valid() && size > 0
      reads this, Footprint()
      ensures x == Contents()[0]
    {
      FrontLive(Windows());
      first.data[And(first.begin, first.mask)].value
    }

    /** back() reads the last slot: it works exactly while the newest element is live. */
    function Back(): (x: Option<T>)
      requires Valid() && size > 0
      reads this, Footprint()
      ensures x.Some? <==> BackLive(Windows())
      ensures x.Some? <==> last.end > last.begin && Items()[size - 1].block == last
                           && Items()[size - 1].index == last.end - 1
      ensures x.Some? ==> x.value == Contents()[size - 1]
    {
      LastSlot(Windows());
      hide And, IsPow2;
      if last.end == last.begin then None else last.data[And(last.end - 1, last.mask)]
    }

    /** erase(Iterator): the element is removed and no other element is moved. */
    method Erase(b: Block<T>, index: nat, ghost p: nat)
      requires Valid() && p < |Items()| && Items()[p].block == b && Items()[p].index == index
      modifies this, Footprint()
      ensures Valid() && Footprint() <= old(Footprint())
      ensures Items() == Remove(old(Items()), p)
      ensures Contents() == Remove(old(Contents()), p)
      ensures ErasedAt(old(Windows()), Windows(), p)
    {
      hide AllLive, Live, Nodes, WindowsOf, Values, Ready, Linked, RingPop;
      ghost var ws := Windows();
      ghost var i, j := Locate(p);
      ValuesRemove(AllLive(ws), p);
      Ends();
      EraseItems(ws, i, j);
      FrontSlot(b, index, i);
      if first == b && And(first.begin, first.mask) == And(index, b.mask) {
        PopFront();
      } else {
        ResetAt(b, index, i);
        size := size - 1;
      }
      assert AtSlot(ws, p, i, j) && Windows() == RingErase(ws, i, j);
    }

    /** Where the `p`-th element is. */
    lemma Locate(p: nat) returns (i: nat, j: nat)
      requires Linked() && p < |Items()|
      ensures i < |blocks| && Items()[p] == Item(blocks[i], blocks[i].begin + j, Items()[p].value)
      ensures j < |blocks[i].view| && blocks[i].view[j] == Some(Items()[p].value)
      ensures Before(Windows(), i, j) == p
      ensures Windows()[i] == Window(blocks[i], blocks[i].data.Length, blocks[i].begin, blocks[i].view)
      ensures blocks[i].end == blocks[i].begin + |blocks[i].view|
      ensures {blocks[i], blocks[i].data} <= Footprint() && this !in Footprint()
    {
      i, j := AllLiveIndex(Windows(), p);
    }

    /** The front slot is the slot of no other logical index of its block. */
    lemma FrontSlot(b: Block<T>, index: nat, i: nat)
      requires Linked() && i < |blocks| && b == blocks[i] && b.begin <= index < b.end
      ensures first == b && And(b.begin, b.mask) == And(index, b.mask) <==> i == 0 && index == b.begin
    {
      if b.begin < index {
        SlotsApart(b.begin, index, b.data.Length);
      }
    }

    /** The block is found by walking the list. */
    method Find(b: Block<T>, ghost i: nat) returns (blk: Block<T>)
      requires Valid() && i < |blocks| && b == blocks[i]
      ensures blk == b && Valid() && Windows() == old(Windows()) && Footprint() == old(Footprint())
    {
      blk := first;
      ghost var k := 0;
      while blk != b
        invariant k <= i && blk == blocks[k]
        decreases i - k
      {
        assert blocks[k].next == blocks[k + 1];
        blk := blk.next;
        k := k + 1;
      }
    }

    /** The slot of a live element lies in the window and is live exactly while it is the
        logical index. */
    lemma SlotFound(i: nat, j: nat)
      requires Linked() && i < |blocks| && j < |blocks[i].view| && blocks[i].view[j].Some?
      ensures var b := blocks[i]; var slot := And(b.begin + j, b.mask);
              && (slot >= b.begin ==> And(slot, b.mask) < b.data.Length)
              && (slot >= b.begin && b.data[And(slot, b.mask)].Some? <==> b.begin + j < b.data.Length)
              && (b.begin + j < b.data.Length ==> slot == b.begin + j)
    {
      hide And, IsPow2;
      var b := blocks[i];
      assert b.Valid() && j < b.data.Length;
      assert b.data[And(b.begin + j, b.mask)] == b.view[j];
      SlotIsIndex(b.begin + j, b.data.Length);
    }

    /** erase(T*): the slot of the element is taken for its logical index, so the call
        succeeds exactly while the block has not wrapped past that element. */
    method EraseSlot(b: Block<T>, slot: nat, ghost p: nat) returns (ok: bool)
      requires Valid() && p < |Items()| && Items()[p].block == b && slot == And(Items()[p].index, b.mask)
      modifies this, Footprint()
      ensures Valid() && Footprint() <= old(Footprint())
      ensures ok <==> old(Items())[p].index < b.data.Length
      ensures Items() == if ok then Remove(old(Items()), p) else old(Items())
      ensures Contents() == if ok then Remove(old(Contents()), p) else old(Contents())
      ensures ok <==> UnwrappedAt(old(Windows()), p)
      ensures if ok then ErasedAt(old(Windows()), Windows(), p) else Windows() == old(Windows())
    {
      hide AllLive, Live, Nodes, WindowsOf, Values, Ready, Linked;
      ghost var i, j := Locate(p);
      SlotFound(i, j);
      UnwrappedThere(Windows(), p, i, j);
      var blk := Find(b, i);
      ok := slot >= blk.begin && blk.data[And(slot, blk.mask)].Some?;
      if ok {
        Erase(b, slot, p);
      }
    }

    // ---- iteration

    method Begin() returns (it: Iterator<T>)
      requires Valid()
      ensures Valid() && Refers(it, 0) && Items() == old(Items())
    {
      FrontLive(Windows());
      it := if size != 0 then At(first, first.begin) else End;
    }

    /** A scan stands at slot `j` of the `i`-th block, or past the last block, with
        `passed` live elements behind it. */
    ghost predicate Stands(block: Block?<T>, index: nat, i: nat, j: nat, passed: nat)
      reads this`blocks, Footprint()
    {
      if block == null then i == |blocks| && passed == |Items()|
      else
        && i < |blocks| && block == blocks[i] && j <= |block.view| && index == block.begin + j
        && Before(Windows(), i, j) == passed
    }

    lemma StandsNext(block: Block<T>, index: nat, i: nat, j: nat, passed: nat)
      requires Linked() && Stands(block, index, i, j, passed) && j < |block.view|
      ensures Stands(block, index + 1, i, j + 1, passed + if block.view[j].Some? then 1 else 0)
    {
      BeforeNext(Windows(), i, j);
    }

    lemma StandsWrap(block: Block<T>, index: nat, i: nat, j: nat, passed: nat)
      requires Linked() && Stands(block, index, i, j, passed) && index == block.end
      ensures Stands(block.next, if block.next != null then block.next.begin else 0, i + 1, 0, passed)
    {
      BeforeWrap(Windows(), i);
      assert i + 1 < |blocks| ==> blocks[i].next == blocks[i + 1];
      hide AllLive, Before;
    }

    lemma StandsRefers(block: Block?<T>, index: nat, i: nat, j: nat, passed: nat)
      requires Linked() && Stands(block, index, i, j, passed)
      requires block != null ==> j < |block.view| && block.view[j].Some?
      ensures Refers(if block == null then End else At(block, index), passed)
    {
      if block != null {
        AllLiveClear(Windows(), i, j);
      }
    }

    /** A scan one past the `p`-th element. */
    lemma StandsAt(it: Iterator<T>, p: nat) returns (i: nat, j: nat)
      requires Linked() && p < |Items()| && Refers(it, p)
      ensures it.At? && Stands(it.block, it.index + 1, i, j + 1, p + 1)
      ensures i < |blocks|
    {
      i, j := Locate(p);
      StandsNext(it.block, it.index, i, j, p);
    }

    /** The slot a scan stands at, of a block in the list. */
    lemma StandsSlot(block: Block<T>, index: nat, i: nat, j: nat, passed: nat)
      requires Linked() && Stands(block, index, i, j, passed)
      ensures index == block.end <==> j == |block.view|
      ensures And(index, block.mask) < block.data.Length
      ensures j < |block.view| ==> block.data[And(index, block.mask)] == block.view[j]
    {
    }

    /** The inner loop of operator++: from the end of a block to the next nonempty one. */
    method SkipEnds(block: Block<T>, index: nat, ghost i: nat, ghost j: nat, ghost passed: nat)
        returns (r: Block?<T>, at: nat, ghost k: nat, ghost l: nat)
      requires Valid() && Stands(block, index, i, j, passed)
      ensures Valid() && Items() == old(Items()) && Stands(r, at, k, l, passed) && i <= k <= |blocks|
      ensures r != null ==> l < |r.view|
      ensures k == i ==> r == block && l == j && at == index
    {
      hide AllLive, Live, WindowsOf, Linked, Ready, Before;
      r, at, k, l := block, index, i, j;
      StandsSlot(block, index, i, j, passed);
      while r != null && at == r.end
        invariant Valid() && Items() == old(Items()) && Stands(r, at, k, l, passed)
        invariant r != null ==> (at == r.end <==> l == |r.view|)
        invariant i <= k <= |blocks|
        invariant k == i ==> r == block && l == j && at == index
        decreases |blocks| - k
      {
        StandsWrap(r, at, k, l, passed);
        r := r.next;
        k, l := k + 1, 0;
        at := if r != null then r.begin else 0;
        if r != null {
          StandsSlot(r, at, k, l, passed);
        }
      }
    }

    /** operator++ goes to the next live element, over tombstones and ends of blocks. */
    method Next(it: Iterator<T>, ghost p: nat) returns (r: Iterator<T>)
      requires Valid() && p < |Items()| && Refers(it, p)
      ensures Valid() && Refers(r, p + 1) && Items() == old(Items())
    {
      hide AllLive, Live, WindowsOf, Linked, Ready, Before, Stands, And;
      ghost var i: nat, j: nat := StandsAt(it, p);
      hide Refers;
      var block: Block?<T>, index: nat := it.block, it.index;
      var again := true;
      while again
        invariant Valid() && Items() == old(Items())
        invariant again ==> block != null && Stands(block, index + 1, i, j + 1, p + 1)
        invariant !again ==> Stands(block, index, i, j, p + 1)
        invariant !again && block != null ==> j < |block.view| && block.view[j].Some?
        invariant i <= |blocks|
        decreases |blocks| - i, if block != null then |block.view| - j else 0, again
      {
        block, index, i, j := SkipEnds(block, index + 1, i, j + 1, p + 1);
        again := false;
        if block != null {
          StandsSlot(block, index, i, j, p + 1);
          StandsNext(block, index, i, j, p + 1);
          again := block.data[And(index, block.mask)].None?;
        }
      }
      StandsRefers(block, index, i, j, p + 1);
      r := if block == null then End else At(block, index);
    }

    lemma LiveSlot(i: nat, j: nat)
      requires Linked() && i < |blocks| && j < |blocks[i].view|
      ensures var b := blocks[i]; var k := And(b.begin + j, b.mask);
              k < b.data.Length && b.data[k] == b.view[j]
    {
    }

    /** A loop from begin() to end() sees every element once, in order. */
    method Collect() returns (s: seq<T>)
      requires Valid()
      ensures s == Contents()
    {
      hide AllLive, WindowsOf, Linked, Ready, Before;
      s := [];
      var it := Begin();
      ghost var c := Contents();
      ghost var p := 0;
      while it != End
        invariant Valid() && p <= |Items()| && Refers(it, p)
        invariant c == Contents() && s == c[..p]
        decreases |Items()| - p
      {
        ghost var i, j := Locate(p);
        LiveSlot(i, j);
        assert Items()[p].value == c[p] && c[..p + 1] == c[..p] + [c[p]];
        s := s + [it.block.data[And(it.index, it.block.mask)].value];
        it := Next(it, p);
        p := p + 1;
      }
    }
  }

  // ---- inputs on which operations fail ----------------------------------------

  /** A queue just built. */
  ghost predicate Unused<T>(q: Queue<T>)
    reads q, q.Footprint()
  {
    q.Valid() && q.Windows() == Fresh(q.first, DEFAULT_CAPACITY)
  }

  /** Erasing the newest of two elements leaves a queue of one whose back() fails. */
  method BackFails<T>(q: Queue<T>, a: T, b: T)
    requires Unused(q)
    modifies q, q.Footprint()
    ensures q.Valid() && q.size == 1 && q.Contents() == [a] && q.Back() == None
  {
    hide Queue.Linked, AllLive, Live, WindowsOf, Ready, Nodes;
    FreshItems<Block<T>, T>(q.first, DEFAULT_CAPACITY);
    ghost var block := q.first;
    q.PushBack(a);
    PushOne(block, DEFAULT_CAPACITY, 0, [], a, q.last);
    q.PushBack(b);
    PushOne(block, DEFAULT_CAPACITY, 0, [Some(a)], b, q.last);
    q.Ends();
    ghost var ws := q.Windows();
    q.Erase(q.last, q.last.end - 1, 1);
    BackLost(ws, q.Windows());
  }

  lemma BackLost<T>(from: seq<Window<Block<T>, T>>, to: seq<Window<Block<T>, T>>)
    requires |from| == 1 && |from[0].view| == 2 && ErasedAt(from, to, 1)
    ensures !BackLive(to)
  {
    hide RingPop;
    BeforeFirst(from);
    hide Before;
  }

  /** One element pushed and popped moves the window on by one slot. */
  method PushPop<T>(q: Queue<T>, x: T, ghost n: nat)
    requires q.Valid() && q.Windows() == [Window(q.last, DEFAULT_CAPACITY, n, [])] && q.Items() == []
    modifies q, q.Footprint()
    ensures q.Valid() && q.Windows() == [Window(q.last, DEFAULT_CAPACITY, n + 1, [])] && q.Items() == []
    ensures q.last == old(q.last) && fresh(q.Footprint() - old(q.Footprint()))
  {
    hide Queue.Linked, AllLive, Live, WindowsOf, Ready, Nodes, Trim;
    ghost var b := q.last;
    q.PushBack(x);
    PushOne(b, DEFAULT_CAPACITY, n, [], x, q.last);
    PopOnly(b, DEFAULT_CAPACITY, n, x);
    q.PopFront();
    q.Ends();
  }

  /** Eight elements pass through a queue; the ninth is alone in it and cannot be erased
      by its address. */
  method EraseSlotFails<T>(q: Queue<T>, x: T) returns (ok: bool)
    requires Unused(q) && q.Items() == []
    modifies q, q.Footprint()
    ensures q.Valid() && q.Contents() == [x] && !ok
  {
    hide Queue.Linked, AllLive, Live, WindowsOf, Ready, Trim;
    q.Ends();
    ghost var foot := q.Footprint();
    for k := 0 to DEFAULT_CAPACITY
      invariant q.Valid() && q.Windows() == [Window(q.last, DEFAULT_CAPACITY, k, [])] && q.Items() == []
      invariant forall o :: o in q.Footprint() ==> o in foot || fresh(o)
    {
      ghost var f := q.Footprint();
      label L:
      PushPop(q, x, k);
      forall o | o in q.Footprint()
        ensures o in foot || fresh(o)
      {
        assert o !in f ==> fresh@L(o);
      }
    }
    q.PushBack(x);
    q.Ends();
    ok := q.EraseSlot(q.last, And(q.last.end - 1, q.last.mask), 0);
  }

  /** Reserving on an empty queue puts a block behind the empty one. */
  method ReserveFails<T>(q: Queue<T>)
    requires Unused(q)
    modifies q, q.Footprint()
    ensures q.size == 0 && q.Items() == [] && q.first != q.last && !q.Valid()
  {
    hide AllLive, Live, Trim, Ready;
    FreshItems<Block<T>, T>(q.first, DEFAULT_CAPACITY);
    q.Ends();
    SmallNoGap(16);
    q.Reserve(16);
  }

  // ---- any sequence of calls --------------------------------------------------

  /** A call: a pop of an empty queue and an erase past the end are not made. */
  datatype Call<T> = Push(x: T) | Pop | EraseAt(p: nat)

  /** The same calls on a plain sequence. */
  function Plain<T>(calls: seq<Call<T>>): seq<T> {
    if calls == [] then [] else PlainCall(Plain(calls[..|calls| - 1]), calls[|calls| - 1])
  }

  function PlainCall<T>(s: seq<T>, call: Call<T>): seq<T> {
    match call
    case Push(x) => s + [x]
    case Pop => if s == [] then s else s[1..]
    case EraseAt(p) => if p < |s| then Remove(s, p) else s
  }

  method Make<T>(q: Queue<T>, call: Call<T>)
    requires q.Valid()
    modifies q, q.Footprint()
    ensures q.Valid() && fresh(q.Footprint() - old(q.Footprint()))
    ensures q.Contents() == PlainCall(old(q.Contents()), call)
  {
    hide AllLive, WindowsOf, Nodes, Queue.Linked, Ready, Remove;
    match call
    case Push(x) => q.PushBack(x);
    case Pop =>
      if q.size > 0 {
        q.PopFront();
      }
    case EraseAt(p) =>
      if p < q.size {
        var it := Walk(q, p);
        q.Erase(it.block, it.index, p);
      }
  }

  /** An iterator moved `p` times from the front. */
  method Walk<T>(q: Queue<T>, p: nat) returns (it: Iterator<T>)
    requires q.Valid() && p < |q.Items()|
    ensures q.Valid() && q.Items() == old(q.Items()) && q.Refers(it, p)
  {
    hide AllLive, WindowsOf;
    it := q.Begin();
    ghost var items := q.Items();
    for k := 0 to p
      invariant q.Valid() && q.Items() == items && q.Refers(it, k)
    {
      it := q.Next(it, k);
    }
  }

  /** For any interleaving of pushes, pops and erases by iterator the queue holds what a
      plain sequence holds. */
  method Replay<T>(calls: seq<Call<T>>) returns (q: Queue<T>)
    ensures fresh(q) && q.Valid() && q.Contents() == Plain(calls)
  {
    hide PlainCall, Values, AllLive, WindowsOf, Nodes, Queue.Linked, Ready;
    q := new Queue<T>();
    for i := 0 to |calls|
      invariant fresh(q) && q.Valid() && fresh(q.Footprint())
      invariant q.Contents() == Plain(calls[..i])
    {
      assert calls[..i + 1][..i] == calls[..i];
      ghost var f := q.Footprint();
      assert fresh(f);
      label L:
      Make(q, calls[i]);
      forall o | o in q.Footprint()
        ensures fresh(o)
      {
        assert o !in f ==> fresh@L(o);
      }
    }
    assert calls[..|calls|] == calls;
  }
}
