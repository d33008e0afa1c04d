/** A queue of ring blocks as a value: for each block the window of its slots, erased
    ones included, and what pushing, popping and erasing do to the windows. */
module Rings {
  import opened Common

  /** A live element: the block it is in, its logical index there, and its value. */
  datatype Item<B, T> = Item(block: B, index: nat, value: T)

  /** The window of a block: its slots from mBegin to mEnd in logical order. */
  datatype Window<B, T> = Window(block: B, cap: nat, begin: nat, view: seq<Option<T>>)

  function Values<B, T>(items: seq<Item<B, T>>): (s: seq<T>)
    ensures |s| == |items|
  {
    seq(|items|, k requires 0 <= k < |items| => items[k].value)
  }

  lemma ValuesSnoc<B, T>(items: seq<Item<B, T>>, item: Item<B, T>)
    ensures Values(items + [item]) == Values(items) + [item.value]
  {
  }

  lemma ValuesRemove<B, T>(items: seq<Item<B, T>>, p: nat)
    requires p < |items|
    ensures |Remove(items, p)| == |items| - 1
    ensures Values(Remove(items, p)) == Remove(Values(items), p)
    ensures p == 0 ==> Remove(items, p) == items[1..] && Remove(Values(items), p) == Values(items)[1..]
  {
  }

  // ---- the live elements of windows ---------------------------------------

  function Live<B, T>(w: Window<B, T>): seq<Item<B, T>>
    decreases |w.view|
  {
    if w.view == [] then []
    else
      var n := |w.view| - 1;
      Live(w.(view := w.view[..n]))
      + (if w.view[n].Some? then [Item(w.block, w.begin + n, w.view[n].value)] else [])
  }

  function AllLive<B, T>(ws: seq<Window<B, T>>): seq<Item<B, T>> {
    if ws == [] then [] else AllLive(ws[..|ws| - 1]) + Live(ws[|ws| - 1])
  }

  /** Number of live elements before slot `j` of window `i`. */
  function Before<B, T>(ws: seq<Window<B, T>>, i: nat, j: nat): nat
    requires i < |ws| && j <= |ws[i].view|
  {
    |AllLive(ws[..i])| + |Live(ws[i].(view := ws[i].view[..j]))|
  }

  /** `s` without its element at `p`. */
  function Remove<A>(s: seq<A>, p: nat): seq<A>
    requires p < |s|
  {
    s[..p] + s[p + 1..]
  }

  lemma RemoveAround<A>(a: seq<A>, m: seq<A>, b: seq<A>, p: nat)
    requires p < |m|
    ensures Remove(a + m + b, |a| + p) == a + Remove(m, p) + b
  {
  }

  lemma RemoveLeft<A>(a: seq<A>, b: seq<A>, p: nat)
    requires p < |a|
    ensures Remove(a + b, p) == Remove(a, p) + b
  {
  }

  lemma {:induction false} LiveDrop<B, T>(w: Window<B, T>)
    requires w.view != []
    ensures var v := w.(begin := w.begin + 1, view := w.view[1..]);
            Live(w) == (if w.view[0].Some? then [Item(w.block, w.begin, w.view[0].value)] else []) + Live(v)
    decreases |w.view|
  {
    var v := w.(begin := w.begin + 1, view := w.view[1..]);
    var n := |w.view| - 1;
    if n == 0 {
      assert Live(w.(view := w.view[..0])) == [];
    } else {
      var u := w.(view := w.view[..n]);
      LiveDrop(u);
      assert v.(view := v.view[..n - 1]).view == u.view[1..];
    }
  }

  lemma LiveSnoc<B, T>(w: Window<B, T>, e: Option<T>)
    ensures Live(w.(view := w.view + [e]))
            == Live(w) + if e.Some? then [Item(w.block, w.begin + |w.view|, e.value)] else []
  {
    var v := w.(view := w.view + [e]);
    assert v.(view := v.view[..|w.view|]) == w;
  }

  /** Clearing a live slot removes its element and no other. */
  lemma {:induction false} LiveClear<B, T>(w: Window<B, T>, j: nat)
    requires j < |w.view| && w.view[j].Some?
    ensures var p := |Live(w.(view := w.view[..j]))|;
            p < |Live(w)| && Live(w)[p] == Item(w.block, w.begin + j, w.view[j].value)
            && Live(w.(view := w.view[j := None])) == Remove(Live(w), p)
    decreases |w.view|
  {
    hide Live;
    var n := |w.view| - 1;
    var c := w.view[j := None];
    var u := w.(view := w.view[..n]);
    LiveSnoc(u, w.view[n]);
    LiveSnoc(w.(view := c[..n]), c[n]);
    assert w.view == w.view[..n] + [w.view[n]] && c == c[..n] + [c[n]];
    if j == n {
      assert c[..n] == u.view;
      assert Remove(Live(w), |Live(u)|) == Live(u);
    } else {
      LiveClear(u, j);
      assert c[..n] == u.view[j := None] && u.view[..j] == w.view[..j];
      RemoveLeft(Live(u), Live(w)[|Live(u)|..], |Live(w.(view := w.view[..j]))|);
      assert Live(u) + Live(w)[|Live(u)|..] == Live(w);
    }
  }

  lemma {:induction false} LiveIndex<B, T>(w: Window<B, T>, p: nat) returns (j: nat)
    requires p < |Live(w)|
    ensures j < |w.view| && w.view[j] == Some(Live(w)[p].value)
    ensures Live(w)[p].block == w.block && Live(w)[p].index == w.begin + j
    ensures |Live(w.(view := w.view[..j]))| == p
    decreases |w.view|
  {
    var n := |w.view| - 1;
    var u := w.(view := w.view[..n]);
    if p < |Live(u)| {
      j := LiveIndex(u, p);
      assert u.view[..j] == w.view[..j];
    } else {
      j := n;
    }
  }

  lemma AllLiveSnoc<B, T>(ws: seq<Window<B, T>>, w: Window<B, T>)
    ensures AllLive(ws + [w]) == AllLive(ws) + Live(w)
  {
    assert (ws + [w])[..|ws|] == ws;
  }

  lemma {:induction false} AllLiveAppend<B, T>(a: seq<Window<B, T>>, b: seq<Window<B, T>>)
    ensures AllLive(a + b) == AllLive(a) + AllLive(b)
    decreases |b|
  {
    hide AllLive, Live;
    if b == [] {
      AllLiveNil(b);
      assert a + b == a;
    } else {
      var init, w := b[..|b| - 1], b[|b| - 1];
      AllLiveAppend(a, init);
      AllLiveSnoc(a + init, w);
      AllLiveSnoc(init, w);
      assert b == init + [w];
      assert a + b == a + init + [w];
    }
  }

  /** The elements before, in and after window `i`, which may be replaced. */
  lemma AllLiveSet<B, T>(ws: seq<Window<B, T>>, i: nat, w: Window<B, T>)
    requires i < |ws|
    ensures AllLive(ws[i := w]) == AllLive(ws[..i]) + Live(w) + AllLive(ws[i + 1..])
  {
    AllLiveSnoc(ws[..i], w);
    AllLiveAppend(ws[..i] + [w], ws[i + 1..]);
    hide AllLive, Live;
    assert ws[i := w] == ws[..i] + [w] + ws[i + 1..];
  }

  lemma LiveNil<B, T>(w: Window<B, T>)
    requires w.view == []
    ensures Live(w) == []
  {
  }

  lemma AllLivePush<B, T>(ws: seq<Window<B, T>>, x: T)
    requires ws != []
    ensures var n := |ws| - 1; var w := ws[n];
            AllLive(ws[n := w.(view := w.view + [Some(x)])])
            == AllLive(ws) + [Item(w.block, w.begin + |w.view|, x)]
  {
    var n := |ws| - 1;
    AllLiveSnoc(ws[..n], ws[n]);
    AllLiveSnoc(ws[..n], ws[n].(view := ws[n].view + [Some(x)]));
    LiveSnoc(ws[n], Some(x));
    assert ws == ws[..n] + [ws[n]];
    assert ws[n := ws[n].(view := ws[n].view + [Some(x)])] == ws[..n] + [ws[n].(view := ws[n].view + [Some(x)])];
  }

  /** Every live element is in some window at some slot. */
  lemma {:induction false} AllLiveIndex<B, T>(ws: seq<Window<B, T>>, p: nat) returns (i: nat, j: nat)
    requires p < |AllLive(ws)|
    ensures i < |ws| && j < |ws[i].view| && ws[i].view[j] == Some(AllLive(ws)[p].value)
    ensures AllLive(ws)[p].block == ws[i].block && AllLive(ws)[p].index == ws[i].begin + j
    ensures Before(ws, i, j) == p
    decreases |ws|
  {
    var n := |ws| - 1;
    if p < |AllLive(ws[..n])| {
      i, j := AllLiveIndex(ws[..n], p);
      assert ws[..n][..i] == ws[..i];
    } else {
      i := n;
      j := LiveIndex(ws[n], p - |AllLive(ws[..n])|);
    }
  }

  lemma AllLiveClear<B, T>(ws: seq<Window<B, T>>, i: nat, j: nat)
    requires i < |ws| && j < |ws[i].view| && ws[i].view[j].Some?
    ensures var p := Before(ws, i, j);
            p < |AllLive(ws)|
            && AllLive(ws)[p] == Item(ws[i].block, ws[i].begin + j, ws[i].view[j].value)
            && AllLive(ws[i := ws[i].(view := ws[i].view[j := None])]) == Remove(AllLive(ws), p)
  {
    hide AllLive, Live, Remove;
    var w := ws[i];
    LiveClear(w, j);
    AllLiveSet(ws, i, w);
    AllLiveSet(ws, i, w.(view := w.view[j := None]));
    assert ws[i := w] == ws;
    RemoveAround(AllLive(ws[..i]), Live(w), AllLive(ws[i + 1..]), |Live(w.(view := w.view[..j]))|);
  }

  /** Moving on by one slot passes one element if the slot is live. */
  lemma BeforeNext<B, T>(ws: seq<Window<B, T>>, i: nat, j: nat)
    requires i < |ws| && j < |ws[i].view|
    ensures Before(ws, i, j + 1) == Before(ws, i, j) + if ws[i].view[j].Some? then 1 else 0
  {
    var w := ws[i].(view := ws[i].view[..j + 1]);
    assert w.view[..j] == ws[i].view[..j];
  }

  /** A live slot is counted before every later slot. */
  lemma BeforeLater<B, T>(ws: seq<Window<B, T>>, i: nat, j: nat, k: nat, l: nat)
    requires i <= k < |ws| && j < |ws[i].view| && l <= |ws[k].view| && ws[i].view[j].Some?
    requires i < k || j < l
    ensures Before(ws, i, j) < Before(ws, k, l)
  {
    hide AllLive, Live;
    if i == k {
      LiveClear(ws[i].(view := ws[i].view[..l]), j);
      assert ws[i].view[..l][..j] == ws[i].view[..j];
    } else {
      LiveClear(ws[i], j);
      AllLiveSnoc(ws[..i], ws[i]);
      assert ws[..k] == ws[..i] + [ws[i]] + ws[i + 1..k];
      AllLiveAppend(ws[..i] + [ws[i]], ws[i + 1..k]);
    }
  }

  /** So no two live slots hold the same element of the queue. */
  lemma SlotUnique<B, T>(ws: seq<Window<B, T>>, i: nat, j: nat, k: nat, l: nat)
    requires i < |ws| && j < |ws[i].view| && ws[i].view[j].Some?
    requires k < |ws| && l < |ws[k].view| && ws[k].view[l].Some?
    requires Before(ws, i, j) == Before(ws, k, l)
    ensures i == k && j == l
  {
    hide Before;
    if i < k || (i == k && j < l) {
      BeforeLater(ws, i, j, k, l);
    } else if k < i || l < j {
      BeforeLater(ws, k, l, i, j);
    }
  }

  /** The end of a window is the beginning of the next. */
  lemma BeforeWrap<B, T>(ws: seq<Window<B, T>>, i: nat)
    requires i < |ws|
    ensures i + 1 < |ws| ==> Before(ws, i + 1, 0) == Before(ws, i, |ws[i].view|)
    ensures i + 1 == |ws| ==> Before(ws, i, |ws[i].view|) == |AllLive(ws)|
  {
    assert ws[i].view[..|ws[i].view|] == ws[i].view;
    AllLiveSnoc(ws[..i], ws[i]);
    assert ws[..i] + [ws[i]] == ws[..i + 1];
    assert ws[..|ws|] == ws;
  }

  /** Only the last window may be empty. */
  ghost predicate Packed<B, T>(ws: seq<Window<B, T>>) {
    ws != [] && forall i :: 0 <= i < |ws| - 1 ==> ws[i].view != []
  }

  /** ... and the front slot is live. */
  ghost predicate Ready<B, T>(ws: seq<Window<B, T>>) {
    Packed(ws) && (ws[0].view != [] ==> ws[0].view[0].Some?)
  }

  /** The front slot holds the first element; there is none only if the queue is empty. */
  lemma FrontLive<B, T>(ws: seq<Window<B, T>>)
    requires Ready(ws)
    ensures AllLive(ws) != [] <==> ws[0].view != []
    ensures ws[0].view != [] ==>
              AllLive(ws)[0] == Item(ws[0].block, ws[0].begin, ws[0].view[0].value)
              && AllLive(ws[0 := ws[0].(view := ws[0].view[0 := None])]) == AllLive(ws)[1..]
  {
    if ws[0].view != [] {
      AllLiveClear(ws, 0, 0);
      BeforeFirst(ws);
    } else {
      assert ws == [] + [ws[0]];
      AllLiveSnoc([], ws[0]);
    }
  }

  lemma BeforeFirst<B, T>(ws: seq<Window<B, T>>)
    requires ws != []
    ensures Before(ws, 0, 0) == 0
  {
  }

  /** Skipping a tombstone at the front, and the block it was the last slot of. */
  lemma {:induction false} SkipFront<B, T>(ws: seq<Window<B, T>>)
    requires Packed(ws) && ws[0].view != [] && ws[0].view[0].None?
    ensures var w := ws[0].(begin := ws[0].begin + 1, view := ws[0].view[1..]);
            && AllLive(ws[0 := w]) == AllLive(ws)
            && (w.view != [] || |ws| == 1 ==> Packed(ws[0 := w]))
            && (w.view == [] && |ws| > 1 ==> Packed(ws[1..]) && AllLive(ws[1..]) == AllLive(ws))
  {
    hide Live, AllLive;
    SkipLive(ws);
  }

  lemma {:induction false} SkipLive<B, T>(ws: seq<Window<B, T>>)
    requires ws != [] && ws[0].view != [] && ws[0].view[0].None?
    ensures var w := ws[0].(begin := ws[0].begin + 1, view := ws[0].view[1..]);
            && AllLive(ws[0 := w]) == AllLive(ws)
            && (w.view == [] ==> AllLive(ws[1..]) == AllLive(ws))
  {
    var w := ws[0].(begin := ws[0].begin + 1, view := ws[0].view[1..]);
    hide Live, AllLive;
    LiveDrop(ws[0]);
    AllLiveSet(ws, 0, ws[0]);
    AllLiveSet(ws, 0, w);
    assert ws[0 := ws[0]] == ws;
    if w.view == [] {
      LiveNil(w);
      AllLiveNil(ws[..0]);
    }
  }

  lemma AllLiveNil<B, T>(ws: seq<Window<B, T>>)
    requires ws == []
    ensures AllLive(ws) == []
  {
  }

  lemma ReadyPush<B, T>(ws: seq<Window<B, T>>, x: T)
    requires ws != [] && Ready(ws)
    ensures var n := |ws| - 1; var w := ws[n];
            Ready(ws[n := w.(view := w.view + [Some(x)])])
  {
  }

  lemma ReadyGrow<B, T>(ws: seq<Window<B, T>>, w: Window<B, T>)
    requires ws != [] && Ready(ws) && w.view == []
    ensures Ready(ws + [w]) <==> ws[|ws| - 1].view != []
  {
    assert (ws + [w])[0] == ws[0];
    assert (ws + [w])[|ws| - 1] == ws[|ws| - 1];
  }

  /** Erasing behind the front keeps the front live. */
  lemma ReadyClear<B, T>(ws: seq<Window<B, T>>, i: nat, j: nat)
    requires Ready(ws) && i < |ws| && j < |ws[i].view| && (i, j) != (0, 0)
    ensures Ready(ws[i := ws[i].(view := ws[i].view[j := None])])
  {
  }

  /** The last slot is live exactly when it holds the last element. */
  lemma LastSlot<B, T>(ws: seq<Window<B, T>>)
    requires ws != [] && AllLive(ws) != []
    ensures var n, k := |ws| - 1, |AllLive(ws)| - 1; var w := ws[n]; var m := |w.view| - 1;
            (w.view != [] && w.view[m].Some? ==> AllLive(ws)[k] == Item(w.block, w.begin + m, w.view[m].value))
            && (AllLive(ws)[k].block == w.block && (forall i :: 0 <= i < n ==> ws[i].block != w.block) ==>
                  AllLive(ws)[k].index < w.begin + |w.view|
                  && w.view != [] && (AllLive(ws)[k].index == w.begin + m ==> w.view[m].Some?))
  {
    var k := |AllLive(ws)| - 1;
    var i, j := AllLiveIndex(ws, k);
  }

  // ---- operations ---------------------------------------------------------

  function Fresh<B, T>(block: B, cap: nat): seq<Window<B, T>> {
    [Window(block, cap, 0, [])]
  }

  function PutLast<B, T>(ws: seq<Window<B, T>>, x: T): seq<Window<B, T>> {
    if ws == [] then ws
    else
      var n := |ws| - 1;
      ws[n := ws[n].(view := ws[n].view + [Some(x)])]
  }

  /** A full last block is followed by `block`, of twice its capacity. */
  function Grown<B, T>(ws: seq<Window<B, T>>, block: B): seq<Window<B, T>> {
    if ws != [] && |ws[|ws| - 1].view| == ws[|ws| - 1].cap
    then ws + Fresh(block, 2 * ws[|ws| - 1].cap) else ws
  }

  /** push_back; `block` is the new block if one is needed. */
  function RingPush<B, T>(ws: seq<Window<B, T>>, x: T, block: B): seq<Window<B, T>> {
    PutLast(Grown(ws, block), x)
  }

  function ClearAt<B, T>(ws: seq<Window<B, T>>, i: nat, j: nat): seq<Window<B, T>>
    requires i < |ws| && j < |ws[i].view|
  {
    ws[i := ws[i].(view := ws[i].view[j := None])]
  }

  function DropSlot<B, T>(ws: seq<Window<B, T>>): (r: seq<Window<B, T>>)
    requires ws != [] && ws[0].view != []
    ensures |r| < |ws| || (|r| == |ws| && |r[0].view| < |ws[0].view|)
  {
    var w := ws[0].(begin := ws[0].begin + 1, view := ws[0].view[1..]);
    if w.view == [] && |ws| > 1 then ws[1..] else ws[0 := w]
  }

  predicate FrontTomb<B, T>(ws: seq<Window<B, T>>) {
    ws != [] && ws[0].view != [] && ws[0].view[0].None?
  }

  /** The loop of pop_front: tombstones at the front and emptied blocks are dropped. */
  function Trim<B, T>(ws: seq<Window<B, T>>): seq<Window<B, T>>
    decreases |ws|, if ws == [] then 0 else |ws[0].view|
  {
    if FrontTomb(ws) then Trim(DropSlot(ws)) else ws
  }

  function RingPop<B, T>(ws: seq<Window<B, T>>): seq<Window<B, T>> {
    if ws != [] && ws[0].view != [] then Trim(ClearAt(ws, 0, 0)) else ws
  }

  function RingErase<B, T>(ws: seq<Window<B, T>>, i: nat, j: nat): seq<Window<B, T>>
    requires i < |ws| && j < |ws[i].view|
  {
    if i == 0 && j == 0 then RingPop(ws) else ClearAt(ws, i, j)
  }

  /** reserve with the rounded capacity `cap`. */
  function RingReserve<B, T>(ws: seq<Window<B, T>>, cap: nat, block: B): seq<Window<B, T>> {
    if ws != [] && ws[|ws| - 1].cap < cap then ws + Fresh(block, cap) else ws
  }

  /** back() works: the last slot is live. */
  predicate BackLive<B, T>(ws: seq<Window<B, T>>) {
    ws != [] && var v := ws[|ws| - 1].view; v != [] && v[|v| - 1].Some?
  }

  /** erase(T*) works: the slot of the element is its logical index. */
  predicate Unwrapped<B, T>(ws: seq<Window<B, T>>, i: nat, j: nat)
    requires i < |ws|
  {
    ws[i].begin + j < ws[i].cap
  }

  /** The `p`-th live element stands at slot `j` of window `i`. */
  ghost predicate AtSlot<B, T>(ws: seq<Window<B, T>>, p: nat, i: nat, j: nat) {
    i < |ws| && j < |ws[i].view| && ws[i].view[j].Some? && Before(ws, i, j) == p
  }

  /** `to` is `from` with its `p`-th element erased. */
  ghost predicate ErasedAt<B, T>(from: seq<Window<B, T>>, to: seq<Window<B, T>>, p: nat) {
    exists i, j :: AtSlot(from, p, i, j) && to == RingErase(from, i, j)
  }

  ghost predicate UnwrappedAt<B, T>(ws: seq<Window<B, T>>, p: nat) {
    exists i, j :: AtSlot(ws, p, i, j) && Unwrapped(ws, i, j)
  }

  lemma UnwrappedThere<B, T>(ws: seq<Window<B, T>>, p: nat, i: nat, j: nat)
    requires AtSlot(ws, p, i, j)
    ensures UnwrappedAt(ws, p) <==> Unwrapped(ws, i, j)
  {
    hide Before;
    if UnwrappedAt(ws, p) {
      var k, l :| AtSlot(ws, p, k, l) && Unwrapped(ws, k, l);
      SlotUnique(ws, i, j, k, l);
    }
  }

  /** The first slot of a window that holds `x`, or its size. */
  function SlotOf<T(==)>(view: seq<Option<T>>, x: T): (j: nat)
    ensures j <= |view| && (j < |view| ==> view[j] == Some(x))
    ensures Some(x) in view ==> j < |view|
  {
    if view == [] || view[0] == Some(x) then 0 else 1 + SlotOf(view[1..], x)
  }

  /** The first window that holds `x`, or the number of windows. */
  function WindowOf<B, T(==)>(ws: seq<Window<B, T>>, x: T): (i: nat)
    ensures i <= |ws| && (i < |ws| ==> SlotOf(ws[i].view, x) < |ws[i].view|)
    ensures (exists k :: 0 <= k < |ws| && Some(x) in ws[k].view) ==> i < |ws|
  {
    if ws == [] || SlotOf(ws[0].view, x) < |ws[0].view| then 0 else 1 + WindowOf(ws[1..], x)
  }

  /** The address of `x` is also its logical index. */
  predicate Erasable<B, T(==)>(ws: seq<Window<B, T>>, x: T) {
    var i := WindowOf(ws, x);
    i < |ws| && Unwrapped(ws, i, SlotOf(ws[i].view, x))
  }

  /** A value that occurs once is found where it stands. */
  lemma FoundAt<B, T>(ws: seq<Window<B, T>>, p: nat, i: nat, j: nat)
    requires i < |ws| && j < |ws[i].view| && ws[i].view[j].Some? && Before(ws, i, j) == p
    requires forall k :: 0 <= k < |AllLive(ws)| && AllLive(ws)[k].value == ws[i].view[j].value ==> k == p
    ensures WindowOf(ws, ws[i].view[j].value) == i && SlotOf(ws[i].view, ws[i].view[j].value) == j
  {
    hide AllLive, Live, Before;
    var x := ws[i].view[j].value;
    assert Some(x) in ws[i].view;
    var a := WindowOf(ws, x);
    var b := SlotOf(ws[a].view, x);
    AllLiveClear(ws, a, b);
    SlotUnique(ws, a, b, i, j);
  }

  function EraseValue<B, T(==)>(ws: seq<Window<B, T>>, x: T): seq<Window<B, T>> {
    var i := WindowOf(ws, x);
    if i < |ws| then RingErase(ws, i, SlotOf(ws[i].view, x)) else ws
  }

  /** Everything popped: the last block with nothing in it. */
  function Drained<B, T>(ws: seq<Window<B, T>>): seq<Window<B, T>> {
    if ws == [] then ws
    else
      var w := ws[|ws| - 1];
      [w.(begin := w.begin + |w.view|, view := [])]
  }

  // ---- what the operations do to the elements -------------------------------

  lemma FreshItems<B, T>(block: B, cap: nat)
    ensures Ready(Fresh<B, T>(block, cap)) && AllLive(Fresh<B, T>(block, cap)) == []
  {
    var w: Window<B, T> := Window(block, cap, 0, []);
    AllLiveSnoc([], w);
    assert [] + [w] == Fresh<B, T>(block, cap);
  }

  lemma GrownItems<B, T>(ws: seq<Window<B, T>>, block: B)
    requires Ready(ws) && ws[|ws| - 1].cap > 0
    ensures Ready(Grown(ws, block)) && AllLive(Grown(ws, block)) == AllLive(ws)
  {
    if |ws[|ws| - 1].view| == ws[|ws| - 1].cap {
      var w := Window(block, 2 * ws[|ws| - 1].cap, 0, []);
      AllLiveSnoc(ws, w);
      LiveNil(w);
      ReadyGrow(ws, w);
      hide AllLive, Live, Ready;
    }
  }

  /** push_back adds one element behind the others, at the next index of the last block. */
  lemma PushItems<B, T>(ws: seq<Window<B, T>>, x: T, block: B)
    requires Ready(ws) && ws[|ws| - 1].cap > 0
    ensures Ready(RingPush(ws, x, block))
    ensures var gs := Grown(ws, block); var w := gs[|gs| - 1];
            AllLive(RingPush(ws, x, block)) == AllLive(ws) + [Item(w.block, w.begin + |w.view|, x)]
  {
    hide AllLive, Live;
    GrownItems(ws, block);
    hide Grown;
    AllLivePush(Grown(ws, block), x);
    ReadyPush(Grown(ws, block), x);
  }

  lemma {:induction false} TrimItems<B, T>(ws: seq<Window<B, T>>)
    requires Packed(ws)
    ensures Ready(Trim(ws)) && AllLive(Trim(ws)) == AllLive(ws)
    decreases |ws|, |ws[0].view|
  {
    hide AllLive, Live;
    if FrontTomb(ws) {
      SkipFront(ws);
      TrimItems(DropSlot(ws));
    }
  }

  /** pop_front removes the first element and leaves a live front. */
  lemma PopItems<B, T>(ws: seq<Window<B, T>>)
    requires Ready(ws) && AllLive(ws) != []
    ensures Ready(RingPop(ws)) && AllLive(RingPop(ws)) == AllLive(ws)[1..]
    ensures ws[0].view != []
  {
    hide AllLive, Live, Trim;
    FrontLive(ws);
    TrimItems(ClearAt(ws, 0, 0));
  }

  /** erase removes the element at a slot and no other. */
  lemma EraseItems<B, T>(ws: seq<Window<B, T>>, i: nat, j: nat)
    requires Ready(ws) && i < |ws| && j < |ws[i].view| && ws[i].view[j].Some?
    ensures Before(ws, i, j) < |AllLive(ws)|
    ensures Ready(RingErase(ws, i, j)) && AllLive(RingErase(ws, i, j)) == Remove(AllLive(ws), Before(ws, i, j))
  {
    hide AllLive, Live, RingPop, Ready;
    AllLiveClear(ws, i, j);
    if i == 0 && j == 0 {
      FirstErased(ws);
    } else {
      ReadyClear(ws, i, j);
    }
  }

  lemma FirstErased<B, T>(ws: seq<Window<B, T>>)
    requires Ready(ws) && ws[0].view != [] && AllLive(ws) != []
    ensures Before(ws, 0, 0) == 0
    ensures Ready(RingPop(ws)) && AllLive(RingPop(ws)) == Remove(AllLive(ws), 0)
  {
    hide RingPop;
    BeforeFirst(ws);
    hide AllLive, Live;
    PopItems(ws);
  }

  /** Erasing a value takes it, where it first occurs, out of the values. */
  lemma EraseValueItems<B, T>(ws: seq<Window<B, T>>, x: T) returns (p: nat)
    requires Ready(ws) && x in Values(AllLive(ws))
    ensures p < |AllLive(ws)| && Values(AllLive(ws))[p] == x
    ensures Ready(EraseValue(ws, x)) && Values(AllLive(EraseValue(ws, x))) == Remove(Values(AllLive(ws)), p)
  {
    hide AllLive, Live, Ready, RingErase;
    var k :| 0 <= k < |Values(AllLive(ws))| && Values(AllLive(ws))[k] == x;
    var a, b := AllLiveIndex(ws, k);
    assert Some(x) in ws[a].view;
    var i := WindowOf(ws, x);
    var j := SlotOf(ws[i].view, x);
    EraseItems(ws, i, j);
    AllLiveClear(ws, i, j);
    p := Before(ws, i, j);
    ValuesRemove(AllLive(ws), p);
  }

  lemma {:induction false} TrimLast<B, T>(ws: seq<Window<B, T>>)
    requires ws != []
    ensures Trim(ws) != [] && Drained(Trim(ws)) == Drained(ws)
    decreases |ws|, |ws[0].view|
  {
    if FrontTomb(ws) {
      DropLast(ws);
      TrimLast(DropSlot(ws));
    }
  }

  lemma DropLast<B, T>(ws: seq<Window<B, T>>)
    requires FrontTomb(ws)
    ensures DropSlot(ws) != [] && Drained(DropSlot(ws)) == Drained(ws)
  {
  }

  /** Popping does not change what is left when everything has been popped. */
  lemma PopLast<B, T>(ws: seq<Window<B, T>>)
    requires ws != []
    ensures RingPop(ws) != [] && Drained(RingPop(ws)) == Drained(ws)
  {
    hide Trim;
    if ws[0].view != [] {
      TrimLast(ClearAt(ws, 0, 0));
    }
  }

  lemma DrainedAll<B, T>(ws: seq<Window<B, T>>)
    requires Ready(ws) && AllLive(ws) == []
    ensures ws == Drained(ws)
  {
    hide AllLive, Live;
    FrontLive(ws);
  }

  lemma DrainedItems<B, T>(ws: seq<Window<B, T>>)
    requires ws != []
    ensures Ready(Drained(ws)) && AllLive(Drained(ws)) == []
  {
    var w := Drained(ws)[0];
    AllLiveSnoc([], w);
    assert [] + [w] == Drained(ws);
  }

  // ---- the last slot ----------------------------------------------------------

  /** A live last slot holds the last element. */
  lemma BackAt<B, T>(ws: seq<Window<B, T>>)
    requires BackLive(ws)
    ensures var n, m := |ws| - 1, |ws[|ws| - 1].view| - 1; var k := Before(ws, n, m);
            && k == |AllLive(ws)| - 1 && AllLive(ws)[k].value == ws[n].view[m].value
  {
    var n, m := |ws| - 1, |ws[|ws| - 1].view| - 1;
    hide AllLive, Live, Before;
    BeforeNext(ws, n, m);
    BeforeWrap(ws, n);
    AllLiveClear(ws, n, m);
  }

  lemma PushBackLive<B, T>(ws: seq<Window<B, T>>, x: T, block: B)
    requires ws != []
    ensures BackLive(RingPush(ws, x, block))
  {
  }

  /** While anything is left, skipping tombstones does not reach the last slot. */
  lemma {:induction false} TrimBack<B, T>(ws: seq<Window<B, T>>)
    requires Packed(ws) && AllLive(ws) != []
    ensures BackLive(Trim(ws)) <==> BackLive(ws)
    decreases |ws|, |ws[0].view|
  {
    hide AllLive, Live;
    if FrontTomb(ws) {
      SkipFront(ws);
      DropBack(ws);
      TrimBack(DropSlot(ws));
    }
  }

  lemma {:induction false} DropBack<B, T>(ws: seq<Window<B, T>>)
    requires FrontTomb(ws) && AllLive(DropSlot(ws)) != []
    ensures BackLive(DropSlot(ws)) <==> BackLive(ws)
  {
    hide Live;
    if |ws| == 1 && |ws[0].view| == 1 {
      OneEmpty(DropSlot(ws));
    }
    hide AllLive;
  }

  lemma OneEmpty<B, T>(ws: seq<Window<B, T>>)
    requires |ws| == 1 && ws[0].view == []
    ensures AllLive(ws) == []
  {
    hide AllLive, Live;
    AllLiveSnoc([], ws[0]);
    AllLiveNil(ws[..0]);
    LiveNil(ws[0]);
    assert [] + [ws[0]] == ws && ws[..0] == [];
  }

  /** Erasing a live slot but the last one leaves the last slot as it is. */
  lemma {:induction false} EraseOther<B, T>(ws: seq<Window<B, T>>, i: nat, j: nat)
    requires Ready(ws) && i < |ws| && j < |ws[i].view| && ws[i].view[j].Some? && |AllLive(ws)| > 1
    requires (i, j) != (|ws| - 1, |ws[i].view| - 1)
    ensures BackLive(RingErase(ws, i, j)) <==> BackLive(ws)
  {
    hide AllLive, Live, Trim;
    if i == 0 && j == 0 {
      FrontLive(ws);
      TrimBack(ClearAt(ws, 0, 0));
    }
  }

  /** ... and the front slot is the last one only if there is nothing else. */
  lemma {:induction false} FrontNotBack<B, T>(ws: seq<Window<B, T>>)
    requires Ready(ws) && |AllLive(ws)| > 1
    ensures ws[0].view != [] && (BackLive(ws) ==> |ws| > 1 || |ws[0].view| > 1)
  {
    hide AllLive, Live;
    FrontLive(ws);
    BeforeFirst(ws);
    if BackLive(ws) {
      BackAt(ws);
      hide Before;
    }
  }

  lemma {:induction false} PopBack<B, T>(ws: seq<Window<B, T>>)
    requires Ready(ws) && |AllLive(ws)| > 1
    ensures BackLive(RingPop(ws)) <==> BackLive(ws)
  {
    hide AllLive, Live, Trim;
    FrontNotBack(ws);
    FrontLive(ws);
    TrimBack(ClearAt(ws, 0, 0));
  }

  /** Erasing a value that occurs once: the last slot is live then exactly if it was and
      the value was not in it. */
  lemma {:induction false} EraseValueBack<B, T>(ws: seq<Window<B, T>>, x: T)
    requires Ready(ws) && x in Values(AllLive(ws)) && |AllLive(ws)| > 1
    requires forall a, b :: 0 <= a < b < |AllLive(ws)| ==> AllLive(ws)[a].value != AllLive(ws)[b].value
    ensures BackLive(EraseValue(ws, x)) <==> BackLive(ws) && AllLive(ws)[|AllLive(ws)| - 1].value != x
  {
    hide AllLive, Live, Ready, RingErase, Before;
    var k :| 0 <= k < |Values(AllLive(ws))| && Values(AllLive(ws))[k] == x;
    var a, b := AllLiveIndex(ws, k);
    FoundAt(ws, k, a, b);
    if BackLive(ws) {
      BackAt(ws);
    }
    if (a, b) == (|ws| - 1, |ws[a].view| - 1) {
      LastErased(ws, a, b);
    } else {
      if BackLive(ws) && k == |AllLive(ws)| - 1 {
        SlotUnique(ws, a, b, |ws| - 1, |ws[|ws| - 1].view| - 1);
      }
      EraseOther(ws, a, b);
    }
  }

  lemma {:induction false} LastErased<B, T>(ws: seq<Window<B, T>>, i: nat, j: nat)
    requires Ready(ws) && i < |ws| && j < |ws[i].view| && ws[i].view[j].Some? && |AllLive(ws)| > 1
    requires (i, j) == (|ws| - 1, |ws[i].view| - 1)
    ensures BackLive(ws) && !BackLive(RingErase(ws, i, j))
  {
    hide AllLive, Live, Trim, RingPop;
    FrontNotBack(ws);
  }

  // ---- a queue of one block -------------------------------------------------

  lemma PushOne<B, T>(b: B, cap: nat, n: nat, view: seq<Option<T>>, x: T, next: B)
    requires |view| < cap
    ensures RingPush([Window(b, cap, n, view)], x, next) == [Window(b, cap, n, view + [Some(x)])]
    ensures [] + [Some(x)] == [Some(x)]
  {
  }

  lemma PopOnly<B, T>(b: B, cap: nat, n: nat, x: T)
    ensures RingPop([Window(b, cap, n, [Some(x)])]) == [Window(b, cap, n + 1, [])]
  {
    var ws := [Window(b, cap, n, [None])];
    var ds: seq<Window<B, T>> := [Window(b, cap, n + 1, [])];
    assert [Some(x)][0 := None] == [None] && [Option<T>.None][1..] == [];
    assert ClearAt([Window(b, cap, n, [Some(x)])], 0, 0) == ws;
    assert DropSlot(ws) == ds && Trim(ds) == ds;
  }

  lemma EraseOnly<B, T>(b: B, cap: nat, n: nat, x: T)
    ensures var ws := [Window(b, cap, n, [Some(x)])];
            EraseValue(ws, x) == [Window(b, cap, n + 1, [])] && (Erasable(ws, x) <==> n < cap)
  {
    PopOnly(b, cap, n, x);
    hide RingPop;
  }
}
