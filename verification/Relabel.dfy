/** The same blocks seen without their identity, and with values seen through a function:
    every operation on the blocks is the operation on what is seen. */
module Relabel {
  import opened Common
  import opened Rings

  function SeenSlot<T, U>(e: Option<T>, f: T -> U): Option<U> {
    if e.Some? then Some(f(e.value)) else None
  }

  function SeenView<T, U>(view: seq<Option<T>>, f: T -> U): (r: seq<Option<U>>)
    ensures |r| == |view|
  {
    seq(|view|, j requires 0 <= j < |view| => SeenSlot(view[j], f))
  }

  function Seen<B, T, U>(w: Window<B, T>, f: T -> U): Window<(), U> {
    Window((), w.cap, w.begin, SeenView(w.view, f))
  }

  function SeenAll<B, T, U>(ws: seq<Window<B, T>>, f: T -> U): (r: seq<Window<(), U>>)
    ensures |r| == |ws|
  {
    seq(|ws|, i requires 0 <= i < |ws| => Seen(ws[i], f))
  }

  lemma FreshSeen<B, T, U>(b: B, cap: nat, f: T -> U)
    ensures SeenAll(Fresh<B, T>(b, cap), f) == Fresh<(), U>((), cap)
  {
  }

  lemma PushSeen<B, T, U>(ws: seq<Window<B, T>>, x: T, b: B, f: T -> U)
    ensures SeenAll(RingPush(ws, x, b), f) == RingPush(SeenAll(ws, f), f(x), ())
  {
    GrownSeen(ws, b, f);
    PutSeen(Grown(ws, b), x, f);
    hide Grown, PutLast, SeenAll;
  }

  lemma GrownSeen<B, T, U>(ws: seq<Window<B, T>>, b: B, f: T -> U)
    ensures SeenAll(Grown(ws, b), f) == Grown(SeenAll(ws, f), ())
  {
  }

  lemma PutSeen<B, T, U>(ws: seq<Window<B, T>>, x: T, f: T -> U)
    ensures SeenAll(PutLast(ws, x), f) == PutLast(SeenAll(ws, f), f(x))
  {
    if ws != [] {
      var v := ws[|ws| - 1].view;
      assert SeenView(v + [Some(x)], f) == SeenView(v, f) + [Some(f(x))];
    }
  }

  lemma ClearSeen<B, T, U>(ws: seq<Window<B, T>>, i: nat, j: nat, f: T -> U)
    requires i < |ws| && j < |ws[i].view|
    ensures SeenAll(ClearAt(ws, i, j), f) == ClearAt(SeenAll(ws, f), i, j)
  {
    assert SeenView(ws[i].view[j := None], f) == SeenView(ws[i].view, f)[j := None];
  }

  lemma DropSeen<B, T, U>(ws: seq<Window<B, T>>, f: T -> U)
    requires ws != [] && ws[0].view != []
    ensures SeenAll(DropSlot(ws), f) == DropSlot(SeenAll(ws, f))
  {
    assert SeenView(ws[0].view[1..], f) == SeenView(ws[0].view, f)[1..];
  }

  lemma {:induction false} TrimSeen<B, T, U>(ws: seq<Window<B, T>>, f: T -> U)
    ensures SeenAll(Trim(ws), f) == Trim(SeenAll(ws, f))
    decreases |ws|, if ws == [] then 0 else |ws[0].view|
  {
    if FrontTomb(ws) {
      DropSeen(ws, f);
      TrimSeen(DropSlot(ws), f);
      hide DropSlot;
    }
  }

  lemma PopSeen<B, T, U>(ws: seq<Window<B, T>>, f: T -> U)
    ensures SeenAll(RingPop(ws), f) == RingPop(SeenAll(ws, f))
  {
    hide Trim;
    if ws != [] && ws[0].view != [] {
      ClearSeen(ws, 0, 0, f);
      TrimSeen(ClearAt(ws, 0, 0), f);
    }
  }

  lemma EraseSeen<B, T, U>(ws: seq<Window<B, T>>, i: nat, j: nat, f: T -> U)
    requires i < |ws| && j < |ws[i].view|
    ensures SeenAll(RingErase(ws, i, j), f) == RingErase(SeenAll(ws, f), i, j)
  {
    PopSeen(ws, f);
    ClearSeen(ws, i, j, f);
    hide RingPop;
  }

  // ---- the live elements ----------------------------------------------------------

  /** Element by element, the same place and the value seen. */
  ghost predicate SameItems<B, T, U>(a: seq<Item<B, T>>, b: seq<Item<(), U>>, f: T -> U) {
    |a| == |b| && forall k :: 0 <= k < |a| ==> b[k] == Item((), a[k].index, f(a[k].value))
  }

  lemma {:induction false} LiveSeen<B, T, U>(w: Window<B, T>, f: T -> U)
    ensures SameItems(Live(w), Live(Seen(w, f)), f)
    decreases |w.view|
  {
    if w.view == [] {
    } else {
      var n := |w.view| - 1;
      var u := w.(view := w.view[..n]);
      LiveSeen(u, f);
      assert Seen(w, f).(view := Seen(w, f).view[..n]) == Seen(u, f);
    }
  }

  lemma {:induction false} AllLiveSeen<B, T, U>(ws: seq<Window<B, T>>, f: T -> U)
    ensures SameItems(AllLive(ws), AllLive(SeenAll(ws, f)), f)
    decreases |ws|
  {
    hide Live;
    if ws == [] {
    } else {
      var n := |ws| - 1;
      AllLiveSeen(ws[..n], f);
      LiveSeen(ws[n], f);
      assert SeenAll(ws, f)[..n] == SeenAll(ws[..n], f);
    }
  }

  lemma BeforeSeen<B, T, U>(ws: seq<Window<B, T>>, i: nat, j: nat, f: T -> U)
    requires i < |ws| && j <= |ws[i].view|
    ensures Before(SeenAll(ws, f), i, j) == Before(ws, i, j)
  {
    AllLiveSeen(ws[..i], f);
    assert SeenAll(ws, f)[..i] == SeenAll(ws[..i], f);
    var w := ws[i].(view := ws[i].view[..j]);
    LiveSeen(w, f);
    assert Seen(ws[i], f).(view := Seen(ws[i], f).view[..j]) == Seen(w, f);
    hide AllLive, Live;
  }

  /** Erasing the one element seen as `x` is erasing `x` from what is seen. */
  lemma ErasedSeen<B, T, U>(ws: seq<Window<B, T>>, p: nat, x: U, f: T -> U)
    requires p < |AllLive(ws)| && f(AllLive(ws)[p].value) == x
    requires forall k :: 0 <= k < |AllLive(ws)| && f(AllLive(ws)[k].value) == x ==> k == p
    ensures UnwrappedAt(ws, p) <==> Erasable(SeenAll(ws, f), x)
    ensures forall to :: ErasedAt(ws, to, p) ==> SeenAll(to, f) == EraseValue(SeenAll(ws, f), x)
  {
    hide AllLive, Before, RingErase, SeenAll;
    var i, j := AllLiveIndex(ws, p);
    UnwrappedThere(ws, p, i, j);
    SeenAt(ws, p, i, j, x, f);
    forall to | ErasedAt(ws, to, p)
      ensures SeenAll(to, f) == EraseValue(SeenAll(ws, f), x)
    {
      var k, l :| AtSlot(ws, p, k, l) && to == RingErase(ws, k, l);
      SlotUnique(ws, i, j, k, l);
      EraseSeen(ws, i, j, f);
    }
  }

  lemma SeenAt<B, T, U>(ws: seq<Window<B, T>>, p: nat, i: nat, j: nat, x: U, f: T -> U)
    requires p < |AllLive(ws)| && f(AllLive(ws)[p].value) == x && AtSlot(ws, p, i, j)
    requires ws[i].view[j].value == AllLive(ws)[p].value
    requires forall k :: 0 <= k < |AllLive(ws)| && f(AllLive(ws)[k].value) == x ==> k == p
    ensures var rs := SeenAll(ws, f);
            && WindowOf(rs, x) == i && SlotOf(rs[i].view, x) == j
            && (Unwrapped(ws, i, j) <==> Unwrapped(rs, i, j))
  {
    hide AllLive, Before;
    BeforeSeen(ws, i, j, f);
    AllLiveSeen(ws, f);
    FoundAt(SeenAll(ws, f), p, i, j);
  }
}
