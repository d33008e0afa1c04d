/** What a stream of frames means: which session each slot stands for and which
    bodies each session carries. */
module Streams {
  import opened Common
  import opened Framing

  /** The slot ids announced by `fs` and their session ids. */
  function Slots(fs: seq<Frame>): map<nat, Sid> {
    if fs == [] then map[]
    else
      var m := Slots(fs[..|fs| - 1]);
      var f := fs[|fs| - 1];
      if f.Meta? then m[f.slot := f.sid] else m
  }

  /** Frame `f` may follow `fs`: a data frame uses an announced slot, a meta frame
      announces a new slot for a session that has none. */
  predicate MayFollow(fs: seq<Frame>, f: Frame) {
    match f
    case Meta(slot, sid) => slot < NO_SLOT && slot !in Slots(fs) && sid !in Slots(fs).Values
    case Data(slot, _) => slot in Slots(fs)
  }

  predicate Announced(fs: seq<Frame>) {
    fs == [] || (Announced(fs[..|fs| - 1]) && MayFollow(fs[..|fs| - 1], fs[|fs| - 1]))
  }

  /** The bodies `fs` carries for session `sid`, in order. */
  function Bodies(fs: seq<Frame>, sid: Sid): seq<Bytes> {
    if fs == [] then []
    else
      var init := fs[..|fs| - 1];
      var f := fs[|fs| - 1];
      Bodies(init, sid)
      + (if f.Data? && f.slot in Slots(init) && Slots(init)[f.slot] == sid then [f.body] else [])
  }

  /** Bytes a stream of frames takes on the wire. */
  function Cost(fs: seq<Frame>): nat {
    if fs == [] then 0 else Cost(fs[..|fs| - 1]) + |EncFrame(fs[|fs| - 1])|
  }

  /** The bodies of all data frames, in order. */
  function AllBodies(fs: seq<Frame>): seq<Bytes> {
    if fs == [] then []
    else
      var f := fs[|fs| - 1];
      AllBodies(fs[..|fs| - 1]) + (if f.Data? then [f.body] else [])
  }

  lemma AllBodiesSnoc(fs: seq<Frame>, f: Frame)
    ensures AllBodies(fs + [f]) == AllBodies(fs) + if f.Data? then [f.body] else []
  {
    assert (fs + [f])[..|fs|] == fs;
  }

  lemma {:induction false} EncodeCost(fs: seq<Frame>)
    ensures |Encode(fs)| == Cost(fs)
    decreases |fs|
  {
    if fs != [] {
      hide Encode, EncFrame;
      var init, f := fs[..|fs| - 1], fs[|fs| - 1];
      assert fs == init + [f];
      EncodeCost(init);
      EncodeSnoc(init, f);
      assert Encode(fs) == Encode(init) + EncFrame(f);
    }
  }

  /** A header for every body. */
  function BodyCost(bodies: seq<Bytes>): nat {
    if bodies == [] then 0
    else BodyCost(bodies[..|bodies| - 1]) + HEADER + |bodies[|bodies| - 1]|
  }

  /** Announced slots are all different, so a stream costs one meta message for each
      and a data message for each body. */
  lemma {:induction false} CostByParts(fs: seq<Frame>)
    requires Announced(fs)
    ensures Cost(fs) == META * |Slots(fs)| + BodyCost(AllBodies(fs))
    decreases |fs|
  {
    if fs != [] {
      var init := fs[..|fs| - 1];
      var f := fs[|fs| - 1];
      CostByParts(init);
      hide EncFrame;
      if f.Data? {
        assert AllBodies(fs) == AllBodies(init) + [f.body];
        assert AllBodies(fs)[..|AllBodies(init)|] == AllBodies(init);
      } else {
        assert AllBodies(fs) == AllBodies(init);
        assert Slots(fs).Keys == Slots(init).Keys + {f.slot};
        assert |Slots(fs).Keys| == |Slots(init).Keys| + 1;
      }
    }
  }

  lemma Snoc(fs: seq<Frame>, f: Frame)
    ensures Slots(fs + [f]) == if f.Meta? then Slots(fs)[f.slot := f.sid] else Slots(fs)
    ensures Announced(fs + [f]) <==> Announced(fs) && MayFollow(fs, f)
    ensures forall sid ::
              Bodies(fs + [f], sid) ==
              Bodies(fs, sid)
              + (if f.Data? && f.slot in Slots(fs) && Slots(fs)[f.slot] == sid then [f.body] else [])
  {
    assert (fs + [f])[..|fs|] == fs;
  }

  lemma {:induction false} AnnouncedPrefix(a: seq<Frame>, b: seq<Frame>)
    requires a <= b && Announced(b)
    ensures Announced(a)
    ensures |a| < |b| ==> MayFollow(a, b[|a|])
    decreases |b|
  {
    if |a| < |b| {
      var init := b[..|b| - 1];
      if a == init {
      } else {
        AnnouncedPrefix(a, init);
      }
    } else {
      assert a == b;
    }
  }

  lemma {:induction false} BodiesPrefix(a: seq<Frame>, b: seq<Frame>, sid: Sid)
    requires a <= b
    ensures Bodies(a, sid) <= Bodies(b, sid)
    decreases |b|
  {
    if |a| < |b| {
      BodiesPrefix(a, b[..|b| - 1], sid);
    } else {
      assert a == b;
    }
  }

  /** Slot agreement on a stream: every data frame comes after the one meta frame
      of the whole stream that announces its slot. */
  lemma {:induction false} AnnouncedOnce(fs: seq<Frame>, i: nat) returns (j: nat)
    requires Announced(fs) && i < |fs| && fs[i].Data?
    ensures j < i && fs[j].Meta? && fs[j].slot == fs[i].slot
    ensures forall k :: 0 <= k < |fs| && fs[k].Meta? && fs[k].slot == fs[i].slot ==> k == j
    decreases |fs|
  {
    var init := fs[..|fs| - 1];
    var f := fs[|fs| - 1];
    if i < |fs| - 1 {
      j := AnnouncedOnce(init, i);
      if f.Meta? {
        SlotsOfMeta(init, j);
      }
    } else {
      j := MetaOfSlot(init, f.slot);
    }
  }

  lemma {:induction false} SlotsOfMeta(fs: seq<Frame>, j: nat)
    requires j < |fs| && fs[j].Meta?
    ensures fs[j].slot in Slots(fs)
    decreases |fs|
  {
    if j < |fs| - 1 {
      SlotsOfMeta(fs[..|fs| - 1], j);
    }
  }

  lemma {:induction false} MetaOfSlot(fs: seq<Frame>, slot: nat) returns (j: nat)
    requires Announced(fs) && slot in Slots(fs)
    ensures j < |fs| && fs[j] == Meta(slot, Slots(fs)[slot])
    ensures forall k :: 0 <= k < |fs| && fs[k].Meta? && fs[k].slot == slot ==> k == j
    decreases |fs|
  {
    var init := fs[..|fs| - 1];
    var f := fs[|fs| - 1];
    if f.Meta? && f.slot == slot {
      j := |fs| - 1;
      forall k | 0 <= k < |init| && init[k].Meta?
        ensures init[k].slot != slot
      {
        SlotsOfMeta(init, k);
      }
    } else {
      j := MetaOfSlot(init, slot);
    }
  }

}
