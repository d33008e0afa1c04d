/** The wire format of the socket scheduler: `[size:32, slot:32, body]` data
    messages and `[0:32, slot:32, session id:128]` meta messages. */
module Framing {
  import opened Common

  const U32: nat := 0x1_0000_0000

  /** The 32-bit value `~u32(0)`, never a slot id. */
  const NO_SLOT: nat := 0xFFFF_FFFF

  const HEADER: nat := 8
  const META: nat := 24

  type Sid = s: Bytes | |s| == 16
    witness [0, 0, 0, 0, 0, 0, 0, 0, 0, 0, 0, 0, 0, 0, 0, 0]

  datatype Frame =
    | Meta(slot: nat, sid: Sid)
    | Data(slot: nat, body: Bytes)

  /** What one `send` puts on the wire: a zero-length body is refused before it
      gets here, so a zero size field always means a meta message. */
  predicate ValidFrame(f: Frame) {
    && f.slot < U32
    && (f.Data? ==> 0 < |f.body| < U32)
  }

  predicate ValidFrames(fs: seq<Frame>) {
    forall i :: 0 <= i < |fs| ==> ValidFrame(fs[i])
  }

  function EncU32(n: nat): (r: Bytes)
    ensures |r| == 4
  {
    [n % 256, n / 256 % 256, n / 65536 % 256, n / 16777216 % 256]
  }

  function DecU32(b: Bytes): (n: nat)
    requires |b| == 4
    ensures n < U32
  {
    b[0] as int + 256 * (b[1] as int) + 65536 * (b[2] as int) + 16777216 * (b[3] as int)
  }

  lemma DecEncU32(n: nat)
    requires n < U32
    ensures DecU32(EncU32(n)) == n
  {
    assert n == n % 256 + 256 * (n / 256);
    assert n / 65536 == n / 256 / 256;
    assert n / 16777216 == n / 65536 / 256;
  }

  function Header(size: nat, slot: nat): (r: Bytes)
    ensures |r| == HEADER
  {
    EncU32(size) + EncU32(slot)
  }

  function HeaderSize(h: Bytes): (n: nat)
    requires |h| >= HEADER
    ensures n < U32
  {
    DecU32(h[..4])
  }

  function HeaderSlot(h: Bytes): (n: nat)
    requires |h| >= HEADER
    ensures n < U32
  {
    DecU32(h[4..8])
  }

  lemma DecHeader(size: nat, slot: nat, rest: Bytes)
    requires size < U32 && slot < U32
    ensures HeaderSize(Header(size, slot) + rest) == size
    ensures HeaderSlot(Header(size, slot) + rest) == slot
  {
    var h := Header(size, slot) + rest;
    assert h[..4] == EncU32(size);
    assert h[4..8] == EncU32(slot);
    DecEncU32(size);
    DecEncU32(slot);
  }

  lemma LowDigit(low: nat, high: nat)
    requires low < 256
    ensures (low + 256 * high) % 256 == low && (low + 256 * high) / 256 == high
  {
  }

  lemma EncDecU32(b: Bytes)
    requires |b| == 4
    ensures EncU32(DecU32(b)) == b
  {
    var b0, b1, b2, b3 := b[0] as nat, b[1] as nat, b[2] as nat, b[3] as nat;
    var n := DecU32(b);
    assert n / 65536 == n / 256 / 256 && n / 16777216 == n / 256 / 256 / 256;
    LowDigit(b0, b1 + 256 * (b2 + 256 * b3));
    LowDigit(b1, b2 + 256 * b3);
    LowDigit(b2, b3);
    LowDigit(b3, 0);
  }

  lemma EncHeader(h: Bytes)
    requires |h| == HEADER
    ensures Header(HeaderSize(h), HeaderSlot(h)) == h
  {
    EncDecU32(h[..4]);
    EncDecU32(h[4..8]);
    assert h == h[..4] + h[4..8];
  }

  function EncFrame(f: Frame): (r: Bytes)
    ensures |r| >= HEADER
    ensures f.Meta? ==> |r| == META
    ensures f.Data? ==> |r| == HEADER + |f.body|
  {
    match f
    case Meta(slot, sid) => Header(0, slot) + sid
    case Data(slot, body) => Header(|body|, slot) + body
  }

  function Encode(fs: seq<Frame>): Bytes {
    if fs == [] then [] else EncFrame(fs[0]) + Encode(fs[1..])
  }

  /** One turn of the receive loop on buffered bytes: a whole leading message
      and what follows it, or None when more bytes are needed. */
  function NextFrame(b: Bytes): Option<(Frame, Bytes)> {
    if |b| < HEADER then None
    else
      var size := HeaderSize(b);
      var slot := HeaderSlot(b);
      if size == 0 then
        if |b| < META then None else Some((Meta(slot, b[8..24]), b[24..]))
      else
        if |b| < HEADER + size then None else Some((Data(slot, b[8..8 + size]), b[8 + size..]))
  }

  /** The whole receive loop on a buffer: the messages it holds and the bytes of
      the incomplete one at its end. */
  function Parse(b: Bytes): (r: (seq<Frame>, Bytes))
    decreases |b|
  {
    match NextFrame(b)
    case None => ([], b)
    case Some((f, rest)) =>
      var (fs, tail) := Parse(rest);
      ([f] + fs, tail)
  }

  lemma NextFrameOfEncoding(f: Frame, rest: Bytes)
    requires ValidFrame(f)
    ensures NextFrame(EncFrame(f) + rest) == Some((f, rest))
  {
    hide Header, HeaderSize, HeaderSlot;
    var b := EncFrame(f) + rest;
    match f
    case Meta(slot, sid) =>
      assert b == Header(0, slot) + (sid + rest);
      DecHeader(0, slot, sid + rest);
      assert b[8..24] == sid && b[24..] == rest;
    case Data(slot, body) =>
      assert b == Header(|body|, slot) + (body + rest);
      DecHeader(|body|, slot, body + rest);
      assert b[8..8 + |body|] == body && b[8 + |body|..] == rest;
  }

  /** A whole message stays the first message however many bytes follow it. */
  lemma NextFrameExtend(a: Bytes, b: Bytes)
    requires NextFrame(a).Some?
    ensures NextFrame(a + b) == Some((NextFrame(a).value.0, NextFrame(a).value.1 + b))
  {
    var ab := a + b;
    assert ab[..4] == a[..4] && ab[4..8] == a[4..8];
    var size := HeaderSize(a);
    if size == 0 {
      assert ab[8..24] == a[8..24] && ab[24..] == a[24..] + b;
    } else {
      assert ab[8..8 + size] == a[8..8 + size];
      assert ab[8 + size..] == a[8 + size..] + b;
    }
  }

  /** Chunking law: feeding `a` and then `b` parses the same messages as feeding
      `a + b` at once. */
  lemma {:induction false} ParseChunks(a: Bytes, b: Bytes)
    ensures Parse(a + b).0 == Parse(a).0 + Parse(Parse(a).1 + b).0
    ensures Parse(a + b).1 == Parse(Parse(a).1 + b).1
    decreases |a|
  {
    match NextFrame(a)
    case None =>
    case Some((f, rest)) =>
      NextFrameExtend(a, b);
      ParseChunks(rest, b);
  }

  /** Framing round trip: the receive loop reads back exactly the frames encoded,
      and the bytes of an incomplete last frame stay unread. */
  lemma {:induction false} ParseEncode(fs: seq<Frame>, part: Bytes)
    requires ValidFrames(fs)
    requires NextFrame(part).None?
    ensures Parse(Encode(fs) + part) == (fs, part)
  {
    hide EncFrame, NextFrame;
    if fs == [] {
      assert Encode(fs) + part == part;
    } else {
      var rest := Encode(fs[1..]) + part;
      assert Encode(fs) + part == EncFrame(fs[0]) + rest;
      NextFrameOfEncoding(fs[0], rest);
      ParseEncode(fs[1..], part);
      assert fs == [fs[0]] + fs[1..];
    }
  }

  /** The bytes of `chunks` one after the other. */
  function Joined(chunks: seq<Bytes>): Bytes {
    if chunks == [] then [] else chunks[0] + Joined(chunks[1..])
  }

  /** The receive loop run chunk by chunk from `left` unread bytes. */
  function ParseFeed(left: Bytes, chunks: seq<Bytes>): (seq<Frame>, Bytes)
    decreases |chunks|
  {
    if chunks == [] then ([], left)
    else
      var (fs, l1) := Parse(left + chunks[0]);
      var (gs, l2) := ParseFeed(l1, chunks[1..]);
      (fs + gs, l2)
  }

  lemma {:induction false} ParseIdle(b: Bytes)
    ensures NextFrame(Parse(b).1).None?
    decreases |b|
  {
    match NextFrame(b)
    case None =>
    case Some((_, rest)) => ParseIdle(rest);
  }

  lemma {:induction false} FeedIsParse(left: Bytes, chunks: seq<Bytes>)
    requires NextFrame(left).None?
    ensures ParseFeed(left, chunks) == Parse(left + Joined(chunks))
    decreases |chunks|
  {
    if chunks == [] {
      assert left + Joined(chunks) == left;
    } else {
      var first := left + chunks[0];
      var later := Joined(chunks[1..]);
      assert left + Joined(chunks) == first + later;
      ParseChunks(first, later);
      ParseIdle(first);
      FeedIsParse(Parse(first).1, chunks[1..]);
    }
  }

  /** Framing round trip for every sequence of frames and every way of cutting
      its encoding into chunks. */
  lemma ChunkedRoundTrip(fs: seq<Frame>, chunks: seq<Bytes>)
    requires ValidFrames(fs)
    requires Joined(chunks) == Encode(fs)
    ensures ParseFeed([], chunks) == (fs, [])
  {
    FeedIsParse([], chunks);
    assert [] + Joined(chunks) == Encode(fs) + [];
    ParseEncode(fs, []);
  }

  lemma {:induction false} EncodeAppend(a: seq<Frame>, b: seq<Frame>)
    ensures Encode(a + b) == Encode(a) + Encode(b)
  {
    if a == [] {
      assert a + b == b;
    } else {
      assert (a + b)[1..] == a[1..] + b;
      EncodeAppend(a[1..], b);
    }
  }

  lemma EncodeSnoc(fs: seq<Frame>, f: Frame)
    ensures Encode(fs + [f]) == Encode(fs) + EncFrame(f)
  {
    EncodeAppend(fs, [f]);
    assert Encode([f]) == EncFrame(f) + Encode([]);
  }

  /** Frames read off a prefix of an encoding are a prefix of the frames encoded,
      and the bytes left over start the encoding of the rest. */
  lemma {:induction false} PrefixFrames(rx: seq<Frame>, part: Bytes, tx: seq<Frame>)
    requires ValidFrames(rx) && ValidFrames(tx)
    requires Encode(rx) + part <= Encode(tx)
    ensures rx <= tx
    ensures part <= Encode(tx[|rx|..])
  {
    hide EncFrame, NextFrame;
    if rx == [] {
      assert Encode(rx) + part == part && tx[0..] == tx;
    } else {
      var all := Encode(rx) + part;
      var more := Encode(tx)[|all|..];
      assert Encode(tx) == all + more;
      var rest := Encode(rx[1..]) + part;
      assert all + more == EncFrame(rx[0]) + (rest + more);
      NextFrameOfEncoding(rx[0], rest + more);
      assert tx != [];
      NextFrameOfEncoding(tx[0], Encode(tx[1..]));
      assert rx[0] == tx[0] && rest + more == Encode(tx[1..]);
      assert rest <= Encode(tx[1..]);
      PrefixFrames(rx[1..], part, tx[1..]);
      assert tx[1..][|rx| - 1..] == tx[|rx|..];
    }
  }

  /** The fields of the header that opens a frame's encoding. */
  lemma HeaderOfFrame(f: Frame, tail: Bytes)
    requires ValidFrame(f)
    ensures HeaderSize(EncFrame(f) + tail) == if f.Meta? then 0 else |f.body|
    ensures HeaderSlot(EncFrame(f) + tail) == f.slot
  {
    hide HeaderSize, HeaderSlot, Header;
    var n := if f.Meta? then 0 else |f.body|;
    var body := if f.Meta? then f.sid else f.body;
    assert EncFrame(f) + tail == Header(n, f.slot) + (body + tail);
    DecHeader(n, f.slot, body + tail);
  }

  /** Two ways to cut the same bytes after a meta header leave the same session id. */
  lemma SameSid(slot: nat, sid: Bytes, rest: Bytes, f: Frame, tail: Bytes)
    requires f.Meta? && |sid| == 16
    requires Header(0, slot) + sid + rest == EncFrame(f) + tail
    ensures sid == f.sid
  {
    hide Header;
    assert sid == (Header(0, slot) + sid + rest)[8..24];
    assert f.sid == (Header(0, f.slot) + f.sid + tail)[8..24];
  }

  /** A complete header left over belongs to the next frame encoded. */
  lemma NextHeader(size: nat, slot: nat, more: Bytes, fs: seq<Frame>)
    requires ValidFrames(fs) && size < U32 && slot < U32
    requires Header(size, slot) + more <= Encode(fs)
    ensures fs != []
    ensures fs[0].slot == slot
    ensures size == 0 ==> fs[0].Meta?
    ensures size != 0 ==> fs[0].Data? && |fs[0].body| == size
    ensures size == 0 && |more| == 16 ==> fs[0] == Meta(slot, more)
  {
    hide Header, HeaderSize, HeaderSlot, EncFrame;
    assert fs != [];
    var f, tail := fs[0], Encode(fs[1..]);
    var rest := Encode(fs)[|Header(size, slot) + more|..];
    assert Header(size, slot) + more + rest == Encode(fs) == EncFrame(f) + tail;
    assert Header(size, slot) + more + rest == Header(size, slot) + (more + rest);
    DecHeader(size, slot, more + rest);
    HeaderOfFrame(f, tail);
    assert ValidFrame(f);
    if size == 0 && |more| == 16 {
      SameSid(slot, more, rest, f, tail);
    }
  }

  /** The words of a header are little-endian, the size first; a size of zero stands for a
      session id of sixteen bytes, and the slot that is never used has all bits set. */
  lemma WireExample(sid: Sid)
    ensures EncFrame(Data(0x0a0b0c0d, [7, 8])) == [2, 0, 0, 0, 0x0d, 0x0c, 0x0b, 0x0a, 7, 8]
    ensures EncFrame(Meta(0x0a0b0c0d, sid)) == [0, 0, 0, 0, 0x0d, 0x0c, 0x0b, 0x0a] + sid
    ensures EncU32(NO_SLOT) == [255, 255, 255, 255]
  {
    assert EncU32(2) == [2, 0, 0, 0] && EncU32(0x0a0b0c0d) == [0x0d, 0x0c, 0x0b, 0x0a];
    assert EncU32(0) == [0, 0, 0, 0];
  }
}
