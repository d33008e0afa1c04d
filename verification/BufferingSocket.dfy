/** BufferingSocket as the code keeps it: a queue of chunks with an offset into the
    first, two such queues and one parked reader for each socket, and the loop that
    carries messages between two sockets. */
module BufferingSocket {
  import opened Common
  import opened Transfers
  import opened BufferedLink

  function Flat(chunks: seq<Bytes>): Bytes {
    if chunks == [] then [] else chunks[0] + Flat(chunks[1..])
  }

  lemma {:induction false} FlatSnoc(chunks: seq<Bytes>, c: Bytes)
    ensures Flat(chunks + [c]) == Flat(chunks) + c
  {
    if chunks == [] {
      assert Flat([c]) == c + Flat([]);
    } else {
      FlatSnoc(chunks[1..], c);
      assert (chunks + [c])[1..] == chunks[1..] + [c];
    }
  }

  class Buffer {
    var front: nat
    var size: nat
    var data: seq<Bytes>

    ghost predicate Valid()
      reads this
    {
      && (if data == [] then front == 0 else front <= |data[0]|)
      && size == |Flat(data)| - front
    }

    /** The bytes buffered, however they are cut into chunks. */
    ghost function Contents(): Bytes
      requires Valid()
      reads this
    {
      Flat(data)[front..]
    }

    constructor ()
      ensures Valid() && Contents() == [] && front == 0
    {
      front, size, data := 0, 0, [];
    }

    method Push(bytes: Bytes)
      requires Valid()
      modifies this
      ensures Valid() && Contents() == old(Contents()) + bytes && front == old(front)
      ensures size == old(size) + |bytes|
    {
      FlatSnoc(data, bytes);
      data := data + [bytes];
      size := size + |bytes|;
    }

    /** One turn of the loop of pop: what is wanted of the first chunk. */
    method PopChunk(dest: array<Byte>, at: nat) returns (m: nat)
      requires Valid() && at < dest.Length && size > 0
      modifies this, dest
      ensures Valid() && at + m <= dest.Length && m <= |old(Contents())|
      ensures dest[..] == old(dest[..at]) + old(Contents())[..m] + old(dest[at + m..])
      ensures Contents() == old(Contents())[m..] && size == old(size) - m
      ensures at + m == dest.Length || |data| < |old(data)|
      ensures |data| <= |old(data)|
    {
      assert data != [];
      var chunk := data[0];
      var left := |chunk| - front;
      m := if dest.Length - at <= left then dest.Length - at else left;
      assert Contents()[..m] == chunk[front..front + m];
      CopyFrom(dest, at, chunk[front..front + m]);
      front := front + m;
      size := size - m;
      if front == |chunk| {
        assert Flat(data)[front..] == Flat(data[1..]);
        data := data[1..];
        front := 0;
      }
    }

    /** Chunk by chunk, the next `dest.Length` bytes: a prefix of the flat contents. */
    method Pop(dest: array<Byte>)
      requires Valid() && size >= dest.Length
      modifies this, dest
      ensures Valid() && dest[..] == old(Contents())[..dest.Length]
      ensures Contents() == old(Contents())[dest.Length..] && size == old(size) - dest.Length
    {
      ghost var all := Contents();
      var at := 0;
      while at < dest.Length
        invariant at <= dest.Length <= |all| && Valid()
        invariant dest[..at] == all[..at] && Contents() == all[at..] && size == |all| - at
        decreases dest.Length - at + |data|
      {
        ghost var before := dest[..at];
        var m := PopChunk(dest, at);
        assert dest[..at + m] == before + all[at..][..m];
        assert all[..at + m] == all[..at] + all[at..][..m];
        at := at + m;
      }
      assert dest[..dest.Length] == dest[..];
    }

    /** The overload that returns everything; it insists that nothing was popped from
        the first chunk. */
    method PopAll() returns (bytes: Bytes)
      requires Valid() && front == 0
      modifies this
      ensures Valid() && bytes == old(Contents()) && Contents() == [] && front == 0
    {
      ghost var all := Contents();
      bytes := [];
      while data != []
        invariant front == 0 && all == bytes + Flat(data)
        decreases |data|
      {
        bytes := bytes + data[0];
        data := data[1..];
      }
      size := 0;
    }
  }

  /** std::copy into the destination. */
  method CopyFrom(dest: array<Byte>, at: nat, src: Bytes)
    requires at + |src| <= dest.Length
    modifies dest
    ensures dest[..] == old(dest[..at]) + src + old(dest[at + |src|..])
  {
    for i := 0 to |src|
      invariant dest[..] == old(dest[..at]) + src[..i] + old(dest[at + i..])
    {
      dest[at + i] := src[i];
    }
  }

  class Awaiter {
    ghost const id: nat
    const kind: Kind
    const buf: array<Byte>
    var ec: Option<Code>

    constructor (ghost id: nat, kind: Kind, buf: array<Byte>)
      ensures this.id == id && this.kind == kind && this.buf == buf && ec == None
    {
      this.id, this.kind, this.buf, ec := id, kind, buf, None;
    }
  }

  class SockImpl {
    var ec: Code
    var reader: Awaiter?
    const outbound: Buffer
    const inbound: Buffer

    ghost predicate Valid()
      reads this, outbound, inbound, reader
    {
      && outbound != inbound && outbound.Valid() && outbound.front == 0 && inbound.Valid()
      && (reader != null ==> reader.ec == None && reader.kind == Receiving && reader.buf.Length > inbound.size)
    }

    ghost function Abs(): Sock
      requires Valid()
      reads this, outbound, inbound, reader
    {
      Sock(ec, if reader == null then None else Some(reader.id), outbound.Contents(), inbound.Contents())
    }

    constructor ()
      ensures Valid() && Abs() == Fresh() && fresh(outbound) && fresh(inbound)
    {
      ec, reader := Success, null;
      outbound := new Buffer();
      inbound := new Buffer();
    }

    /** await_suspend. `stopped`: the stop token had fired. A recv is served if the bytes are
        there, also past a parked reader; if not it takes the place of any parked reader. */
    method AwaitSuspend(a: Awaiter, stopped: bool) returns (now: bool)
      requires Valid() && a.ec == None && a != reader && a.buf.Length > 0
      modifies this, outbound, inbound, a, a.buf
      ensures Valid() && now == a.ec.Some?
      ensures stopped ==> a.ec == Some(OperationAborted) && Abs() == old(Abs())
      ensures !stopped && a.kind == Sending ==>
                a.ec == Some(Success) && Abs() == Queued(old(Abs()), old(a.buf[..])) && a.buf[..] == old(a.buf[..])
      ensures !stopped && a.kind == Receiving && a.buf.Length <= |old(Abs()).inbound| ==>
                && a.ec == Some(Success) && Abs() == Taken(old(Abs()), a.buf.Length)
                && a.buf[..] == old(Abs()).inbound[..a.buf.Length]
      ensures !stopped && a.kind == Receiving && a.buf.Length > |old(Abs()).inbound| ==>
                a.ec == None && Abs() == old(Abs()).(reader := Some(a.id)) && a.buf[..] == old(a.buf[..])
    {
      if stopped {
        a.ec := Some(OperationAborted);
      } else if a.kind == Sending {
        outbound.Push(a.buf[..]);
        a.ec := Some(Success);
      } else if inbound.size >= a.buf.Length {
        inbound.Pop(a.buf);
        a.ec := Some(Success);
      } else {
        reader := a;
      }
      now := a.ec.Some?;
    }

    /** The stop callback of the parked recv. */
    method StopCallback(a: Awaiter)
      requires Valid() && (a.ec == None ==> a == reader)
      modifies this, a
      ensures Valid()
      ensures old(a.ec).Some? ==> a.ec == old(a.ec) && Abs() == old(Abs())
      ensures old(a.ec) == None ==> a.ec == Some(OperationAborted) && Abs() == old(Abs()).(reader := None)
    {
      if a.ec == None {
        a.ec := Some(OperationAborted);
        reader := null;
      }
    }

    /** processInbound: the bytes are buffered, and a reader that now has enough gets
        exactly what it asked for. */
    method ProcessInbound(bytes: Bytes) returns (resumed: bool)
      requires Valid()
      modifies this, inbound, reader, if reader == null then {} else {reader.buf}
      ensures Valid()
      ensures resumed <==> old(reader) != null && old(reader).buf.Length <= |old(Abs()).inbound| + |bytes|
      ensures !resumed ==> Abs() == Buffered(old(Abs()), bytes) && reader == old(reader)
      ensures resumed ==> var a := old(reader); var s := Buffered(old(Abs()), bytes);
                && a.ec == Some(Success) && a.buf[..] == s.inbound[..a.buf.Length]
                && Abs() == Taken(s, a.buf.Length).(reader := None)
      ensures old(reader) != null && !resumed ==> old(reader).buf[..] == old(reader.buf[..])
    {
      resumed := false;
      inbound.Push(bytes);
      if reader != null && reader.buf.Length <= inbound.size {
        inbound.Pop(reader.buf);
        reader.ec := Some(Success);
        reader := null;
        resumed := true;
      }
    }

    method SetError(e: Code)
      requires Valid() && e != Success
      modifies this, reader
      ensures Valid()
      ensures old(ec) != Success ==> Abs() == old(Abs()) && reader == old(reader)
      ensures old(ec) == Success ==> Abs() == Failed(old(Abs()), e).(reader := None)
      ensures old(reader) != null ==> old(reader).ec == if old(ec) == Success then Some(e) else None
    {
      if ec == Success {
        ec := e;
        if reader != null {
          reader.ec := Some(e);
          reader := null;
        }
      }
    }

    method Close()
      requires Valid()
      modifies this, reader
      ensures Valid() && Abs() == Failed(old(Abs()), Closed).(reader := None)
      ensures old(reader) != null ==> old(reader).ec == Some(OperationAborted)
    {
      if ec == Success {
        ec := Closed;
      }
      if reader != null {
        reader.ec := Some(OperationAborted);
        reader := null;
      }
    }

    method GetOutbound() returns (bytes: Option<Bytes>)
      requires Valid()
      modifies outbound
      ensures Valid() && bytes == Outbound(old(Abs())) && Abs() == old(Abs()).(outbound := [])
    {
      var out := outbound.PopAll();
      bytes := if out == [] && ec != Success then None else Some(out);
    }
  }

  /** Two sockets that share nothing. */
  ghost predicate Apart(a: SockImpl, b: SockImpl)
    reads a, b
  {
    && a != b && {a.outbound, a.inbound} !! {b.outbound, b.inbound}
    && (a.reader != null && b.reader != null ==> a.reader != b.reader && a.reader.buf != b.reader.buf)
  }

  ghost function Cells(r: Awaiter?): set<object> {
    if r == null then {} else {r, r.buf}
  }

  /** `got` is what the reader `r`, if it was resumed, has been given. */
  ghost predicate GotBy(r: Awaiter?, got: Bytes)
    reads Cells(r)
  {
    got == [] || (r != null && r.ec == Some(Success) && got == r.buf[..])
  }

  /** One turn of the inner loop of exchangeMessages. */
  method Carry(from: SockImpl, to: SockImpl) returns (moved: bool, ghost got: Bytes)
    requires from.Valid() && to.Valid() && Apart(from, to)
    modifies from.outbound, to, to.inbound, Cells(to.reader)
    ensures from.Valid() && to.Valid() && Apart(from, to)
    ensures from.Abs() == old(from.Abs()).(outbound := []) && from.reader == old(from.reader)
    ensures to.Abs().outbound == old(to.Abs()).outbound
    ensures to.ec == if old(to.ec) == Success && !moved && from.ec != Success then RemoteClosed else old(to.ec)
    ensures to.reader == old(to.reader) || to.reader == null
    ensures moved <==> old(from.Abs()).outbound != []
    ensures old(to.Abs()).inbound + old(from.Abs()).outbound == got + to.Abs().inbound
    ensures GotBy(old(to.reader), got) && (got != [] ==> to.reader == null)
  {
    hide Flat, Buffer.Contents, Buffer.Valid;
    moved, got := false, [];
    var out := from.GetOutbound();
    match out {
      case None => to.SetError(RemoteClosed);
      case Some(bytes) =>
        if bytes != [] {
          ghost var r := to.reader;
          var resumed := to.ProcessInbound(bytes);
          if resumed {
            got := r.buf[..];
          }
          moved := true;
        }
    }
  }

  lemma Regroup(x: Bytes, y: Bytes, z: Bytes)
    ensures x + y + z == x + (y + z)
  {
  }

  /** One turn of the outer loop: each socket's messages are carried to the other. */
  method Round(a: SockImpl, b: SockImpl) returns (progress: bool, ghost gotA: Bytes, ghost gotB: Bytes)
    requires a.Valid() && b.Valid() && Apart(a, b)
    modifies a, a.outbound, a.inbound, Cells(a.reader), b, b.outbound, b.inbound, Cells(b.reader)
    ensures a.Valid() && b.Valid() && Apart(a, b)
    ensures a.Abs().outbound == [] && b.Abs().outbound == []
    ensures progress <==> old(a.Abs()).outbound != [] || old(b.Abs()).outbound != []
    ensures old(b.Abs()).inbound + old(a.Abs()).outbound == gotB + b.Abs().inbound && GotBy(old(b.reader), gotB)
    ensures old(a.Abs()).inbound + old(b.Abs()).outbound == gotA + a.Abs().inbound && GotBy(old(a.reader), gotA)
    ensures a.reader == null || (a.reader == old(a.reader) && gotA == [])
    ensures b.reader == null || (b.reader == old(b.reader) && gotB == [])
    ensures !progress ==> (a.ec == Success <==> b.ec == Success)
    ensures old(a.ec) == Success && old(b.ec) == Success ==> a.ec == Success && b.ec == Success
  {
    hide Flat, Buffer.Contents, Buffer.Valid, Outbound;
    var movedB, movedA;
    movedB, gotB := Carry(a, b);
    movedA, gotA := Carry(b, a);
    progress := movedA || movedB;
  }

  /** exchangeMessages, up to what the resumed coroutines do next: both outbound buffers
      are emptied, every byte has reached the other side's reader or inbound buffer, in
      order, and either both sockets have failed or neither has. */
  method ExchangeMessages(a: SockImpl, b: SockImpl) returns (ghost gotA: Bytes, ghost gotB: Bytes)
    requires a.Valid() && b.Valid() && Apart(a, b)
    modifies a, a.outbound, a.inbound, Cells(a.reader), b, b.outbound, b.inbound, Cells(b.reader)
    ensures a.Valid() && b.Valid() && Apart(a, b)
    ensures a.Abs().outbound == [] && b.Abs().outbound == []
    ensures old(b.Abs()).inbound + old(a.Abs()).outbound == gotB + b.Abs().inbound && GotBy(old(b.reader), gotB)
    ensures old(a.Abs()).inbound + old(b.Abs()).outbound == gotA + a.Abs().inbound && GotBy(old(a.reader), gotA)
    ensures a.ec == Success <==> b.ec == Success
    ensures old(a.ec) == Success && old(b.ec) == Success ==> a.ec == Success
  {
    hide Flat, Buffer.Contents, Buffer.Valid, Outbound, SockImpl.Valid, SockImpl.Abs;
    var progress;
    progress, gotA, gotB := Round(a, b);
    while progress
      invariant a.Valid() && b.Valid() && Apart(a, b)
      invariant a.Abs().outbound == [] && b.Abs().outbound == []
      invariant a.reader == null || (a.reader == old(a.reader) && gotA == [])
      invariant b.reader == null || (b.reader == old(b.reader) && gotB == [])
      invariant old(b.Abs()).inbound + old(a.Abs()).outbound == gotB + b.Abs().inbound && GotBy(old(b.reader), gotB)
      invariant old(a.Abs()).inbound + old(b.Abs()).outbound == gotA + a.Abs().inbound && GotBy(old(a.reader), gotA)
      invariant !progress ==> (a.ec == Success <==> b.ec == Success)
      invariant old(a.ec) == Success && old(b.ec) == Success ==> a.ec == Success && b.ec == Success
      decreases progress
    {
      ghost var moreA, moreB;
      ghost var inA, inB := a.Abs().inbound, b.Abs().inbound;
      progress, moreA, moreB := Round(a, b);
      assert inA == moreA + a.Abs().inbound && inB == moreB + b.Abs().inbound;
      Regroup(gotA, moreA, a.Abs().inbound);
      Regroup(gotB, moreB, b.Abs().inbound);
      gotA, gotB := gotA + moreA, gotB + moreB;
    }
  }
}
