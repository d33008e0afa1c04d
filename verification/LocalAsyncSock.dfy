/** LocalAsyncSocket as the code keeps it: awaiters whose spans shrink in place, two
    slots for each direction, and the code of each end, all under one lock. Every
    method is a lock region and does what its step of LocalPipe says. */
module LocalAsyncSock {
  import opened Common
  import opened LocalPipe
  import opened Transfers

  /** Awaiter: `mData` is what is left of the buffer from `lo` on. The caller may use the
      buffer again once the operation has completed; `io` keeps what it moved. */
  class Awaiter {
    ghost const id: nat
    const end: End
    const kind: Kind
    const buf: array<Byte>
    var lo: nat
    var ec: Option<Code>
    ghost var io: Io

    constructor (ghost id: nat, end: End, kind: Kind, buf: array<Byte>)
      ensures this.id == id && this.end == end && this.kind == kind && this.buf == buf
      ensures lo == 0 && ec == None && io == Io(end, kind, [], buf[..], None) && Valid()
    {
      this.id, this.end, this.kind, this.buf, lo, ec := id, end, kind, buf, 0, None;
      io := Io(end, kind, [], buf[..], None);
    }

    ghost predicate Valid()
      reads this, buf
    {
      && io.end == end && io.kind == kind && io.ec == ec
      && lo == |io.moved| <= buf.Length == |io.moved| + |io.rest|
      && (ec == None ==> Holds())
    }

    /** The buffer holds the bytes moved and then the span left. */
    ghost predicate Holds()
      reads this, buf
    {
      buf[..] == io.moved + io.rest
    }

    /** await_resume: the outcome and the number of bytes transferred. */
    function Resume(): (r: (Code, nat))
      requires Valid() && ec.Some?
      reads this, buf
      ensures r == (io.ec.value, |io.moved|)
      ensures io.rest == [] ==> r.1 == buf.Length
    {
      (ec.value, buf.Length - (buf.Length - lo))
    }
  }

  datatype Slots = Slots(send: Awaiter?, recv: Awaiter?)

  ghost function IdOf(a: Awaiter?): Option<nat> {
    if a == null then None else Some(a.id)
  }

  ghost function Nodes(ws: seq<Awaiter>): (s: set<object>)
    ensures forall a :: a in ws ==> a in s && a.buf in s
  {
    (set a: Awaiter | a in ws :: a as object) + (set a: Awaiter | a in ws :: a.buf as object)
  }

  lemma NodesSnoc(ws: seq<Awaiter>, a: Awaiter)
    ensures Nodes(ws + [a]) == Nodes(ws) + {a, a.buf}
  {
  }

  ghost function Ios(ws: seq<Awaiter>): (r: seq<Io>)
    reads ws
    ensures |r| == |ws|
  {
    seq(|ws|, i requires 0 <= i < |ws| reads ws => ws[i].io)
  }

  /** memcpy */
  method Copy(dst: array<Byte>, to: nat, src: array<Byte>, from: nat, n: nat)
    requires dst != src && to + n <= dst.Length && from + n <= src.Length
    modifies dst
    ensures dst[..] == old(dst[..to]) + src[from..from + n] + old(dst[to + n..])
  {
    for i := 0 to n
      invariant dst[..] == old(dst[..to]) + src[from..from + i] + old(dst[to + i..])
    {
      dst[to + i] := src[from + i];
    }
  }

  /** Operations are numbered in call order, and no two pending ones share a buffer. */
  ghost predicate Numbered(ws: seq<Awaiter>)
    reads Nodes(ws)
  {
    && (forall i :: 0 <= i < |ws| ==> ws[i].id == i && ws[i].Valid())
    && (forall i, j :: 0 <= i < j < |ws| && ws[i].ec == None && ws[j].ec == None ==> ws[i].buf != ws[j].buf)
  }

  /** A pending operation of one direction. */
  ghost predicate Waits(a: Awaiter, kind: Kind, d: End, ws: seq<Awaiter>)
    reads ws
  {
    a in ws && a.kind == kind && Dest(a.end, a.kind) == d && a.ec == None
  }

  ghost predicate InSlots(inbound: seq<Slots>, ws: seq<Awaiter>)
    requires |inbound| == 2
    reads ws
  {
    && (forall d: End :: inbound[d].send != null ==> Waits(inbound[d].send, Sending, d, ws))
    && (forall d: End :: inbound[d].recv != null ==> Waits(inbound[d].recv, Receiving, d, ws))
  }

  ghost function Pairs(inbound: seq<Slots>): (r: seq<OpPair>)
    ensures |r| == |inbound|
  {
    seq(|inbound|, d requires 0 <= d < |inbound| => OpPair(IdOf(inbound[d].send), IdOf(inbound[d].recv)))
  }

  lemma PairsAt(inbound: seq<Slots>, d: nat)
    requires d < |inbound|
    ensures Pairs(inbound)[d] == OpPair(IdOf(inbound[d].send), IdOf(inbound[d].recv))
  {
  }

  lemma PairsSet(inbound: seq<Slots>, d: nat, s: Slots)
    requires d < |inbound|
    ensures Pairs(inbound[d := s]) == Pairs(inbound)[d := OpPair(IdOf(s.send), IdOf(s.recv))]
  {
  }

  lemma TakenFrom(buf: Bytes, io: Io, bytes: Bytes)
    requires buf == io.moved + io.rest && bytes <= io.rest
    ensures buf == Advance(io, bytes).moved + Advance(io, bytes).rest
  {
  }

  lemma WrittenTo(buf: Bytes, io: Io, bytes: Bytes)
    requires buf == io.moved + io.rest && |bytes| <= |io.rest|
    ensures |buf| == |io.moved| + |io.rest|
    ensures buf[..|io.moved|] + bytes + buf[|io.moved| + |bytes|..]
            == Advance(io, bytes).moved + Advance(io, bytes).rest
  {
  }

  lemma PassedSpan(buf: Bytes, send: Io, recv: Io)
    requires buf == send.moved + send.rest
    ensures Passed(send, recv) == buf[|send.moved|..|send.moved| + |Passed(send, recv)|]
    ensures Passed(send, recv) <= send.rest
    ensures |Passed(send, recv)| == if |send.rest| <= |recv.rest| then |send.rest| else |recv.rest|
  {
  }

  /** The shorter span of a send and a recv is used up, and its bytes are copied. */
  method Transfer(send: Awaiter, recv: Awaiter) returns (sentAll: bool, gotAll: bool)
    requires send != recv && send.buf != recv.buf && send.Valid() && recv.Valid()
    requires send.ec == None && recv.ec == None
    modifies send, recv, recv.buf
    ensures send.Valid() && recv.Valid() && send.Holds() && recv.Holds()
    ensures var bytes := Passed(old(send.io), old(recv.io));
            send.io == Advance(old(send.io), bytes) && recv.io == Advance(old(recv.io), bytes)
    ensures (sentAll <==> send.io.rest == []) && (gotAll <==> recv.io.rest == [])
  {
    hide Passed;
    ghost var bytes := Passed(send.io, recv.io);
    PassedSpan(send.buf[..], send.io, recv.io);
    TakenFrom(send.buf[..], send.io, bytes);
    WrittenTo(recv.buf[..], recv.io, bytes);
    var left, room := send.buf.Length - send.lo, recv.buf.Length - recv.lo;
    var n := if left <= room then left else room;
    var from, to := send.lo, recv.lo;
    recv.io := Advance(recv.io, bytes);
    recv.lo := recv.lo + n;
    gotAll := recv.lo == recv.buf.Length;
    if gotAll {
      recv.ec := Some(Success);
    }
    send.io := Advance(send.io, bytes);
    send.lo := send.lo + n;
    sentAll := send.lo == send.buf.Length;
    if sentAll {
      send.ec := Some(Success);
    }
    Copy(recv.buf, to, send.buf, from, n);
  }

  class SharedState {
    var ec: seq<Code>
    var inbound: seq<Slots>
    ghost var awaiters: seq<Awaiter>  // every operation started
    ghost var resumed: seq<nat>       // the coroutines resumed

    ghost predicate Valid()
      reads this, Nodes(awaiters)
    {
      |ec| == 2 && |inbound| == 2 && Numbered(awaiters) && InSlots(inbound, awaiters)
    }

    ghost function Abs(): Pipe
      reads this, awaiters
    {
      Pipe(Ios(awaiters), ec, Pairs(inbound), resumed)
    }

    constructor ()
      ensures Valid() && Abs() == Empty() && awaiters == []
    {
      ec := [Success, Success];
      inbound := [Slots(null, null), Slots(null, null)];
      awaiters, resumed := [], [];
    }

    /** The awaiters of the two slots of a direction. */
    lemma SlotsApart(d: End)
      requires Valid() && inbound[d].send != null && inbound[d].recv != null
      ensures inbound[d].send in awaiters && inbound[d].recv in awaiters
      ensures inbound[d].send != inbound[d].recv && inbound[d].send.ec == None && inbound[d].recv.ec == None
      ensures inbound[d].send.id < |awaiters| && awaiters[inbound[d].send.id] == inbound[d].send
      ensures inbound[d].recv.id < |awaiters| && awaiters[inbound[d].recv.id] == inbound[d].recv
      ensures forall c: End :: c != d ==>
                inbound[c].send !in {inbound[d].send, inbound[d].recv} && inbound[c].recv !in {inbound[d].send, inbound[d].recv}
    {
      assert Waits(inbound[d].send, Sending, d, awaiters) && Waits(inbound[d].recv, Receiving, d, awaiters);
    }

    method TransferPair(send: Awaiter, recv: Awaiter) returns (sentAll: bool, gotAll: bool)
      requires Numbered(awaiters) && send in awaiters && recv in awaiters && send != recv
      requires send.ec == None && recv.ec == None
      modifies send, recv, recv.buf
      ensures Numbered(awaiters) && send.id < |awaiters| && recv.id < |awaiters|
      ensures send.Holds() && recv.Holds() && (send.ec == None <==> !sentAll) && (recv.ec == None <==> !gotAll)
      ensures var ios := old(Ios(awaiters)); var bytes := Passed(ios[send.id], ios[recv.id]);
              && Ios(awaiters) == ios[send.id := Advance(ios[send.id], bytes)]
                                     [recv.id := Advance(ios[recv.id], bytes)]
              && (sentAll <==> Advance(ios[send.id], bytes).rest == [])
              && (gotAll <==> Advance(ios[recv.id], bytes).rest == [])
    {
      ghost var ios := Ios(awaiters);
      assert awaiters[send.id] == send && awaiters[recv.id] == recv;
      sentAll, gotAll := Transfer(send, recv);
      hide Advance, Passed;
      assert Ios(awaiters) == ios[send.id := send.io][recv.id := recv.io];
    }

    /** What Match does when a send and a recv meet. */
    lemma MatchMet(p: Pipe, d: End, s: nat, r: nat, own: nat, sentAll: bool, gotAll: bool)
      requires TwoEnds(p) && p.inbound[d] == OpPair(Some(s), Some(r)) && s < |p.ops| && r < |p.ops| && s != r
      requires own == s || own == r
      requires sentAll <==> Advance(p.ops[s], Passed(p.ops[s], p.ops[r])).rest == []
      requires gotAll <==> Advance(p.ops[r], Passed(p.ops[s], p.ops[r])).rest == []
      ensures var bytes := Passed(p.ops[s], p.ops[r]);
              Match(p, d, own)
              == p.(ops := p.ops[s := Advance(p.ops[s], bytes)][r := Advance(p.ops[r], bytes)],
                    inbound := p.inbound[d := OpPair(if sentAll then None else Some(s), if gotAll then None else Some(r))],
                    resumed := p.resumed + if sentAll && gotAll then [if own == s then r else s, own]
                                           else if gotAll then [r] else [s])
    {
      hide Advance;
    }

    /** Slots of the awaiters that are done are emptied. */
    method Vacate(d: End, sentAll: bool, gotAll: bool)
      requires |inbound| == 2 && inbound[d].send != null && inbound[d].recv != null
      requires InSlots(inbound[d := Slots(null, null)], awaiters)
      requires !sentAll ==> Waits(inbound[d].send, Sending, d, awaiters)
      requires !gotAll ==> Waits(inbound[d].recv, Receiving, d, awaiters)
      modifies this`inbound
      ensures |inbound| == 2 && InSlots(inbound, awaiters)
      ensures var send, recv := old(inbound[d].send), old(inbound[d].recv);
              Pairs(inbound) == old(Pairs(inbound))[d := OpPair(if sentAll then None else Some(send.id),
                                                                if gotAll then None else Some(recv.id))]
    {
      var s := Slots(if sentAll then null else inbound[d].send, if gotAll then null else inbound[d].recv);
      PairsSet(inbound, d, s);
      hide Pairs;
      var clear := inbound[d := Slots(null, null)];
      assert forall c: End :: c != d ==> inbound[c] == clear[c];
      if gotAll {
        inbound := inbound[d := inbound[d].(recv := null)];
      }
      if sentAll {
        inbound := inbound[d := inbound[d].(send := null)];
      }
      assert inbound == old(inbound)[d := s];
    }

    /** The match on one direction. Both buffers then hold what has been transferred and
        what is left. */
    method MatchPair(d: End, own: Awaiter)
      requires Valid() && inbound[d].send != null && inbound[d].recv != null
      requires own == inbound[d].send || own == inbound[d].recv
      modifies this`inbound, this`resumed, inbound[d].send, inbound[d].recv, inbound[d].recv.buf
      ensures Valid() && TwoEnds(old(Abs())) && awaiters == old(awaiters) && ec == old(ec)
      ensures Abs() == Match(old(Abs()), d, own.id)
      ensures old(inbound[d].send).Holds() && old(inbound[d].recv).Holds()
    {
      hide Advance, Passed, Match, Ios, Pairs, Numbered, Awaiter.Holds, Awaiter.Valid;
      SlotsApart(d);
      assert this !in Nodes(awaiters);
      ghost var p := Abs();
      var send, recv := inbound[d].send, inbound[d].recv;
      PairsAt(inbound, d);
      var sentAll, gotAll := TransferPair(send, recv);
      MatchMet(p, d, send.id, recv.id, own.id, sentAll, gotAll);
      Vacate(d, sentAll, gotAll);
      hide InSlots, Waits;
      resumed := resumed + if sentAll && gotAll then [if own == send then recv.id else send.id, own.id]
                           else if gotAll then [recv.id] else [send.id];
    }

    /** The match of an awaiter in its slot, if there is another in the other slot. */
    method Meet(d: End, own: Awaiter)
      requires Valid() && own.Holds() && (inbound[d].send == own || inbound[d].recv == own)
      modifies this, Nodes(awaiters)
      ensures Valid() && awaiters == old(awaiters) && own.Holds()
      ensures TwoEnds(old(Abs()))
      ensures old(Abs()).inbound[d].send.Some? ==> old(Abs()).inbound[d].send.value < |old(Abs()).ops|
      ensures old(Abs()).inbound[d].recv.Some? ==> old(Abs()).inbound[d].recv.value < |old(Abs()).ops|
      ensures Abs() == Match(old(Abs()), d, own.id)
    {
      hide Pairs, Match, Awaiter.Holds, Awaiter.Valid;
      PairsAt(inbound, d);
      if inbound[d].send != null && inbound[d].recv != null {
        hide Ios, Numbered;
        MatchPair(d, own);
      } else {
        MatchNone(Abs(), d, own.id);
      }
    }

    /** A new awaiter; its buffer is that of no pending one. */
    ghost predicate Fresh(a: Awaiter)
      reads this, a, a.buf, awaiters
    {
      && a.id == |awaiters| && a !in awaiters && a.lo == 0 && a.ec == None && a.Valid()
      && forall i :: 0 <= i < |awaiters| && awaiters[i].ec == None ==> awaiters[i].buf != a.buf
    }

    ghost predicate Slotted(a: Awaiter)
      reads this`inbound
    {
      exists d :: 0 <= d < |inbound| && (inbound[d].send == a || inbound[d].recv == a)
    }

    lemma NewUnslotted(a: Awaiter)
      requires Valid() && a !in awaiters
      ensures !Slotted(a)
    {
      forall d: End
        ensures inbound[d].send != a && inbound[d].recv != a
      {
      }
    }

    lemma EnterNumbered(a: Awaiter)
      requires Numbered(awaiters) && Fresh(a)
      ensures Numbered(awaiters + [a])
    {
      hide Awaiter.Valid, Awaiter.Holds;
    }

    lemma EnterSlots(a: Awaiter)
      requires |inbound| == 2 && InSlots(inbound, awaiters)
      ensures InSlots(inbound, awaiters + [a])
    {
    }

    lemma EnterIos(a: Awaiter)
      requires Fresh(a)
      ensures Ios(awaiters + [a]) == Ios(awaiters) + [a.io] && a.Holds()
      ensures a.io == Io(a.end, a.kind, [], a.buf[..], None)
    {
      assert a.io.moved == [];
    }

    ghost method Enter(a: Awaiter)
      requires Valid() && Fresh(a)
      modifies this`awaiters
      ensures Valid() && awaiters == old(awaiters) + [a] && !Slotted(a) && a.Holds()
      ensures Nodes(awaiters) == old(Nodes(awaiters)) + {a, a.buf} && this !in Nodes(awaiters)
      ensures old(Abs()).ec == ec && |old(Abs()).ops| == a.id && a.ec == None
      ensures a.io == Io(a.end, a.kind, [], a.buf[..], None)
      ensures Abs() == old(Abs()).(ops := old(Abs()).ops + [a.io])
    {
      hide Pairs, Ios, Numbered, InSlots, Slotted, Awaiter.Holds, Awaiter.Valid;
      NewUnslotted(a);
      NodesSnoc(awaiters, a);
      EnterNumbered(a);
      EnterSlots(a);
      EnterIos(a);
      assert this !in Nodes(awaiters + [a]);
      awaiters := awaiters + [a];
    }

    /** An operation completes with an error code: its `mEc` is set and it is resumed. */
    method Complete(a: Awaiter, e: Code)
      requires Valid() && a in awaiters && !Slotted(a)
      modifies a`ec, a`io, this`resumed
      ensures Valid() && a.id < |awaiters| && awaiters[a.id] == a && (old(a.Holds()) ==> a.Holds())
      ensures var p := old(Abs());
              && a.id < |p.ops|
              && Abs() == p.(ops := p.ops[a.id := p.ops[a.id].(ec := Some(e))], resumed := p.resumed + [a.id])
    {
      hide Pairs;
      assert forall d: End :: inbound[d].send != a && inbound[d].recv != a;
      hide Slotted;
      ghost var ios := Ios(awaiters);
      a.ec := Some(e);
      a.io := a.io.(ec := Some(e));
      resumed := resumed + [a.id];
      assert Ios(awaiters) == ios[a.id := ios[a.id].(ec := Some(e))];
    }

    method SetSlot(d: End, kind: Kind, a: Awaiter?)
      requires Valid() && (a != null ==> Waits(a, kind, d, awaiters))
      modifies this`inbound
      ensures Valid()
      ensures inbound == old(inbound)[d := if kind == Sending then old(inbound[d]).(send := a)
                                           else old(inbound[d]).(recv := a)]
      ensures TwoEnds(old(Abs()))
      ensures Abs() == old(Abs()).(inbound := old(Abs()).inbound[d := SetPending(old(Abs()).inbound[d], kind, IdOf(a))])
    {
      hide Ios, Numbered;
      assert this !in Nodes(awaiters);
      if kind == Sending {
        inbound := inbound[d := inbound[d].(send := a)];
      } else {
        inbound := inbound[d := inbound[d].(recv := a)];
      }
    }

    method SetCode(end: End, e: Code)
      requires Valid()
      modifies this`ec
      ensures Valid() && TwoEnds(old(Abs())) && ec == old(ec)[end := e]
      ensures Abs() == old(Abs()).(ec := old(Abs()).ec[end := e])
    {
      hide Ios, Pairs, Numbered;
      assert this !in Nodes(awaiters);
      ec := ec[end := e];
    }

    /** The new awaiter takes its slot. */
    method Place(a: Awaiter)
      requires Valid() && a in awaiters && a.ec == None && a.Holds()
      modifies this, Nodes(awaiters)
      ensures Valid() && awaiters == old(awaiters) && a.Holds()
      ensures TwoEnds(old(Abs()))
      ensures var p, d := old(Abs()), Dest(a.end, a.kind);
              var q := p.(inbound := p.inbound[d := SetPending(p.inbound[d], a.kind, Some(a.id))]);
              && (q.inbound[d].send.Some? ==> q.inbound[d].send.value < |q.ops|)
              && (q.inbound[d].recv.Some? ==> q.inbound[d].recv.value < |q.ops|)
              && Abs() == Match(q, d, a.id)
    {
      hide Abs, Match, Ios, Numbered;
      SetSlot(Dest(a.end, a.kind), a.kind, a);
      Meet(Dest(a.end, a.kind), a);
    }

    /** await_suspend. `stopped`: the callback ran while it was being registered. */
    method AwaitSuspend(a: Awaiter, stopped: bool, inject: Code)
      requires Valid() && Fresh(a) && CanStart(Abs(), a.end, a.kind, a.buf[..])
      modifies this, Nodes(awaiters), a, a.buf
      ensures Valid() && awaiters == old(awaiters) + [a] && a.Holds()
      ensures Abs() == DoStart(old(Abs()), a.end, a.kind, old(a.buf[..]), stopped, inject)
    {
      hide Fresh, Valid, Abs, Match, Nodes, Awaiter.Holds, Awaiter.Valid;
      ghost var p := Abs();
      Enter(a);
      if stopped {
        Complete(a, OperationAborted);
        return;
      }
      if ec[a.end] == Success {
        SetCode(a.end, inject);
      }
      if ec[a.end] != Success {
        Complete(a, ec[a.end]);
        return;
      }
      assert Abs().ec == p.ec;
      Place(a);
    }

    /** The stop callback. */
    method StopCallback(a: Awaiter)
      requires Valid() && a in awaiters
      modifies this, a
      ensures Valid() && TwoEnds(old(Abs())) && a.id < |old(Abs()).ops|
      ensures Abs() == DoCancel(old(Abs()), a.id)
    {
      if a.ec == None {
        SetSlot(Dest(a.end, a.kind), a.kind, null);
        Complete(a, OperationAborted);
      }
    }

    method CloseSlot(d: End, kind: Kind, e: Code)
      requires Valid()
      modifies this, awaiters
      ensures Valid() && awaiters == old(awaiters)
      ensures TwoEnds(old(Abs())) && Abs() == CloseOne(old(Abs()), d, kind, e)
    {
      var op := if kind == Sending then inbound[d].send else inbound[d].recv;
      if op != null {
        SetSlot(d, kind, null);
        Complete(op, e);
      }
    }

    /** Each end has an error code from now on. */
    method CloseEnds(end: End)
      requires Valid()
      modifies this`ec
      ensures Valid() && TwoEnds(old(Abs())) && Abs() == CloseCodes(old(Abs()), end)
    {
      hide Ios, Pairs, Numbered;
      assert this !in Nodes(awaiters);
      if ec[end] == Success {
        ec := ec[end := Closed];
      }
      if ec[1 - end] == Success {
        ec := ec[1 - end := RemoteClosed];
      }
    }

    method Close(end: End)
      requires Valid()
      modifies this, awaiters
      ensures Valid() && awaiters == old(awaiters)
      ensures TwoEnds(old(Abs())) && Abs() == DoClose(old(Abs()), end)
    {
      hide Valid, Abs, CloseOne, CloseCodes;
      CloseEnds(end);
      CloseSlot(end, Receiving, Closed);
      CloseSlot(end, Sending, RemoteClosed);
      CloseSlot(1 - end, Receiving, RemoteClosed);
      CloseSlot(1 - end, Sending, Closed);
    }
  }
}
