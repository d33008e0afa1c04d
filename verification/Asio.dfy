/** Who resumes the coroutine: the completion flag of a connect attempt, with retries,
    and the completion counter of a TLS accept. The initiator and the handlers may run
    on different threads; each exchange or decrement of the atomic is one step. */
module Asio {
  import opened Bits

  const MAX_DELAY: nat := 1000

  // ---- connect --------------------------------------------------------------

  /** `initiator` and `handler`: the party has not yet made its exchange; `timer`: a
      retry is scheduled; `retries` and `resumed` count what has happened. */
  datatype Connect = Connect(
    flag: bool,
    refused: bool,
    retryOn: bool,
    cancelled: bool,
    delay: nat,
    initiator: bool,
    handler: bool,
    timer: bool,
    resumed: nat,
    retries: nat)

  /** await_suspend has just called async_connect for the first time. */
  function Begun(retryOn: bool): Connect {
    Connect(false, false, retryOn, false, 1, true, true, false, 0, 0)
  }

  predicate Retries(s: Connect) {
    s.refused && s.retryOn && !s.cancelled
  }

  /** exchange(1): whoever finds the flag set ends the attempt. */
  function Exchange(s: Connect): Connect {
    var t := s.(flag := true);
    if !s.flag then t
    else if Retries(s) then t.(timer := true)
    else t.(resumed := s.resumed + 1)
  }

  function Min(a: nat, b: nat): nat {
    if a <= b then a else b
  }

  datatype ConnectStep = Initiator | Handler(refused: bool) | Timer | Stop

  predicate CanConnect(s: Connect, st: ConnectStep) {
    match st
    case Initiator => s.initiator
    case Handler(_) => s.handler
    case Timer => s.timer
    case Stop => true
  }

  function DoConnect(s: Connect, st: ConnectStep): Connect
    requires CanConnect(s, st)
  {
    match st
    case Initiator => Exchange(s).(initiator := false)
    case Handler(refused) => Exchange(s.(refused := refused)).(handler := false)
    case Timer =>
      s.(flag := false, delay := Min(2 * s.delay, MAX_DELAY), timer := false,
         initiator := true, handler := true, retries := s.retries + 1)
    case Stop => s.(cancelled := true)
  }

  ghost predicate ConnectRuns(s: Connect, steps: seq<ConnectStep>, t: Connect)
    decreases |steps|
  {
    if steps == [] then s == t
    else CanConnect(s, steps[0]) && ConnectRuns(DoConnect(s, steps[0]), steps[1..], t)
  }

  predicate InProgress(s: Connect) {
    s.initiator || s.handler
  }

  ghost predicate ConnectInv(s: Connect) {
    && (s.flag <==> !(s.initiator && s.handler))
    && (if InProgress(s) then !s.timer && s.resumed == 0
        else if s.timer then s.resumed == 0 else s.resumed == 1)
    && s.delay == Min(Pow2(s.retries), MAX_DELAY)
  }

  lemma ConnectKeeps(s: Connect, st: ConnectStep)
    requires ConnectInv(s) && CanConnect(s, st)
    ensures ConnectInv(DoConnect(s, st))
  {
  }

  lemma {:induction false} ConnectRunKeeps(s: Connect, steps: seq<ConnectStep>, t: Connect)
    requires ConnectInv(s) && ConnectRuns(s, steps, t)
    ensures ConnectInv(t)
    decreases |steps|
  {
    if steps != [] {
      ConnectKeeps(s, steps[0]);
      ConnectRunKeeps(DoConnect(s, steps[0]), steps[1..], t);
    }
  }

  /** In every interleaving, over any number of retries: the handle is resumed at most
      once, and never while a party of an attempt has yet to arrive or a timer runs;
      no wake-up is lost; the delay after n retries is min(2^n, 1000) milliseconds. */
  lemma ResumedOnce(retryOn: bool, steps: seq<ConnectStep>, s: Connect)
    requires ConnectRuns(Begun(retryOn), steps, s)
    ensures s.resumed <= 1
    ensures s.resumed == 1 <==> !s.initiator && !s.handler && !s.timer
    ensures s.timer ==> !s.initiator && !s.handler
    ensures s.delay == Min(Pow2(s.retries), 1000)
  {
    assert Pow2(0) == 1;
    ConnectRunKeeps(Begun(retryOn), steps, s);
  }

  /** An attempt ends in exactly one resume or one retry, taken by the last party to
      arrive: a retry if the connection was refused, retrying is on and no stop was
      requested, otherwise a resume. */
  lemma LastArrivalActs(retryOn: bool, steps: seq<ConnectStep>, s: Connect, st: ConnectStep)
    requires ConnectRuns(Begun(retryOn), steps, s) && CanConnect(s, st) && (st.Initiator? || st.Handler?)
    ensures var t := DoConnect(s, st);
            var last := if st.Initiator? then !s.handler else !s.initiator;
            var refused := if st.Handler? then st.refused else s.refused;
            && (!last ==> t.resumed == s.resumed && !t.timer && (t.initiator || t.handler))
            && (last && refused && s.retryOn && !s.cancelled ==> t.timer && t.resumed == 0)
            && (last && !(refused && s.retryOn && !s.cancelled) ==> !t.timer && t.resumed == 1)
  {
    assert Pow2(0) == 1;
    ConnectRunKeeps(Begun(retryOn), steps, s);
  }

  /** Steps a cancelled connect may still take. */
  function CancelledLeft(s: Connect): nat {
    if s.timer then 3 else (if s.initiator then 1 else 0) + (if s.handler then 1 else 0)
  }

  lemma {:induction false} CancelledRun(s: Connect, steps: seq<ConnectStep>, t: Connect)
    requires ConnectInv(s) && s.cancelled && ConnectRuns(s, steps, t) && Stop !in steps
    ensures t.cancelled && |steps| + CancelledLeft(t) <= CancelledLeft(s)
    ensures t.retries <= s.retries + if s.timer then 1 else 0
    ensures t.timer ==> s.timer && steps == []
    decreases |steps|
  {
    if steps != [] {
      ConnectKeeps(s, steps[0]);
      assert forall x :: x in steps[1..] ==> x in steps;
      CancelledRun(DoConnect(s, steps[0]), steps[1..], t);
    }
  }

  /** After a stop request the connect takes at most three more steps, with at most the one
      retry whose timer was running, and then it has resumed. */
  lemma StopEnds(retryOn: bool, before: seq<ConnectStep>, s: Connect, steps: seq<ConnectStep>, t: Connect)
    requires ConnectRuns(Begun(retryOn), before, s)
    requires ConnectRuns(DoConnect(s, Stop), steps, t) && Stop !in steps
    ensures |steps| <= 3 && t.retries <= s.retries + 1 && (!s.timer ==> t.retries == s.retries)
    ensures (forall st :: st != Stop ==> !CanConnect(t, st)) ==> t.resumed == 1
  {
    assert Pow2(0) == 1;
    ConnectRunKeeps(Begun(retryOn), before, s);
    ConnectKeeps(s, Stop);
    CancelledRun(DoConnect(s, Stop), steps, t);
    ConnectRunKeeps(DoConnect(s, Stop), steps, t);
    RetriesGrow(DoConnect(s, Stop), steps, t);
    assert t.initiator ==> CanConnect(t, Initiator);
    assert t.handler ==> CanConnect(t, Handler(false));
    assert t.timer ==> CanConnect(t, Timer);
  }

  lemma {:induction false} RetriesGrow(s: Connect, steps: seq<ConnectStep>, t: Connect)
    requires ConnectRuns(s, steps, t)
    ensures s.retries <= t.retries && t.retryOn == s.retryOn && (s.cancelled ==> t.cancelled)
    decreases |steps|
  {
    if steps != [] {
      RetriesGrow(DoConnect(s, steps[0]), steps[1..], t);
    }
  }

  /** With retrying on, a refused connection is given up only after a stop request. */
  lemma NeverGivesUp(steps: seq<ConnectStep>, s: Connect)
    requires ConnectRuns(Begun(true), steps, s) && Stop !in steps
    ensures s.resumed == 1 ==> !s.refused
  {
    assert Pow2(0) == 1;
    GivesUp(Begun(true), steps, s);
  }

  lemma {:induction false} GivesUp(s: Connect, steps: seq<ConnectStep>, t: Connect)
    requires ConnectInv(s) && ConnectRuns(s, steps, t) && Stop !in steps
    requires s.retryOn && !s.cancelled && (s.resumed == 1 ==> !s.refused)
    ensures t.resumed == 1 ==> !t.refused
    decreases |steps|
  {
    if steps != [] {
      ConnectKeeps(s, steps[0]);
      assert forall x :: x in steps[1..] ==> x in steps;
      GivesUp(DoConnect(s, steps[0]), steps[1..], t);
    }
  }

  /** The connect awaiter: one method for each atomic region. */
  class AsioConnect {
    var synchronousFlag: bool
    var refused: bool
    const retryOnFailure: bool
    var cancellationRequested: bool
    var retryDelay: nat
    ghost var initiator: bool
    ghost var handler: bool
    ghost var timer: bool
    ghost var resumed: nat
    ghost var retries: nat

    ghost function Abs(): Connect
      reads this
    {
      Connect(synchronousFlag, refused, retryOnFailure, cancellationRequested, retryDelay,
              initiator, handler, timer, resumed, retries)
    }

    /** What holds between atomic regions. */
    ghost predicate Valid()
      reads this
    {
      ConnectInv(Abs())
    }

    /** The attempt goes on, ends in a retry or ends in the one resume. */
    ghost predicate Ends(goesOn: bool, retry: bool)
      reads this
    {
      && (timer <==> !goesOn && retry)
      && resumed == if goesOn || retry then 0 else 1
    }

    constructor (retryOnFailure: bool)
      ensures Abs() == Begun(retryOnFailure) && Valid()
    {
      this.retryOnFailure := retryOnFailure;
      synchronousFlag, refused, cancellationRequested, retryDelay := false, false, false, 1;
      initiator, handler, timer, resumed, retries := true, true, false, 0, 0;
      assert Pow2(0) == 1;
    }

    /** The exchange of either party and what it does if it is the second. */
    method Arrive()
      modifies this
      ensures Abs() == Exchange(old(Abs()))
    {
      var f := synchronousFlag;
      synchronousFlag := true;
      if f {
        if refused && retryOnFailure && !cancellationRequested {
          timer := true;
        } else {
          resumed := resumed + 1;
        }
      }
    }

    /** The initiator acts only if the handler has come before it. */
    method InitiatorArrives()
      requires Valid() && initiator
      modifies this
      ensures Valid() && Abs() == DoConnect(old(Abs()), Initiator)
      ensures !initiator && Ends(old(handler), old(refused) && retryOnFailure && !old(cancellationRequested))
    {
      Arrive();
      initiator := false;
    }

    /** The handler acts only if the initiator has come before it. */
    method ConnectHandler(refused: bool)
      requires Valid() && handler
      modifies this
      ensures Valid() && Abs() == DoConnect(old(Abs()), Handler(refused))
      ensures !handler && Ends(old(initiator), refused && retryOnFailure && !old(cancellationRequested))
    {
      this.refused := refused;
      Arrive();
      handler := false;
    }

    /** The stop callback. */
    method CancelCallback()
      requires Valid()
      modifies this`cancellationRequested
      ensures Valid() && Abs() == DoConnect(old(Abs()), Stop) && cancellationRequested
    {
      cancellationRequested := true;
    }

    /** A new attempt: both parties are to come, and the next delay is twice the last one,
        up to a second. */
    method TimerHandler()
      requires Valid() && timer
      modifies this
      ensures Valid() && Abs() == DoConnect(old(Abs()), Timer)
      ensures initiator && handler && !timer && resumed == 0
      ensures retryDelay == Min(Pow2(old(retries) + 1), MAX_DELAY)
    {
      synchronousFlag := false;
      retryDelay := if 2 * retryDelay <= MAX_DELAY then 2 * retryDelay else MAX_DELAY;
      timer := false;
      initiator, handler, retries := true, true, retries + 1;
    }
  }

  // ---- TLS accept -------------------------------------------------------------

  datatype Stage = Waiting | Leaving | Left

  /** The counter, and what each party has still to do: the initiator to decrement, the
      accept handler to run or to decrement, the handshake handler to run. */
  datatype Accept = Accept(flag: int, initiator: bool, accept: Stage, handshake: bool, resumed: nat)

  function AcceptBegun(): Accept {
    Accept(2, true, Waiting, false, 0)
  }

  /** `flag--`, and a resume by whoever finds zero. */
  function Decrement(s: Accept): Accept {
    s.(flag := s.flag - 1, resumed := if s.flag == 0 then s.resumed + 1 else s.resumed)
  }

  datatype AcceptStep = InitiatorLeaves | AcceptFails | AcceptSucceeds | AcceptLeaves | HandshakeEnds

  predicate CanAccept(s: Accept, st: AcceptStep) {
    match st
    case InitiatorLeaves => s.initiator
    case AcceptFails => s.accept == Waiting
    case AcceptSucceeds => s.accept == Waiting
    case AcceptLeaves => s.accept == Leaving
    case HandshakeEnds => s.handshake
  }

  function DoAccept(s: Accept, st: AcceptStep): Accept
    requires CanAccept(s, st)
  {
    match st
    case InitiatorLeaves => Decrement(s).(initiator := false)
    case AcceptFails =>
      s.(flag := s.flag - 2, accept := Left, resumed := if s.flag - 2 < 0 then s.resumed + 1 else s.resumed)
    case AcceptSucceeds => s.(accept := Leaving, handshake := true)
    case AcceptLeaves => Decrement(s).(accept := Left)
    case HandshakeEnds => Decrement(s).(handshake := false)
  }

  ghost predicate AcceptRuns(s: Accept, steps: seq<AcceptStep>, t: Accept)
    decreases |steps|
  {
    if steps == [] then s == t
    else CanAccept(s, steps[0]) && AcceptRuns(DoAccept(s, steps[0]), steps[1..], t)
  }

  /** Decrements still to come. */
  function Outstanding(s: Accept): nat {
    (if s.initiator then 1 else 0)
    + (match s.accept case Waiting => 2 case Leaving => 1 case Left => 0)
    + (if s.handshake then 1 else 0)
  }

  ghost predicate AcceptInv(s: Accept) {
    && s.flag == Outstanding(s) - 1
    && s.resumed == (if Outstanding(s) == 0 then 1 else 0)
    && (s.handshake ==> s.accept != Waiting)
  }

  lemma {:induction false} AcceptRunKeeps(s: Accept, steps: seq<AcceptStep>, t: Accept)
    requires AcceptInv(s) && AcceptRuns(s, steps, t)
    ensures AcceptInv(t)
    decreases |steps|
  {
    if steps != [] {
      AcceptRunKeeps(DoAccept(s, steps[0]), steps[1..], t);
    }
  }

  /** A TLS accept, failed or not, resumes its handle exactly once, and only when the
      initiator, the accept handler and the handshake handler have all left. */
  lemma AcceptResumedOnce(steps: seq<AcceptStep>, s: Accept)
    requires AcceptRuns(AcceptBegun(), steps, s)
    ensures s.resumed == 1 <==> !s.initiator && s.accept == Left && !s.handshake
    ensures s.resumed <= 1
  {
    AcceptRunKeeps(AcceptBegun(), steps, s);
  }

  /** An accept takes at most four steps, and until it has resumed some party can move. */
  lemma {:induction false} AcceptEnds(steps: seq<AcceptStep>, s: Accept)
    requires AcceptRuns(AcceptBegun(), steps, s)
    ensures s.resumed == 1 <==> forall st: AcceptStep :: !CanAccept(s, st)
    ensures |steps| <= 4
  {
    AcceptRunKeeps(AcceptBegun(), steps, s);
    AcceptLength(AcceptBegun(), steps, s);
    assert s.initiator ==> CanAccept(s, InitiatorLeaves);
    assert s.accept == Waiting ==> CanAccept(s, AcceptFails);
    assert s.accept == Leaving ==> CanAccept(s, AcceptLeaves);
    assert s.handshake ==> CanAccept(s, HandshakeEnds);
  }

  function StepsLeft(s: Accept): nat {
    Outstanding(s) + if s.accept == Waiting then 1 else 0
  }

  lemma {:induction false} AcceptLength(s: Accept, steps: seq<AcceptStep>, t: Accept)
    requires AcceptRuns(s, steps, t)
    ensures |steps| <= StepsLeft(s)
    decreases |steps|
  {
    if steps != [] {
      AcceptLength(DoAccept(s, steps[0]), steps[1..], t);
    }
  }

  /** The accept awaiter: one method for each atomic region. */
  class AcceptAwaiter {
    var synchronousFlag: int
    ghost var initiator: bool
    ghost var accept: Stage
    ghost var handshake: bool
    ghost var resumed: nat

    ghost function Abs(): Accept
      reads this
    {
      Accept(synchronousFlag, initiator, accept, handshake, resumed)
    }

    ghost predicate Valid()
      reads this
    {
      AcceptInv(Abs())
    }

    /** The handle has been resumed, once, exactly if every party has left. */
    ghost predicate ResumedIffAllLeft()
      reads this
    {
      resumed == if !initiator && accept == Left && !handshake then 1 else 0
    }

    constructor ()
      ensures Abs() == AcceptBegun() && Valid()
    {
      synchronousFlag := 2;
      initiator, accept, handshake, resumed := true, Waiting, false, 0;
    }

    method PostDecrement()
      modifies this
      ensures Abs() == Decrement(old(Abs()))
    {
      var f := synchronousFlag;
      synchronousFlag := synchronousFlag - 1;
      if f == 0 {
        resumed := resumed + 1;
      }
    }

    method InitiatorLeave()
      requires Valid() && initiator
      modifies this
      ensures Valid() && Abs() == DoAccept(old(Abs()), InitiatorLeaves)
      ensures !initiator && accept == old(accept) && handshake == old(handshake) && ResumedIffAllLeft()
    {
      PostDecrement();
      initiator := false;
    }

    /** The first half of the accept handler: it starts the handshake, or gives both
        remaining counts back at once. */
    method AcceptHandler(failed: bool)
      requires Valid() && accept == Waiting
      modifies this
      ensures Valid() && Abs() == DoAccept(old(Abs()), if failed then AcceptFails else AcceptSucceeds)
      ensures initiator == old(initiator) && ResumedIffAllLeft()
      ensures if failed then accept == Left && !handshake else accept == Leaving && handshake && resumed == 0
    {
      if failed {
        synchronousFlag := synchronousFlag - 2;
        accept := Left;
        if synchronousFlag < 0 {
          resumed := resumed + 1;
        }
      } else {
        accept, handshake := Leaving, true;
      }
    }

    method AcceptHandlerLeave()
      requires Valid() && accept == Leaving
      modifies this
      ensures Valid() && Abs() == DoAccept(old(Abs()), AcceptLeaves)
      ensures accept == Left && initiator == old(initiator) && handshake == old(handshake) && ResumedIffAllLeft()
    {
      PostDecrement();
      accept := Left;
    }

    method HandshakeHandler()
      requires Valid() && handshake
      modifies this
      ensures Valid() && Abs() == DoAccept(old(Abs()), HandshakeEnds)
      ensures !handshake && initiator == old(initiator) && accept == old(accept) && ResumedIffAllLeft()
    {
      PostDecrement();
      handshake := false;
    }
  }
}
