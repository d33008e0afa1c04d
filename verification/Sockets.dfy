/** The sockets of two users over two connected schedulers: which socket at one end talks
    to which at the other, when each is named by the forks that led to it. */
module Sockets {
  import opened Common
  import opened Framing
  import opened Scheduler
  import opened Invariants
  import opened Lists
  import opened Endpoint
  import opened Link
  import opened Newest
  import SessionIds

  type Path = SessionIds.Path

  // ---- the bytes of a session id --------------------------------------------

  /** Eight bytes, the low ones first. */
  function EncU64(n: nat): (b: Bytes)
    ensures |b| == 8
  {
    EncU32(n % U32) + EncU32(n / U32)
  }

  function WordBytes(v: bv64): (b: Bytes)
    ensures |b| == 8
  {
    EncU64(WordNat(v))
  }

  function WordNat(v: bv64): nat {
    v as nat
  }

  function NatWord(n: nat): bv64 {
    if n < U32 * U32 then n as bv64 else 0
  }

  /** The sixteen bytes of an id in a meta message. */
  function SidOf(id: SessionIds.Id): Sid {
    WordBytes(id.v0) + WordBytes(id.v1)
  }

  /** The bytes of an id: its first word first, and of each word the low ones. */
  lemma SidExample()
    ensures SidOf(SessionIds.Id(1, 515)) == [1, 0, 0, 0, 0, 0, 0, 0, 3, 2, 0, 0, 0, 0, 0, 0]
  {
    assert WordNat(1) == 1 && WordNat(515) == 515;
    assert EncU64(1) == EncU32(1) + EncU32(0);
    assert EncU64(515) == EncU32(515) + EncU32(0);
  }

  lemma EncU64Injective(n: nat, m: nat)
    requires n < U32 * U32 && m < U32 * U32 && EncU64(n) == EncU64(m)
    ensures n == m
  {
    assert EncU64(n)[..4] == EncU32(n % U32) && EncU64(n)[4..] == EncU32(n / U32);
    assert EncU64(m)[..4] == EncU32(m % U32) && EncU64(m)[4..] == EncU32(m / U32);
    hide EncU32, DecU32, EncU64;
    DecEncU32(n % U32);
    DecEncU32(m % U32);
    DecEncU32(n / U32);
    DecEncU32(m / U32);
    assert n == U32 * (n / U32) + n % U32 && m == U32 * (m / U32) + m % U32;
  }

  lemma WordBytesInjective(v: bv64, w: bv64)
    requires WordBytes(v) == WordBytes(w)
    ensures v == w
  {
    hide EncU64, WordNat, NatWord;
    WordBack(v);
    WordBack(w);
    EncU64Injective(WordNat(v), WordNat(w));
  }

  lemma WordBack(v: bv64)
    ensures WordNat(v) < U32 * U32 && NatWord(WordNat(v)) == v
  {
  }

  lemma SidOfInjective(id: SessionIds.Id, other: SessionIds.Id)
    requires SidOf(id) == SidOf(other)
    ensures id == other
  {
    hide WordBytes;
    assert SidOf(id)[..8] == WordBytes(id.v0) && SidOf(id)[8..] == WordBytes(id.v1);
    assert SidOf(other)[..8] == WordBytes(other.v0) && SidOf(other)[8..] == WordBytes(other.v1);
    WordBytesInjective(id.v0, other.v0);
    WordBytesInjective(id.v1, other.v1);
  }

  // ---- one end ------------------------------------------------------------------

  /** A scheduler, and the sockets of its user with their child counters. */
  datatype Peer = Peer(sched: Sched, names: SessionIds.Names)

  /** A call on a socket that makes or uses a session, or any other step. */
  datatype Act =
    | Fork(path: Path)
    | Send(path: Path, body: Bytes)
    | Recv(path: Path, buffer: Buffer)
    | Other(step: Step)

  /** The id the next fork of a socket gets. */
  function ChildOf(n: SessionIds.Names, path: Path): SessionIds.Id
    requires path in n.held && n.held[path] in n.children
  {
    SessionIds.Derived(n.held[path], n.children[n.held[path]])
  }

  predicate CanAct(p: Peer, act: Act) {
    match act
    case Fork(path) =>
      SessionIds.Enabled(p.names, SessionIds.Fork(path)) && CanFork(p.sched, SidOf(ChildOf(p.names, path)))
    case Send(path, body) => path in p.names.held && CanSend(p.sched, SidOf(p.names.held[path]), body)
    case Recv(path, buffer) => path in p.names.held && IsLocal(p.sched, SidOf(p.names.held[path]))
    case Other(st) => !st.UFork? && !st.USend? && !st.URecv? && Enabled(p.sched, st)
  }

  function StepOf(p: Peer, act: Act): (st: Step)
    requires CanAct(p, act)
    ensures Enabled(p.sched, st)
  {
    match act
    case Fork(path) => UFork(SidOf(ChildOf(p.names, path)))
    case Send(path, body) => USend(SidOf(p.names.held[path]), body)
    case Recv(path, buffer) => URecv(SidOf(p.names.held[path]), buffer)
    case Other(st) => st
  }

  /** A fork counts a child; a session first named by the peer is known from then on. */
  ghost function NamesAfter(p: Peer, act: Act): SessionIds.Names
    requires CanAct(p, act)
  {
    match act
    case Fork(path) => SessionIds.Apply(p.names, SessionIds.Fork(path))
    case Other(TInit) =>
      if p.sched.rpc.slot != NO_SLOT && p.sched.rpc.sid !in p.sched.idMap && exists id :: SidOf(id) == p.sched.rpc.sid
      then
        var id :| SidOf(id) == p.sched.rpc.sid;
        SessionIds.Apply(p.names, SessionIds.Remote(id))
      else p.names
    case _ => p.names
  }

  ghost function DoAct(p: Peer, act: Act): Peer
    requires CanAct(p, act)
  {
    Peer(Apply(p.sched, StepOf(p, act)), NamesAfter(p, act))
  }

  // ---- two ends -----------------------------------------------------------------

  datatype Peers = Peers(a: Peer, b: Peer)

  datatype Turn = Turn(atA: bool, act: Act)

  predicate CanTurn(p: Peers, t: Turn) {
    if t.atA then CanAct(p.a, t.act) && FromWire(p.a.sched, p.b.sched, StepOf(p.a, t.act))
    else CanAct(p.b, t.act) && FromWire(p.b.sched, p.a.sched, StepOf(p.b, t.act))
  }

  ghost function DoTurn(p: Peers, t: Turn): Peers
    requires CanTurn(p, t)
  {
    if t.atA then p.(a := DoAct(p.a, t.act)) else p.(b := DoAct(p.b, t.act))
  }

  ghost predicate PeersRun(p: Peers, turns: seq<Turn>, q: Peers)
    decreases |turns|
  {
    if turns == [] then p == q
    else CanTurn(p, turns[0]) && PeersRun(DoTurn(p, turns[0]), turns[1..], q)
  }

  function StartPeer(root: SessionIds.Id): Peer {
    Peer(Start(SidOf(root)), SessionIds.Start(root))
  }

  /** A state that some interleaving of the two ends reaches from the root sockets. */
  ghost predicate Reached(root: SessionIds.Id, q: Peers) {
    exists turns :: PeersRun(Peers(StartPeer(root), StartPeer(root)), turns, q)
  }

  // ---- invariants ---------------------------------------------------------------

  /** The sessions of the local forks of a scheduler, and of the sockets of its user. */
  ghost function LocalSids(s: Sched): set<Sid> {
    set i | 0 <= i < |s.forks| && s.forks[i].localId != NO_SLOT :: s.forks[i].sid
  }

  ghost function HeldSids(held: map<Path, SessionIds.Id>): set<Sid> {
    set path | path in held :: SidOf(held[path])
  }

  /** The user holds a socket for exactly the local forks, each with the id of its path. */
  ghost predicate PeerInv(root: SessionIds.Id, p: Peer) {
    Inv(p.sched) && SessionIds.Inv(root, p.names) && LocalSids(p.sched) == HeldSids(p.names.held)
  }

  lemma LocalsStay(s: Sched, t: Sched)
    requires SameLocals(s, t)
    ensures LocalSids(t) == LocalSids(s)
  {
    forall sid | sid in LocalSids(s)
      ensures sid in LocalSids(t)
    {
      var i :| 0 <= i < |s.forks| && s.forks[i].localId != NO_SLOT && s.forks[i].sid == sid;
      assert t.forks[i].sid == sid && t.forks[i].localId != NO_SLOT;
    }
  }

  lemma LocalsFork(s: Sched, sid: Sid)
    requires Inv(s) && CanFork(s, sid)
    ensures LocalSids(DoFork(s, sid)) == LocalSids(s) + {sid}
  {
    hide Inv, EmptyRing;
    OpsBelow(s);
    var t := DoFork(s, sid);
    if sid in s.idMap {
      assert t.forks == s.forks[s.idMap[sid] := s.forks[s.idMap[sid]].(localId := s.nextLocal)];
      hide DoFork;
      LocalsMore(s.forks, t.forks, s.idMap[sid]);
    } else {
      assert |t.forks| == |s.forks| + 1 && t.forks[..|s.forks|] == s.forks;
      assert t.forks[|s.forks|].sid == sid && t.forks[|s.forks|].localId == s.nextLocal;
      hide DoFork;
      LocalsMore(s.forks, t.forks, |s.forks|);
    }
  }

  lemma LocalsMore(forks: seq<Scheduler.Fork>, forks': seq<Scheduler.Fork>, n: nat)
    requires n < |forks'| && |forks| <= |forks'| && forks'[n].localId != NO_SLOT
    requires forall i :: 0 <= i < |forks'| && i != n ==> i < |forks| && forks'[i] == forks[i]
    requires n < |forks| ==> forks'[n].sid == forks[n].sid
    ensures (set i | 0 <= i < |forks'| && forks'[i].localId != NO_SLOT :: forks'[i].sid)
            == (set i | 0 <= i < |forks| && forks[i].localId != NO_SLOT :: forks[i].sid) + {forks'[n].sid}
  {
    forall i | 0 <= i < |forks| && forks[i].localId != NO_SLOT
      ensures exists k :: 0 <= k < |forks'| && forks'[k].localId != NO_SLOT && forks'[k].sid == forks[i].sid
    {
      assert forks'[i].localId != NO_SLOT && forks'[i].sid == forks[i].sid;
    }
  }

  lemma HeldAdd(held: map<Path, SessionIds.Id>, held': map<Path, SessionIds.Id>, path: Path, id: SessionIds.Id)
    requires path !in held && held' == held[path := id]
    ensures HeldSids(held') == HeldSids(held) + {SidOf(id)}
  {
    hide SidOf;
    assert forall p :: p in held ==> p in held' && held'[p] == held[p];
    assert path in held' && held'[path] == id;
  }

  lemma HeldFork(root: SessionIds.Id, n: SessionIds.Names, path: Path)
    requires SessionIds.Inv(root, n) && SessionIds.Enabled(n, SessionIds.Fork(path))
    ensures HeldSids(SessionIds.Apply(n, SessionIds.Fork(path)).held) == HeldSids(n.held) + {SidOf(ChildOf(n, path))}
  {
    hide SidOf, SessionIds.Derived, SessionIds.NameOf, SessionIds.Grown, SessionIds.Counted;
    var k := n.children[n.held[path]];
    SessionIds.TreeGrows(root, n.held, path, k);
    HeldAdd(n.held, SessionIds.Apply(n, SessionIds.Fork(path)).held, path + [k], ChildOf(n, path));
  }

  lemma ActKeeps(root: SessionIds.Id, p: Peer, act: Act)
    requires PeerInv(root, p) && CanAct(p, act)
    ensures PeerInv(root, DoAct(p, act))
  {
    hide Inv, SessionIds.Inv, NamesAfter, LocalSids, SameLocals, Apply, Enabled, CanFork, CanSend, IsLocal, SidOf;
    StepKeeps(p.sched, StepOf(p, act));
    if act.Fork? {
      ForkActKeeps(root, p, act.path);
    } else {
      StepLocals(p.sched, StepOf(p, act));
      LocalsStay(p.sched, Apply(p.sched, StepOf(p, act)));
      RemoteKeeps(root, p, act);
    }
  }

  lemma ForkActKeeps(root: SessionIds.Id, p: Peer, path: Path)
    requires PeerInv(root, p) && CanAct(p, Act.Fork(path))
    ensures var q := DoAct(p, Act.Fork(path)); SessionIds.Inv(root, q.names) && LocalSids(q.sched) == HeldSids(q.names.held)
  {
    hide Inv, SessionIds.Inv, HeldSids, LocalSids, DoFork, CanFork, SidOf;
    SessionIds.ForkKeeps(root, p.names, path);
    LocalsFork(p.sched, SidOf(ChildOf(p.names, path)));
    HeldFork(root, p.names, path);
  }

  lemma RemoteKeeps(root: SessionIds.Id, p: Peer, act: Act)
    requires SessionIds.Inv(root, p.names) && CanAct(p, act) && !act.Fork?
    ensures SessionIds.Inv(root, NamesAfter(p, act)) && NamesAfter(p, act).held == p.names.held
  {
    hide SessionIds.Inv, SidOf, Enabled, CanSend, IsLocal;
    forall id
      ensures SessionIds.Inv(root, SessionIds.Apply(p.names, SessionIds.Remote(id)))
      ensures SessionIds.Apply(p.names, SessionIds.Remote(id)).held == p.names.held
    {
      SessionIds.RemoteKeeps(root, p.names, id);
    }
  }

  lemma {:induction false} PeersKeep(root: SessionIds.Id, p: Peers, turns: seq<Turn>, q: Peers)
    requires PeerInv(root, p.a) && PeerInv(root, p.b) && PeersRun(p, turns, q)
    ensures PeerInv(root, q.a) && PeerInv(root, q.b)
    decreases |turns|
  {
    hide PeerInv, CanAct, DoAct, FromWire;
    if turns != [] {
      if turns[0].atA {
        ActKeeps(root, p.a, turns[0].act);
      } else {
        ActKeeps(root, p.b, turns[0].act);
      }
      PeersKeep(root, DoTurn(p, turns[0]), turns[1..], q);
    }
  }

  lemma OneLocal(s: Sched, sid: Sid)
    requires |s.forks| == 1 && s.forks[0].localId != NO_SLOT && s.forks[0].sid == sid
    ensures LocalSids(s) == {sid}
  {
    assert s.forks[0].sid in LocalSids(s);
  }

  lemma StartKeeps(root: SessionIds.Id)
    ensures PeerInv(root, StartPeer(root))
  {
    StartInv(SidOf(root));
    SessionIds.StartInv(root);
    hide Inv, SidOf, SessionIds.Inv;
    assert [] in SessionIds.Start(root).held;
    OneLocal(Start(SidOf(root)), SidOf(root));
  }

  // ---- the schedulers of a run ------------------------------------------------------

  function Scheds(p: Peers): Pair {
    Pair(p.a.sched, p.b.sched)
  }

  lemma {:induction false} SchedsRun(p: Peers, turns: seq<Turn>, q: Peers) returns (moves: seq<Move>)
    requires PeersRun(p, turns, q)
    ensures PairRuns(Scheds(p), moves, Scheds(q))
    decreases |turns|
  {
    hide CanAct, NamesAfter, FromWire, Enabled, Apply, StepOf;
    if turns == [] {
      moves := [];
    } else {
      var t := turns[0];
      var rest := SchedsRun(DoTurn(p, t), turns[1..], q);
      moves := [Move(t.atA, if t.atA then StepOf(p.a, t.act) else StepOf(p.b, t.act))] + rest;
      assert moves[1..] == rest;
    }
  }

  lemma ReachedFacts(root: SessionIds.Id, q: Peers)
    requires Reached(root, q)
    ensures Connected(SidOf(root), Scheds(q)) && PeerInv(root, q.a) && PeerInv(root, q.b)
  {
    hide PeersRun, PairRuns, PeerInv, Start;
    var p := Peers(StartPeer(root), StartPeer(root));
    var turns :| PeersRun(p, turns, q);
    StartKeeps(root);
    PeersKeep(root, p, turns, q);
    var moves := SchedsRun(p, turns, q);
  }

  // ---- which socket talks to which --------------------------------------------------

  /** The bodies sent on a socket, but for those cancelled before they started. */
  function SentFrom(p: Peer, path: Path): seq<Bytes>
    requires path in p.names.held
  {
    SentOn(p.sched, SidOf(p.names.held[path]))
  }

  /** The bodies that recvs on a socket were given. */
  function GivenTo(p: Peer, path: Path): seq<Bytes>
    requires path in p.names.held
  {
    Given(p.sched.q.log, SidOf(p.names.held[path]))
  }

  /** A socket at one end talks to the socket at the other that the same forks led to, and to
      no other: what its recvs were given is a prefix, message by message, of what was sent
      there, whatever either end forks, in whatever order. */
  lemma SocketIsolation(root: SessionIds.Id, q: Peers, path: Path)
    requires Reached(root, q) && path in q.a.names.held && path in q.b.names.held
    ensures q.a.names.held[path] == q.b.names.held[path] == SessionIds.NameOf(root, path)
    ensures GivenTo(q.b, path) <= SentFrom(q.a, path) && GivenTo(q.a, path) <= SentFrom(q.b, path)
    ensures forall other :: other in q.a.names.held && other != path ==>
                              SidOf(q.a.names.held[other]) != SidOf(q.b.names.held[path])
    ensures forall other :: other in q.b.names.held && other != path ==>
                              SidOf(q.b.names.held[other]) != SidOf(q.a.names.held[path])
  {
    hide Reached, Inv, Connected, Given, SentOn, SidOf, SessionIds.NameOf;
    ReachedFacts(root, q);
    ForkIsolation(SidOf(root), Scheds(q), SidOf(q.a.names.held[path]));
    Apart(root, q.a.names, path);
    Apart(root, q.b.names, path);
  }

  lemma Apart(root: SessionIds.Id, n: SessionIds.Names, path: Path)
    requires SessionIds.Inv(root, n) && path in n.held
    ensures forall other :: other in n.held && other != path ==> SidOf(n.held[other]) != SidOf(n.held[path])
  {
    hide SidOf, SessionIds.NameOf;
    forall other | other in n.held && other != path
      ensures SidOf(n.held[other]) != SidOf(n.held[path])
    {
      if SidOf(n.held[other]) == SidOf(n.held[path]) {
        SidOfInjective(n.held[other], n.held[path]);
      }
    }
  }

  /** The k-th fork of a socket at one end talks to the k-th fork of the same socket at the
      other, once both have been made. */
  lemma KthFork(root: SessionIds.Id, q: Peers, path: Path, k: nat)
    requires Reached(root, q) && path in q.a.names.held && path in q.b.names.held
    ensures q.a.names.held[path] in q.a.names.children && q.b.names.held[path] in q.b.names.children
    ensures path + [k] in q.a.names.held <==> k < q.a.names.children[q.a.names.held[path]]
    ensures path + [k] in q.b.names.held <==> k < q.b.names.children[q.b.names.held[path]]
    ensures path + [k] in q.a.names.held && path + [k] in q.b.names.held ==>
              && GivenTo(q.b, path + [k]) <= SentFrom(q.a, path + [k])
              && GivenTo(q.a, path + [k]) <= SentFrom(q.b, path + [k])
  {
    hide Reached, Inv, Connected, GivenTo, SentFrom, SidOf, SessionIds.Inv;
    ReachedFacts(root, q);
    SessionIds.HeldIff(root, q.a.names, path, k);
    SessionIds.HeldIff(root, q.b.names, path, k);
    if path + [k] in q.a.names.held && path + [k] in q.b.names.held {
      SocketIsolation(root, q, path + [k]);
    }
  }

  /** The scheduler finds the fork of every socket its user holds, and what fork asserts, that
      the session derived has no local slot yet, is that no socket of the user has its id. */
  lemma ForkAsserts(root: SessionIds.Id, q: Peers, p: Peer, path: Path)
    requires Reached(root, q) && (p == q.a || p == q.b) && path in p.names.held
    ensures IsLocal(p.sched, SidOf(p.names.held[path]))
    ensures p.names.held[path] in p.names.children
    ensures CanFork(p.sched, SidOf(ChildOf(p.names, path))) <==>
              p.sched.nextLocal < NO_SLOT && ChildOf(p.names, path) !in p.names.held.Values
  {
    hide Reached, PeerInv, Connected, CanFork, IsLocal, LocalSids, SidOf;
    ReachedFacts(root, q);
    LocalFork(root, p, path);
  }

  lemma LocalFork(root: SessionIds.Id, p: Peer, path: Path)
    requires PeerInv(root, p) && path in p.names.held
    ensures IsLocal(p.sched, SidOf(p.names.held[path]))
    ensures p.names.held[path] in p.names.children
    ensures CanFork(p.sched, SidOf(ChildOf(p.names, path))) <==>
              p.sched.nextLocal < NO_SLOT && ChildOf(p.names, path) !in p.names.held.Values
  {
    hide Inv, SidOf, SessionIds.NameOf, SessionIds.Derived;
    OpsBelow(p.sched);
    LocalHere(p, path);
    LocalChild(p, ChildOf(p.names, path));
  }

  lemma LocalHere(p: Peer, path: Path)
    requires LocalSids(p.sched) == HeldSids(p.names.held) && path in p.names.held
    ensures SidOf(p.names.held[path]) in LocalSids(p.sched)
  {
  }

  lemma LocalChild(p: Peer, id: SessionIds.Id)
    requires LocalSids(p.sched) == HeldSids(p.names.held)
    ensures SidOf(id) in LocalSids(p.sched) <==> id in p.names.held.Values
  {
    hide SidOf;
    if SidOf(id) in HeldSids(p.names.held) {
      var path :| path in p.names.held && SidOf(p.names.held[path]) == SidOf(id);
      SidOfInjective(p.names.held[path], id);
    }
  }

  // ---- local slots --------------------------------------------------------------------

  /** The slots given to local forks are 1, 2, ... in the order they are made. */
  ghost predicate SlotsInOrder(s: Sched) {
    1 <= s.nextLocal <= NO_SLOT && forall n: nat :: 1 <= n < s.nextLocal <==> HasSlot(s, n)
  }

  ghost predicate HasSlot(s: Sched, n: nat) {
    exists i :: 0 <= i < |s.forks| && s.forks[i].localId == n && n != NO_SLOT
  }

  lemma SlotsFork(s: Sched, sid: Sid)
    requires Inv(s) && CanFork(s, sid) && SlotsInOrder(s)
    ensures SlotsInOrder(DoFork(s, sid))
  {
    OpsBelow(s);
    hide Inv, EmptyRing, HasSlot;
    var t, k := DoFork(s, sid), s.nextLocal;
    assert t.nextLocal == k + 1;
    forall n: nat
      ensures HasSlot(t, n) <==> HasSlot(s, n) || n == k
    {
      ForkSlot(s, sid, n);
    }
    hide DoFork;
    SlotsMore(s, t);
  }

  lemma SlotsMore(s: Sched, t: Sched)
    requires SlotsInOrder(s) && t.nextLocal == s.nextLocal + 1 <= NO_SLOT
    requires forall n: nat :: HasSlot(t, n) <==> HasSlot(s, n) || n == s.nextLocal
    ensures SlotsInOrder(t)
  {
    hide HasSlot;
  }

  lemma SlotsStay(s: Sched, t: Sched)
    requires SlotsInOrder(s) && SameLocals(s, t)
    ensures SlotsInOrder(t)
  {
    forall n: nat
      ensures HasSlot(t, n) <==> HasSlot(s, n)
    {
      if HasSlot(s, n) {
        var i :| 0 <= i < |s.forks| && s.forks[i].localId == n && n != NO_SLOT;
        assert t.forks[i].localId == n;
      }
    }
    hide HasSlot, SameLocals;
  }

  lemma {:induction false} SlotsRun(a: Sched, steps: seq<Step>, b: Sched)
    requires Inv(a) && SlotsInOrder(a) && Runs(a, steps, b)
    ensures SlotsInOrder(b)
    decreases |steps|
  {
    if steps != [] {
      SlotsStep(a, steps[0]);
      StepKeeps(a, steps[0]);
      hide Inv, SlotsInOrder, Apply, Enabled;
      SlotsRun(Apply(a, steps[0]), steps[1..], b);
    }
  }

  lemma SlotsStep(s: Sched, st: Step)
    requires Inv(s) && SlotsInOrder(s) && Enabled(s, st)
    ensures SlotsInOrder(Apply(s, st))
  {
    hide Inv, SlotsInOrder, SameLocals, DoFork;
    if st.UFork? {
      SlotsFork(s, st.sid);
    } else {
      hide Apply, Enabled;
      StepLocals(s, st);
      SlotsStay(s, Apply(s, st));
    }
  }

  /** In every reachable state the local slots in use are 1 up to the number of local forks,
      the root's the first. */
  lemma LocalSlots(root: Sid, s: Sched)
    requires Reachable(root, s)
    ensures SlotsInOrder(s)
    ensures |s.forks| > 0 && s.forks[0].sid == root && s.forks[0].localId == 1
  {
    hide Inv, Runs, SlotsInOrder;
    var steps :| Runs(Start(root), steps, s);
    StartInv(root);
    StartSlots(root);
    SlotsRun(Start(root), steps, s);
    RootRun(Start(root), steps, s);
  }

  lemma StartSlots(root: Sid)
    ensures SlotsInOrder(Start(root))
  {
    var s := Start(root);
    assert s.forks[0].localId == 1;
    assert HasSlot(s, 1);
  }

  /** A local fork keeps its slot. */
  lemma {:induction false} RootRun(a: Sched, steps: seq<Step>, b: Sched)
    requires Inv(a) && Runs(a, steps, b) && |a.forks| > 0 && a.forks[0].localId != NO_SLOT
    ensures |b.forks| > 0 && b.forks[0].sid == a.forks[0].sid && b.forks[0].localId == a.forks[0].localId
    decreases |steps|
  {
    if steps != [] {
      RootStep(a, steps[0]);
      StepKeeps(a, steps[0]);
      hide Inv, Apply, Enabled;
      RootRun(Apply(a, steps[0]), steps[1..], b);
    }
  }

  lemma RootStep(s: Sched, st: Step)
    requires Inv(s) && Enabled(s, st) && |s.forks| > 0 && s.forks[0].localId != NO_SLOT
    ensures var t := Apply(s, st);
            |t.forks| > 0 && t.forks[0].sid == s.forks[0].sid && t.forks[0].localId == s.forks[0].localId
  {
    hide Inv, DoFork;
    if st.UFork? {
      RootFork(s, st.sid);
    } else {
      hide Apply, Enabled;
      StepLocals(s, st);
    }
  }

  lemma RootFork(s: Sched, sid: Sid)
    requires CanFork(s, sid) && |s.forks| > 0 && s.forks[0].localId != NO_SLOT
    ensures var t := DoFork(s, sid);
            |t.forks| > 0 && t.forks[0].sid == s.forks[0].sid && t.forks[0].localId == s.forks[0].localId
  {
    hide EmptyRing;
  }

  lemma ForkSlot(s: Sched, sid: Sid, n: nat)
    requires CanFork(s, sid)
    ensures HasSlot(DoFork(s, sid), n) <==> HasSlot(s, n) || n == s.nextLocal
  {
    hide EmptyRing;
    var t := DoFork(s, sid);
    var m := if sid in s.idMap then s.idMap[sid] else |s.forks|;
    assert t.forks[m].localId == s.nextLocal != NO_SLOT;
    assert forall i :: 0 <= i < |s.forks| && i != m ==> t.forks[i].localId == s.forks[i].localId;
    hide DoFork;
    if HasSlot(s, n) {
      var i :| 0 <= i < |s.forks| && s.forks[i].localId == n && n != NO_SLOT;
      assert t.forks[i].localId == n;
    }
  }
}
