/** Session ids: how a fork's id is derived, and why the ids two endpoints give to their
    forks agree whatever the order in which they fork. */
module SessionIds {

  /** The value of a session id; equality of ids ignores the child counter. */
  datatype Id = Id(v0: bv64, v1: bv64)

  function Hash(v: bv64): bv64 {
    v * (v - 1) * (v - 2) - 23 * v
  }

  /** The child counter after `n` children, a word of 64 bits. */
  function Word(n: nat): bv64 {
    if n == 0 then 0 else Word(n - 1) + 1
  }

  /** One round: the left half, which alternates, is mixed with the right half. */
  function Mix(l: bv64, r: bv64, child: bv64): bv64 {
    Hash(r + child + 32243534) ^ l ^ 9478532833
  }

  function Round(p: Id, child: bv64, i: nat): Id {
    if i % 2 == 0 then Id(Mix(p.v0, p.v1, child), p.v1) else Id(p.v0, Mix(p.v1, p.v0, child))
  }

  function Rounds(id: Id, child: bv64, n: nat): Id {
    if n == 0 then id else Round(Rounds(id, child, n - 1), child, n - 1)
  }

  lemma RoundsStep(id: Id, child: bv64, i: nat)
    ensures Rounds(id, child, 0) == id
    ensures Rounds(id, child, i + 1) == Round(Rounds(id, child, i), child, i)
  {
    hide Round;
  }

  function Xor(a: Id, b: Id): Id {
    Id(XorWord(a.v0, b.v0), XorWord(a.v1, b.v1))
  }

  function XorWord(a: bv64, b: bv64): bv64 {
    a ^ b
  }

  /** The id of the `n`-th child. */
  function Derived(id: Id, n: nat): Id {
    Xor(Rounds(id, Word(n), 5), id)
  }

  /** The rounds lose nothing: each undoes itself, so different ids stay different until
      the last exclusive-or. */
  lemma {:induction false} RoundsInjective(a: Id, b: Id, child: bv64, n: nat)
    requires Rounds(a, child, n) == Rounds(b, child, n)
    ensures a == b
  {
    hide Round, Rounds;
    RoundsStep(a, child, 0);
    RoundsStep(b, child, 0);
    if n > 0 {
      RoundsStep(a, child, n - 1);
      RoundsStep(b, child, n - 1);
      RoundUndone(Rounds(a, child, n - 1), child, n - 1);
      RoundUndone(Rounds(b, child, n - 1), child, n - 1);
      RoundsInjective(a, b, child, n - 1);
    }
  }

  lemma RoundUndone(p: Id, child: bv64, i: nat)
    ensures Round(Round(p, child, i), child, i) == p
  {
    hide Mix;
    MixUndone(p.v0, p.v1, child);
    MixUndone(p.v1, p.v0, child);
  }

  lemma MixUndone(l: bv64, r: bv64, child: bv64)
    ensures Mix(Mix(l, r, child), r, child) == l
  {
    hide Hash;
  }

  // ---- children differ ----------------------------------------------------------

  predicate Odd(v: bv64) {
    v & 1 == 1
  }

  /** Exclusive or. */
  predicate Differ(a: bool, b: bool) {
    a != b
  }

  lemma HashOdd(v: bv64)
    ensures Odd(Hash(v)) == Odd(v)
  {
  }

  lemma SumOdd(r: bv64, child: bv64)
    ensures Odd(r + child + 32243534) == Differ(Odd(r), Odd(child))
  {
  }

  lemma XorsOdd(h: bv64, l: bv64)
    ensures Odd(h ^ l ^ 9478532833) == !Differ(Odd(h), Odd(l))
  {
  }

  lemma MixOdd(l: bv64, r: bv64, child: bv64)
    ensures Odd(Mix(l, r, child)) == !Differ(Differ(Odd(r), Odd(child)), Odd(l))
  {
    hide Hash, Odd;
    var v := r + child + 32243534;
    HashOdd(v);
    SumOdd(r, child);
    XorsOdd(Hash(v), l);
  }

  lemma RoundOdd(p: Id, child: bv64, i: nat)
    ensures var q := Round(p, child, i);
            if i % 2 == 0 then Odd(q.v0) == !Differ(Differ(Odd(p.v1), Odd(child)), Odd(p.v0)) && q.v1 == p.v1
            else Odd(q.v1) == !Differ(Differ(Odd(p.v0), Odd(child)), Odd(p.v1)) && q.v0 == p.v0
  {
    hide Mix, Odd;
    MixOdd(p.v0, p.v1, child);
    MixOdd(p.v1, p.v0, child);
  }

  /** The child index reaches the low bit of the right half. */
  lemma RoundsOdd(id: Id, child: bv64)
    ensures Odd(Rounds(id, child, 5).v1) == !Differ(Differ(Odd(id.v0), Odd(id.v1)), Odd(child))
  {
    hide Round, Rounds, Odd;
    RoundsStep(id, child, 0);
    RoundsStep(id, child, 1);
    RoundsStep(id, child, 2);
    RoundsStep(id, child, 3);
    RoundsStep(id, child, 4);
    RoundOdd(id, child, 0);
    RoundOdd(Rounds(id, child, 1), child, 1);
    RoundOdd(Rounds(id, child, 2), child, 2);
    RoundOdd(Rounds(id, child, 3), child, 3);
    RoundOdd(Rounds(id, child, 4), child, 4);
  }

  lemma XorOdd(v: bv64, w: bv64)
    ensures Odd(XorWord(v, w)) == Differ(Odd(v), Odd(w))
  {
  }

  lemma NextOdd(v: bv64)
    ensures Odd(v + 1) == !Odd(v)
  {
  }

  lemma {:induction false} WordOdd(n: nat)
    ensures Odd(Word(n)) <==> n % 2 == 1
  {
    if n > 0 {
      WordOdd(n - 1);
      NextOdd(Word(n - 1));
      hide Odd;
    }
  }

  lemma DerivedOdd(id: Id, n: nat)
    ensures Odd(Derived(id, n).v1) == !Differ(Odd(id.v0), n % 2 == 1)
  {
    hide Rounds, Odd, XorWord, Word;
    RoundsOdd(id, Word(n));
    XorOdd(Rounds(id, Word(n), 5).v1, id.v1);
    WordOdd(n);
  }

  /** Children of one socket whose indices differ in parity have different ids; so two forks
      of a socket that follow each other never collide. */
  lemma ChildrenDiffer(id: Id, m: nat, n: nat)
    requires m % 2 != n % 2
    ensures Derived(id, m) != Derived(id, n)
  {
    hide Derived, Odd;
    DerivedOdd(id, m);
    DerivedOdd(id, n);
  }

  /** The first two children of the root socket. */
  lemma RootChildren()
    ensures Derived(Id(45234, 325434), 0) == Id(0x7683_bde8_7ca0_4c90, 0x7248_b07a_49e7_0e01)
    ensures Derived(Id(45234, 325434), 1) == Id(0xe3a2_cb80_e6a8_7108, 0xb23b_bd33_7772_6ac0)
  {
    var id := Id(45234, 325434);
    FirstRounds(id);
    SecondRounds(id);
    hide Rounds;
    assert Word(0) == 0 && Word(1) == 1;
  }

  lemma FirstRounds(id: Id)
    requires id == Id(45234, 325434)
    ensures Rounds(id, 0, 5) == Id(0x7683_bde8_7ca0_fc22, 0x7248_b07a_49e3_f93b)
  {
    hide Rounds;
    RoundsStep(id, 0, 0);
    assert Rounds(id, 0, 1) == Id(0xcdb7_248c_893b_ee4b, 0x4f73a);
    RoundsStep(id, 0, 1);
    assert Rounds(id, 0, 2) == Id(0xcdb7_248c_893b_ee4b, 0x1402_3ff9_9295_1672);
    RoundsStep(id, 0, 2);
    assert Rounds(id, 0, 3) == Id(0x83ec_1b15_d7b7_07ea, 0x1402_3ff9_9295_1672);
    RoundsStep(id, 0, 3);
    assert Rounds(id, 0, 4) == Id(0x83ec_1b15_d7b7_07ea, 0x7248_b07a_49e3_f93b);
    RoundsStep(id, 0, 4);
  }

  lemma SecondRounds(id: Id)
    requires id == Id(45234, 325434)
    ensures Rounds(id, 1, 5) == Id(0xe3a2_cb80_e6a8_c1ba, 0xb23b_bd33_7776_9dfa)
  {
    hide Rounds;
    RoundsStep(id, 1, 0);
    assert Rounds(id, 1, 1) == Id(0xcdc2_72c1_59c1_9b7a, 0x4f73a);
    RoundsStep(id, 1, 1);
    assert Rounds(id, 1, 2) == Id(0xcdc2_72c1_59c1_9b7a, 0xe986_ea1b_84bd_16f2);
    RoundsStep(id, 1, 2);
    assert Rounds(id, 1, 3) == Id(0xa606_1528_7a7e_9c72, 0xe986_ea1b_84bd_16f2);
    RoundsStep(id, 1, 3);
    assert Rounds(id, 1, 4) == Id(0xa606_1528_7a7e_9c72, 0xb23b_bd33_7776_9dfa);
    RoundsStep(id, 1, 4);
  }

  class SessionID {
    const val: array<bv64>
    var childIdx: bv64
    ghost var children: nat

    ghost predicate Valid()
      reads this
    {
      val.Length == 2 && childIdx == Word(children)
    }

    function Value(): Id
      requires Valid()
      reads this, val
    {
      Id(val[0], val[1])
    }

    constructor (id: Id)
      ensures Valid() && fresh(val) && Value() == id && children == 0
    {
      val := new bv64[2];
      childIdx, children := 0, 0;
      new;
      val[0], val[1] := id.v0, id.v1;
    }

    method Derive() returns (ret: SessionID)
      requires Valid()
      modifies this`childIdx, this`children
      ensures Valid() && ret.Valid() && fresh(ret) && fresh(ret.val)
      ensures ret.Value() == Derived(Value(), old(children)) && ret.children == 0
      ensures children == old(children) + 1
    {
      hide Rounds, Word, Xor;
      ret := new SessionID(Value());
      MixAll(ret.val, childIdx);
      XorWith(ret.val, val[0], val[1]);
      Counts(children);
      childIdx, children := childIdx + 1, children + 1;
    }
  }

  lemma Counts(n: nat)
    ensures Word(n) + 1 == Word(n + 1)
  {
  }

  method XorWith(val: array<bv64>, v0: bv64, v1: bv64)
    requires val.Length == 2
    modifies val
    ensures Id(val[0], val[1]) == Xor(old(Id(val[0], val[1])), Id(v0, v1))
  {
    hide XorWord;
    val[0] := XorWord(val[0], v0);
    val[1] := XorWord(val[1], v1);
  }

  /** The loop of derive. */
  method MixAll(val: array<bv64>, child: bv64)
    requires val.Length == 2
    modifies val
    ensures Id(val[0], val[1]) == Rounds(old(Id(val[0], val[1])), child, 5)
  {
    hide Round, Rounds;
    ghost var id := Id(val[0], val[1]);
    RoundsStep(id, child, 0);
    for i := 0 to 5
      invariant Id(val[0], val[1]) == Rounds(id, child, i)
    {
      RoundsStep(id, child, i);
      MixHalf(val, child, i);
    }
  }

  /** One turn of the loop of derive, in place. */
  method MixHalf(val: array<bv64>, child: bv64, i: nat)
    requires val.Length == 2
    modifies val
    ensures Id(val[0], val[1]) == Round(old(Id(val[0], val[1])), child, i)
  {
    hide Mix;
    ghost var id := Id(val[0], val[1]);
    var l, r := i % 2, 1 - i % 2;
    var mixed := Mix(val[l], val[r], child);
    assert mixed == if l == 0 then Round(id, child, i).v0 else Round(id, child, i).v1;
    val[l] := mixed;
  }

  // ---- naming ---------------------------------------------------------------

  /** A socket by the child indices that lead to it from the root socket. */
  type Path = seq<nat>

  function NameOf(root: Id, path: Path): Id {
    if path == [] then root else Derived(NameOf(root, path[..|path| - 1]), path[|path| - 1])
  }

  /** One endpoint: the id of every socket the user has, and the child counter of every
      fork of the scheduler, those first named by the peer included. */
  datatype Names = Names(held: map<Path, Id>, children: map<Id, nat>)

  function Start(root: Id): Names {
    Names(map[[] := root], map[root := 0])
  }

  datatype Step = Fork(path: Path) | Remote(id: Id)

  /** fork asserts that the derived id is not already in use locally. */
  predicate Enabled(s: Names, st: Step) {
    match st
    case Fork(path) =>
      path in s.held && s.held[path] in s.children
      && Derived(s.held[path], s.children[s.held[path]]) !in s.held.Values
    case Remote(_) => true
  }

  /** The counters after a fork; the peer may have named the child before. */
  function Grown(children: map<Id, nat>, id: Id, child: Id): map<Id, nat>
    requires id in children
  {
    var counted := children[id := children[id] + 1];
    if child in counted then counted else counted[child := 0]
  }

  /** SockScheduler::fork on the socket at a path, or a meta message naming a session. */
  function Apply(s: Names, st: Step): Names
    requires Enabled(s, st)
  {
    match st
    case Fork(path) =>
      var id := s.held[path];
      var n := s.children[id];
      var child := Derived(id, n);
      Names(s.held[path + [n] := child], Grown(s.children, id, child))
    case Remote(id) =>
      if id in s.children then s else s.(children := s.children[id := 0])
  }

  ghost predicate Runs(s: Names, steps: seq<Step>, t: Names)
    decreases |steps|
  {
    if steps == [] then s == t
    else Enabled(s, steps[0]) && Runs(Apply(s, steps[0]), steps[1..], t)
  }

  /** The user's sockets form a tree, and each has the id of its path. */
  ghost predicate Tree(root: Id, held: map<Path, Id>) {
    && [] in held
    && (forall p :: p in held ==> held[p] == NameOf(root, p))
    && (forall p, q :: p in held && q in held && held[p] == held[q] ==> p == q)
    && (forall p :: p in held && p != [] ==> p[..|p| - 1] in held)
  }

  /** The counter of a socket is the number of its children; a fork only the peer has
      named has none. */
  ghost predicate Counted(held: map<Path, Id>, children: map<Id, nat>) {
    && (forall p :: p in held ==> held[p] in children)
    && (forall p, k: nat :: p in held && held[p] in children ==> (p + [k] in held <==> k < children[held[p]]))
    && (forall id :: id in children && id !in held.Values ==> children[id] == 0)
  }

  ghost predicate Inv(root: Id, s: Names) {
    Tree(root, s.held) && Counted(s.held, s.children)
  }

  lemma TreeGrows(root: Id, held: map<Path, Id>, path: Path, n: nat)
    requires Tree(root, held) && path in held && Derived(held[path], n) !in held.Values
    ensures Tree(root, held[path + [n] := Derived(held[path], n)])
    ensures forall k: nat :: path + [n] + [k] !in held
    ensures path + [n] !in held
  {
    hide Derived;
    var p := path + [n];
    assert p[..|p| - 1] == path;
    assert NameOf(root, p) == Derived(held[path], n);
    assert p !in held;
    forall k: nat
      ensures p + [k] !in held
    {
      assert (p + [k])[..|p + [k]| - 1] == p;
    }
  }

  lemma TreeApart(root: Id, held: map<Path, Id>)
    requires Tree(root, held)
    ensures forall p, q :: p in held && q in held && held[p] == held[q] ==> p == q
  {
  }

  lemma GrownAt(held: map<Path, Id>, children: map<Id, nat>, path: Path, child: Id, p: Path, k: nat)
    requires Counted(held, children) && path in held && held[path] in children
    requires forall p, q :: p in held && q in held && held[p] == held[q] ==> p == q
    requires child !in held.Values
    requires var new' := path + [children[held[path]]];
             new' !in held && forall k: nat :: new' + [k] !in held
    requires p in held[path + [children[held[path]]] := child]
    ensures var new' := path + [children[held[path]]];
            var held', children' := held[new' := child], Grown(children, held[path], child);
            && held'[p] in children'
            && (p + [k] in held' <==> k < children'[held'[p]])
  {
    var n := children[held[path]];
    assert held[path] in held.Values;
    SamePath(p, k, path, n);
    if p in held {
      assert held[p] in held.Values;
      assert p + [k] in held <==> k < children[held[p]];
      assert held[p] == held[path] <==> p == path;
    } else {
      assert p + [k] != path + [n];
    }
  }

  lemma CountGrows(held: map<Path, Id>, children: map<Id, nat>, path: Path, child: Id)
    requires Counted(held, children) && path in held && held[path] in children
    requires forall p, q :: p in held && q in held && held[p] == held[q] ==> p == q
    requires child !in held.Values
    requires var new' := path + [children[held[path]]];
             new' !in held && forall k: nat :: new' + [k] !in held
    ensures Counted(held[path + [children[held[path]]] := child], Grown(children, held[path], child))
  {
    var n := children[held[path]];
    var held', children' := held[path + [n] := child], Grown(children, held[path], child);
    forall p, k: nat | p in held' && held'[p] in children'
      ensures p + [k] in held' <==> k < children'[held'[p]]
    {
      GrownAt(held, children, path, child, p, k);
    }
    forall p | p in held'
      ensures held'[p] in children'
    {
      GrownAt(held, children, path, child, p, 0);
    }
    forall id | id in children' && id !in held'.Values
      ensures children'[id] == 0
    {
      NotHeld(held, path + [n], child, id);
      assert held[path] in held.Values;
    }
  }

  lemma SamePath(p: Path, k: nat, q: Path, n: nat)
    ensures p + [k] == q + [n] <==> p == q && k == n
  {
    if p + [k] == q + [n] {
      assert (p + [k])[..|p|] == p && (q + [n])[..|q|] == q;
      assert (p + [k])[|p|] == k && (q + [n])[|q|] == n;
    }
  }

  lemma NotHeld(held: map<Path, Id>, p: Path, child: Id, id: Id)
    requires p !in held && id !in held[p := child].Values
    ensures id !in held.Values && id != child
  {
    var held' := held[p := child];
    assert held'[p] in held'.Values;
    forall q | q in held
      ensures held[q] != id
    {
      assert held'[q] in held'.Values;
    }
  }

  lemma ForkKeeps(root: Id, s: Names, path: Path)
    requires Inv(root, s) && Enabled(s, Fork(path))
    ensures Inv(root, Apply(s, Fork(path)))
  {
    hide Tree, Counted, Derived, Grown;
    var n := s.children[s.held[path]];
    TreeGrows(root, s.held, path, n);
    TreeApart(root, s.held);
    CountGrows(s.held, s.children, path, Derived(s.held[path], n));
  }

  /** A fork moves the counter of its socket on by one, so the next fork of the socket has
      another id. */
  lemma ForksApart(s: Names, path: Path)
    requires Enabled(s, Fork(path))
    ensures var t, id := Apply(s, Fork(path)), s.held[path];
            && path in t.held && t.held[path] == id && id in t.children && t.children[id] == s.children[id] + 1
            && Derived(id, t.children[id]) != Derived(id, s.children[id])
  {
    hide Derived;
    var id := s.held[path];
    assert id in s.held.Values;
    ChildrenDiffer(id, s.children[id] + 1, s.children[id]);
    assert path != path + [s.children[id]];
  }

  lemma RemoteKeeps(root: Id, s: Names, id: Id)
    requires Inv(root, s)
    ensures Inv(root, Apply(s, Remote(id))) && Apply(s, Remote(id)).held == s.held
  {
    hide Tree;
  }

  lemma {:induction false} RunKeeps(root: Id, s: Names, steps: seq<Step>, t: Names)
    requires Inv(root, s) && Runs(s, steps, t)
    ensures Inv(root, t)
    decreases |steps|
  {
    if steps != [] {
      match steps[0] {
        case Fork(path) => ForkKeeps(root, s, path);
        case Remote(id) => RemoteKeeps(root, s, id);
      }
      hide Inv, Apply, Enabled;
      RunKeeps(root, Apply(s, steps[0]), steps[1..], t);
    }
  }

  lemma StartInv(root: Id)
    ensures Inv(root, Start(root))
  {
  }

  /** Naming is independent of the schedule: whatever each endpoint forks, in whatever
      order, and whatever sessions the peer names first, a socket both have made has
      the same id at both, fixed by the root and its path of child indices. */
  lemma NamesAgree(root: Id, stepsA: seq<Step>, a: Names, stepsB: seq<Step>, b: Names, p: Path)
    requires Runs(Start(root), stepsA, a) && Runs(Start(root), stepsB, b)
    ensures p in a.held ==> a.held[p] == NameOf(root, p)
    ensures p in a.held && p in b.held ==> a.held[p] == b.held[p]
  {
    StartInv(root);
    RunKeeps(root, Start(root), stepsA, a);
    RunKeeps(root, Start(root), stepsB, b);
  }

  /** If each socket was forked as often at both endpoints, they hold the same sockets
      with the same ids. */
  lemma SameForksSameNames(root: Id, stepsA: seq<Step>, a: Names, stepsB: seq<Step>, b: Names)
    requires Runs(Start(root), stepsA, a) && Runs(Start(root), stepsB, b)
    requires forall p :: p in a.held && p in b.held && a.held[p] in a.children && b.held[p] in b.children ==>
                           a.children[a.held[p]] == b.children[b.held[p]]
    ensures a.held == b.held
  {
    StartInv(root);
    RunKeeps(root, Start(root), stepsA, a);
    RunKeeps(root, Start(root), stepsB, b);
    forall p: Path
      ensures p in a.held <==> p in b.held
    {
      SameAt(root, a, b, p);
    }
  }

  /** A socket is held exactly when its parent is and has been forked often enough. */
  lemma HeldIff(root: Id, s: Names, q: Path, k: nat)
    requires Inv(root, s)
    ensures q in s.held ==> s.held[q] in s.children
    ensures q + [k] in s.held <==> q in s.held && k < s.children[s.held[q]]
  {
    assert (q + [k])[..|q + [k]| - 1] == q;
  }

  lemma RootHeld(root: Id, s: Names)
    requires Inv(root, s)
    ensures [] in s.held
  {
  }

  lemma {:induction false} SameAt(root: Id, a: Names, b: Names, p: Path)
    requires Inv(root, a) && Inv(root, b)
    requires forall p :: p in a.held && p in b.held && a.held[p] in a.children && b.held[p] in b.children ==>
                           a.children[a.held[p]] == b.children[b.held[p]]
    ensures p in a.held <==> p in b.held
    decreases |p|
  {
    hide Inv;
    if p == [] {
      RootHeld(root, a);
      RootHeld(root, b);
    } else {
      var q, k := p[..|p| - 1], p[|p| - 1];
      SameAt(root, a, b, q);
      HeldIff(root, a, q, k);
      HeldIff(root, b, q, k);
      assert p == q + [k];
    }
  }
}
