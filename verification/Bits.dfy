/** Bitwise arithmetic on natural numbers: why a mask of `capacity - 1` picks distinct
    slots, and what the bit smearing of `Queue::reserve` rounds to. */
module Bits {

  function Pow2(k: nat): (r: nat)
    ensures r > 0
  {
    if k == 0 then 1 else 2 * Pow2(k - 1)
  }

  ghost predicate IsPow2(n: nat) {
    exists k: nat :: n == Pow2(k)
  }

  function And(a: nat, b: nat): (r: nat)
    ensures r <= b
  {
    if a == 0 || b == 0 then 0 else a % 2 * (b % 2) + 2 * And(a / 2, b / 2)
  }

  function Or(a: nat, b: nat): nat {
    if a == 0 then b
    else if b == 0 then a
    else (if a % 2 == 1 || b % 2 == 1 then 1 else 0) + 2 * Or(a / 2, b / 2)
  }

  function Shr(a: nat, k: nat): nat {
    if k == 0 then a else Shr(a / 2, k - 1)
  }

  predicate Bit(a: nat, i: nat) {
    if i == 0 then a % 2 == 1 else Bit(a / 2, i - 1)
  }

  // ---- masking ----------------------------------------------------------

  lemma ModTwice(a: nat, p: nat)
    requires p > 0
    ensures a % (2 * p) == a % 2 + 2 * (a / 2 % p)
  {
    var h := a / 2;
    assert h == p * (h / p) + h % p;
    var r := a % 2 + 2 * (h % p);
    assert a == 2 * p * (h / p) + r by {
      assert 2 * p * (h / p) == 2 * (p * (h / p));
    }
    DivUnique(a, 2 * p, h / p, r);
  }

  lemma DivUnique(a: nat, d: nat, q: nat, r: nat)
    requires d > 0 && r < d && a == d * q + r
    ensures a % d == r
  {
    var e := q - a / d;
    Multiple(d, e);
    assert d * q == d * (a / d) + d * e;
    assert d * e == a % d - r;
  }

  lemma Multiple(d: nat, e: int)
    ensures e >= 1 ==> d * e >= d
    ensures e <= -1 ==> d * e + d <= 0
  {
  }

  /** Masking with `2^k - 1` is the remainder modulo `2^k`. */
  lemma {:induction false} MaskIsMod(a: nat, k: nat)
    ensures And(a, Pow2(k) - 1) == a % Pow2(k)
  {
    hide And;
    if k == 0 {
      AndNone(a);
    } else {
      var p := Pow2(k - 1);
      MaskIsMod(a / 2, k - 1);
      ModTwice(a, p);
      AndOdd(a, p);
    }
  }

  lemma AndNone(a: nat)
    ensures And(a, 0) == 0
  {
  }

  lemma AndOdd(a: nat, p: nat)
    requires p > 0
    ensures And(a, 2 * p - 1) == a % 2 + 2 * And(a / 2, p - 1)
  {
    assert (2 * p - 1) % 2 == 1 && (2 * p - 1) / 2 == p - 1;
  }

  lemma ModApart(a: nat, b: nat, d: nat)
    requires d > 0 && a < b < a + d
    ensures a % d != b % d
  {
    var e := b / d - a / d;
    assert a == d * (a / d) + a % d && b == d * (b / d) + b % d;
    assert d * (b / d) == d * (a / d) + d * e;
    Multiple(d, e);
  }

  /** Logical indices less than a capacity apart are in different slots. */
  lemma SlotsApart(a: nat, b: nat, capacity: nat)
    requires IsPow2(capacity) && a < b < a + capacity
    ensures And(a, capacity - 1) != And(b, capacity - 1)
  {
    hide And, Pow2;
    var k: nat :| capacity == Pow2(k);
    MaskIsMod(a, k);
    MaskIsMod(b, k);
    ModApart(a, b, capacity);
  }

  /** A logical index is its own slot exactly while its block has not wrapped to it. */
  lemma SlotIsIndex(a: nat, capacity: nat)
    requires IsPow2(capacity)
    ensures And(a, capacity - 1) == a <==> a < capacity
    ensures a >= capacity ==> And(a, capacity - 1) <= a - capacity
  {
    hide And, Pow2;
    var k: nat :| capacity == Pow2(k);
    MaskIsMod(a, k);
    ModSmall(a, capacity);
  }

  lemma ModSmall(a: nat, d: nat)
    requires d > 0
    ensures a < d ==> a % d == a
    ensures a >= d ==> a % d <= a - d
  {
    assert a == d * (a / d) + a % d;
    if a >= d {
      Multiple(d, a / d);
    } else {
      DivUnique(a, d, 0, a);
    }
  }

  lemma Doubled(n: nat)
    requires IsPow2(n)
    ensures IsPow2(2 * n)
  {
    var k: nat :| n == Pow2(k);
    assert 2 * n == Pow2(k + 1);
  }

  // ---- smearing ---------------------------------------------------------

  /** The shifts of reserve: every set bit is copied to the 31 places below it. */
  function Smeared(v: nat): nat {
    var a := Or(v, Shr(v, 1));
    var b := Or(a, Shr(a, 2));
    var c := Or(b, Shr(b, 4));
    var d := Or(c, Shr(c, 8));
    Or(d, Shr(d, 16))
  }

  lemma {:induction false} BitOr(a: nat, b: nat, i: nat)
    ensures Bit(Or(a, b), i) == (Bit(a, i) || Bit(b, i))
  {
    if a == 0 {
      BitZero(i);
    } else if b == 0 {
      BitZero(i);
    } else {
      OrHalf(a, b);
      hide Or;
      if i > 0 {
        BitOr(a / 2, b / 2, i - 1);
      }
    }
  }

  lemma OrHalf(a: nat, b: nat)
    requires a > 0 && b > 0
    ensures Or(a, b) / 2 == Or(a / 2, b / 2)
    ensures Or(a, b) % 2 == 1 <==> a % 2 == 1 || b % 2 == 1
  {
  }

  lemma {:induction false} BitZero(i: nat)
    ensures !Bit(0, i)
  {
    if i > 0 {
      BitZero(i - 1);
    }
  }

  lemma {:induction false} BitShr(a: nat, k: nat, i: nat)
    ensures Bit(Shr(a, k), i) == Bit(a, i + k)
  {
    if k > 0 {
      BitShr(a / 2, k - 1, i);
    }
  }

  /** Some bit of `v` is set at `i` or less than `w` places above it. */
  ghost predicate Near(v: nat, i: nat, w: nat) {
    exists j :: i <= j < i + w && Bit(v, j)
  }

  /** One smearing step doubles the reach. */
  lemma Smear(v: nat, r: nat, w: nat)
    requires forall i: nat :: Bit(r, i) <==> Near(v, i, w)
    ensures forall i: nat :: Bit(Or(r, Shr(r, w)), i) <==> Near(v, i, 2 * w)
  {
    forall i: nat
      ensures Bit(Or(r, Shr(r, w)), i) <==> Near(v, i, 2 * w)
    {
      BitOr(r, Shr(r, w), i);
      BitShr(r, w, i);
      assert Bit(Or(r, Shr(r, w)), i) <==> Near(v, i, w) || Near(v, i + w, w);
      if Near(v, i, 2 * w) {
        var j: nat :| i <= j < i + 2 * w && Bit(v, j);
        if j >= i + w {
          assert Near(v, i + w, w);
        }
      }
    }
  }

  lemma SmearedBits(v: nat)
    ensures forall i: nat :: Bit(Smeared(v), i) <==> Near(v, i, 32)
  {
    var a := Or(v, Shr(v, 1));
    var b := Or(a, Shr(a, 2));
    var c := Or(b, Shr(b, 4));
    var d := Or(c, Shr(c, 8));
    forall i: nat
      ensures Bit(v, i) <==> Near(v, i, 1)
    {
    }
    Smear(v, v, 1);
    Smear(v, a, 2);
    Smear(v, b, 4);
    Smear(v, c, 8);
    Smear(v, d, 16);
  }

  /** All bits below a set bit are set. */
  ghost predicate Closed(r: nat) {
    forall i: nat, j: nat :: i <= j && Bit(r, j) ==> Bit(r, i)
  }

  lemma {:induction false} ClosedIsPow2(r: nat) returns (n: nat)
    requires Closed(r)
    ensures r + 1 == Pow2(n)
  {
    if r == 0 {
      n := 0;
    } else {
      TopBit(r);
      assert Bit(r, 0);
      forall i: nat, j: nat | i <= j && Bit(r / 2, j)
        ensures Bit(r / 2, i)
      {
        assert Bit(r, j + 1);
        assert Bit(r, i + 1);
      }
      var m := ClosedIsPow2(r / 2);
      n := m + 1;
    }
  }

  /** A positive number has a set bit. */
  lemma {:induction false} TopBit(r: nat)
    requires r > 0
    ensures exists j: nat :: Bit(r, j)
  {
    if r % 2 == 1 {
      assert Bit(r, 0);
    } else {
      TopBit(r / 2);
      var j: nat :| Bit(r / 2, j);
      assert Bit(r, j + 1);
    }
  }

  lemma {:induction false} OnesBits(n: nat, i: nat)
    ensures Bit(Pow2(n) - 1, i) <==> i < n
  {
    if n == 0 {
      BitZero(i);
    } else if i > 0 {
      OnesBits(n - 1, i - 1);
    }
  }

  lemma {:induction false} BitBound(v: nat, j: nat)
    ensures Bit(v, j) ==> Pow2(j) <= v
  {
    if j > 0 {
      BitBound(v / 2, j - 1);
    }
  }

  lemma {:induction false} BitsBelow(v: nat, r: nat)
    requires forall i: nat :: Bit(v, i) ==> Bit(r, i)
    ensures v <= r
  {
    if v > 0 {
      TopBit(v);
      var j: nat :| Bit(v, j);
      BitBound(r, j);
      forall i: nat | Bit(v / 2, i)
        ensures Bit(r / 2, i)
      {
        assert Bit(v, i + 1);
        assert Bit(r, i + 1);
      }
      assert Bit(v, 0) ==> Bit(r, 0);
      BitsBelow(v / 2, r / 2);
    }
  }

  lemma {:induction false} Pow2Monotone(a: nat, b: nat)
    ensures a < b <==> Pow2(a) < Pow2(b)
  {
    if a > 0 && b > 0 {
      Pow2Monotone(a - 1, b - 1);
    }
  }

  /** Below every set bit of `v` there is no run of 32 clear bits. */
  ghost predicate NoGap(v: nat) {
    forall i: nat, j: nat :: i <= j && Bit(v, j) ==> Near(v, i, 32)
  }

  /** The capacity reserve computes is a power of two exactly when `capacity - 1` has
      no run of 32 clear bits below a set one; then it is the least that suffices. */
  lemma RoundsUp(capacity: nat)
    requires capacity >= 1
    ensures IsPow2(Smeared(capacity - 1) + 1) <==> NoGap(capacity - 1)
    ensures NoGap(capacity - 1) ==> capacity <= Smeared(capacity - 1) + 1 < 2 * capacity
  {
    var v := capacity - 1;
    var r := Smeared(v);
    hide Smeared;
    SmearedBits(v);
    ClosedNoGap(v, r);
    if NoGap(v) {
      var n := ClosedIsPow2(r);
      forall i: nat | Bit(v, i)
        ensures Bit(r, i)
      {
        assert Near(v, i, 32);
      }
      BitsBelow(v, r);
      LeastPow2(v, r, n);
    } else if IsPow2(r + 1) {
      var n: nat :| r + 1 == Pow2(n);
      forall i: nat, j: nat | i <= j && Bit(r, j)
        ensures Bit(r, i)
      {
        OnesBits(n, i);
        OnesBits(n, j);
      }
      assert false;
    }
  }

  lemma ClosedNoGap(v: nat, r: nat)
    requires forall i: nat :: Bit(r, i) <==> Near(v, i, 32)
    ensures Closed(r) <==> NoGap(v)
  {
    if NoGap(v) {
      forall i: nat, j: nat | i <= j && Bit(r, j)
        ensures Bit(r, i)
      {
        var l: nat :| j <= l < j + 32 && Bit(v, l);
        assert Near(v, i, 32);
      }
    }
    if Closed(r) {
      forall i: nat, j: nat | i <= j && Bit(v, j)
        ensures Near(v, i, 32)
      {
        assert Near(v, j, 32);
        assert Bit(r, j);
      }
    }
  }

  lemma LeastPow2(v: nat, r: nat, n: nat)
    requires forall i: nat :: Bit(r, i) <==> Near(v, i, 32)
    requires r + 1 == Pow2(n)
    ensures r + 1 < 2 * (v + 1)
  {
    if n > 0 {
      OnesBits(n, n - 1);
      var j: nat :| n - 1 <= j < n + 31 && Bit(v, j);
      BitBound(v, j);
      Pow2Monotone(j, n - 1);
    }
  }

  /** Capacities up to 2^32 leave no gap. */
  lemma SmallNoGap(capacity: nat)
    requires 1 <= capacity <= Pow2(32)
    ensures NoGap(capacity - 1)
  {
    var v := capacity - 1;
    forall i: nat, j: nat | i <= j && Bit(v, j)
      ensures Near(v, i, 32)
    {
      BitBound(v, j);
      Pow2Monotone(j, 32);
    }
  }

  lemma {:induction false} Pow2Bits(n: nat, i: nat)
    ensures Bit(Pow2(n), i) <==> i == n
  {
    if n == 0 {
      if i > 0 {
        BitZero(i - 1);
      }
    } else if i > 0 {
      Pow2Bits(n - 1, i - 1);
    }
  }

  /** From 2^32 + 1 on, one more than a power of two is rounded to a number that is
      not a power of two. */
  lemma GapAbove(n: nat)
    requires n >= 32
    ensures !NoGap(Pow2(n)) && !IsPow2(Smeared(Pow2(n)) + 1)
  {
    var v := Pow2(n);
    hide Pow2, Bit, Smeared;
    Pow2Bits(n, n);
    forall j: nat | 0 <= j < 32
      ensures !Bit(v, j)
    {
      Pow2Bits(n, j);
    }
    assert !Near(v, 0, 32);
    RoundsUp(v + 1);
  }
}
