/**
 * Counting the set bits of a `bv32`.
 *
 * The count peels off bit 0 and halves, so every step is a constant shift.
 * The facts needed about board masks are inclusion-exclusion, that a single
 * bit counts one, and the consequence that clearing one set bit and setting
 * one clear bit keeps the count.
 */
module BitCount {
  import opened Masks

  /** 1 when bit 0 of `m` is set, else 0. */
  function LowBit(m: bv32): nat {
    if m & 1 == 1 then 1 else 0
  }

  /** Number of set bits among the lowest `n` positions of `m`. */
  function CountLow(m: bv32, n: nat): nat {
    if n == 0 then 0 else LowBit(m) + CountLow(m >> 1, n - 1)
  }

  /** The number of set bits of `m`. */
  function Popcount(m: bv32): nat {
    CountLow(m, 32)
  }

  lemma CountStep(m: bv32, m1: bv32, n: nat)
    requires n > 0 && m1 == m >> 1
    ensures CountLow(m, n) == LowBit(m) + CountLow(m1, n - 1)
  {
  }

  lemma HalveBoth(a: bv32, b: bv32, u: bv32, i: bv32, a1: bv32, b1: bv32, u1: bv32, i1: bv32)
    requires u == a | b && i == a & b
    requires a1 == a >> 1 && b1 == b >> 1 && u1 == u >> 1 && i1 == i >> 1
    ensures u1 == a1 | b1 && i1 == a1 & b1
  {
  }

  lemma LowBitUnion(a: bv32, b: bv32, u: bv32, i: bv32)
    requires u == a | b && i == a & b
    ensures LowBit(u) + LowBit(i) == LowBit(a) + LowBit(b)
  {
  }

  /** Inclusion-exclusion for set bits. */
  lemma {:induction false} CountUnion(a: bv32, b: bv32, u: bv32, i: bv32, n: nat)
    requires u == a | b && i == a & b
    ensures CountLow(u, n) + CountLow(i, n) == CountLow(a, n) + CountLow(b, n)
  {
    if n > 0 {
      var a1, b1, u1, i1 := a >> 1, b >> 1, u >> 1, i >> 1;
      HalveBoth(a, b, u, i, a1, b1, u1, i1);
      LowBitUnion(a, b, u, i);
      CountUnion(a1, b1, u1, i1, n - 1);
      CountStep(u, u1, n);
      CountStep(i, i1, n);
      CountStep(a, a1, n);
      CountStep(b, b1, n);
    }
  }

  lemma {:induction false} CountZero(m: bv32, n: nat)
    requires m == 0
    ensures CountLow(m, n) == 0
  {
    if n > 0 {
      CountStep(m, m >> 1, n);
      CountZero(m >> 1, n - 1);
    }
  }

  lemma SingleHalf(x: bv32, x1: bv32)
    requires IsSingleBit(x) && x1 == x >> 1
    ensures x & 1 == 1 ==> x1 == 0
    ensures x & 1 != 1 ==> IsSingleBit(x1)
  {
  }

  /** The `n`-th halving of `m`. */
  function Halve(m: bv32, n: nat): bv32 {
    if n == 0 then m else Halve(m >> 1, n - 1)
  }

  lemma {:induction false} CountSingle(x: bv32, n: nat)
    requires IsSingleBit(x)
    ensures CountLow(x, n) == if Halve(x, n) == 0 then 1 else 0
  {
    if n > 0 {
      var x1 := x >> 1;
      SingleHalf(x, x1);
      CountStep(x, x1, n);
      assert Halve(x, n) == Halve(x1, n - 1);
      if x & 1 == 1 {
        CountZero(x1, n - 1);
        HalveZero(x1, n - 1);
      } else {
        CountSingle(x1, n - 1);
      }
    }
  }

  lemma {:induction false} HalveZero(m: bv32, n: nat)
    requires m == 0
    ensures Halve(m, n) == 0
  {
    if n > 0 {
      HalveZero(m >> 1, n - 1);
    }
  }

  lemma {:induction false} HalveAdd(m: bv32, a: nat, b: nat)
    ensures Halve(m, a + b) == Halve(Halve(m, a), b)
  {
    if a > 0 {
      HalveAdd(m >> 1, a - 1, b);
    }
  }

  lemma HalveBy1(m: bv32)
    ensures Halve(m, 1) == m >> 1
  {
  }

  lemma HalveBy2(m: bv32)
    ensures Halve(m, 2) == m >> 2
  {
    var s := m >> 1;
    HalveBy1(m);
    HalveBy1(s);
    HalveAdd(m, 1, 1);
    Shift1(m, s);
  }

  lemma HalveBy4(m: bv32)
    ensures Halve(m, 4) == m >> 4
  {
    var s := m >> 2;
    HalveBy2(m);
    HalveBy2(s);
    HalveAdd(m, 2, 2);
    Shift2(m, s);
  }

  lemma HalveBy8(m: bv32)
    ensures Halve(m, 8) == m >> 8
  {
    var s := m >> 4;
    HalveBy4(m);
    HalveBy4(s);
    HalveAdd(m, 4, 4);
    Shift4(m, s);
  }

  lemma HalveBy16(m: bv32)
    ensures Halve(m, 16) == m >> 16
  {
    var s := m >> 8;
    HalveBy8(m);
    HalveBy8(s);
    HalveAdd(m, 8, 8);
    Shift8(m, s);
  }

  /** Thirty-two halvings clear every bit. */
  lemma HalveAll(m: bv32)
    ensures Halve(m, 32) == 0
  {
    var s := m >> 16;
    HalveBy16(m);
    HalveBy16(s);
    HalveAdd(m, 16, 16);
    Shift16(m, s);
  }

  lemma PopcountSingle(x: bv32)
    requires IsSingleBit(x)
    ensures Popcount(x) == 1
  {
    CountSingle(x, 32);
    HalveAll(x);
  }

  lemma Shift1(m: bv32, s: bv32)
    requires s == m >> 1
    ensures s >> 1 == m >> 2
  {
  }
  lemma Shift2(m: bv32, s: bv32)
    requires s == m >> 2
    ensures s >> 2 == m >> 4
  {
  }
  lemma Shift4(m: bv32, s: bv32)
    requires s == m >> 4
    ensures s >> 4 == m >> 8
  {
  }
  lemma Shift8(m: bv32, s: bv32)
    requires s == m >> 8
    ensures s >> 8 == m >> 16
  {
  }
  lemma Shift16(m: bv32, s: bv32)
    requires s == m >> 16
    ensures s >> 16 == 0
  {
  }

  lemma SwapParts(p: bv32, x: bv32, y: bv32, r: bv32, q: bv32)
    requires IsSingleBit(x) && x & p != 0 && y & p == 0 && r == p ^ x && q == (p ^ x) | y
    ensures p == r | x && 0 == r & x
    ensures q == r | y && 0 == r & y
  {
  }

  lemma SwapKeepsCount(p: bv32, x: bv32, y: bv32)
    requires IsSingleBit(x) && x & p != 0
    requires IsSingleBit(y) && y & p == 0
    ensures Popcount((p ^ x) | y) == Popcount(p)
  {
    var r := p ^ x;
    var q := r | y;
    SwapParts(p, x, y, r, q);
    CountUnion(r, x, p, 0, 32);
    CountUnion(r, y, q, 0, 32);
    CountZero(0, 32);
    PopcountSingle(x);
    PopcountSingle(y);
  }
}
