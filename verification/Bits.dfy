/** Shifts and bitwise OR/AND on unbounded non-negative integers, as Python
    computes them, with the laws that packing disjoint bit fields needs. */
module Bits {
  function Pow2(k: nat): (p: nat)
    ensures p > 0
  {
    if k == 0 then 1 else 2 * Pow2(k - 1)
  }

  function Shl(a: nat, k: nat): nat { a * Pow2(k) }

  function Shr(a: nat, k: nat): nat {
    if k == 0 then a else Shr(a / 2, k - 1)
  }

  function BitOr(a: nat, b: nat): nat {
    if a == 0 then b
    else if b == 0 then a
    else 2 * BitOr(a / 2, b / 2) + (if a % 2 == 1 || b % 2 == 1 then 1 else 0)
  }

  function BitAnd(a: nat, b: nat): nat {
    if a == 0 || b == 0 then 0
    else 2 * BitAnd(a / 2, b / 2) + (if a % 2 == 1 && b % 2 == 1 then 1 else 0)
  }

  lemma Pow2Values()
    ensures Pow2(5) == 32 && Pow2(12) == 4096 && Pow2(17) == 131072 && Pow2(22) == 4194304
    ensures Pow2(41) == 2199023255552 && Pow2(63) == 9223372036854775808
  {
    assert Pow2(10) == 1024;
    assert Pow2(20) == 1048576;
    assert Pow2(30) == 1073741824;
    assert Pow2(40) == 1099511627776;
    assert Pow2(50) == 1125899906842624;
    assert Pow2(60) == 1152921504606846976;
  }

  lemma HalfShift(a: nat, k: nat)
    requires k > 0
    ensures Shl(a, k) == 2 * Shl(a, k - 1)
  {
    assert a * (2 * Pow2(k - 1)) == 2 * (a * Pow2(k - 1));
  }

  /** A field shifted above another is joined to it by addition. */
  lemma {:induction false} OrIsSum(a: nat, k: nat, b: nat)
    requires b < Pow2(k)
    ensures BitOr(Shl(a, k), b) == Shl(a, k) + b
  {
    if k == 0 {
      assert Shl(a, 0) == a;
    } else if a == 0 {
      assert Shl(0, k) == 0;
    } else {
      HalfShift(a, k);
      OrIsSum(a, k - 1, b / 2);
      assert Shl(a, k) / 2 == Shl(a, k - 1);
      assert Shl(a, k) % 2 == 0;
    }
  }

  /** Masking with k ones is the remainder modulo 2^k. */
  lemma {:induction false} AndIsMod(a: nat, k: nat)
    ensures BitAnd(a, Pow2(k) - 1) == a % Pow2(k)
  {
    if k > 0 {
      var m := Pow2(k - 1);
      AndIsMod(a / 2, k - 1);
      assert (2 * m - 1) / 2 == m - 1;
      SplitMod(a, m);
    }
  }

  /** Shifting right is division by 2^k. */
  lemma {:induction false} ShrIsDiv(a: nat, k: nat)
    ensures Shr(a, k) == a / Pow2(k)
  {
    if k > 0 {
      ShrIsDiv(a / 2, k - 1);
      SplitMod(a, Pow2(k - 1));
    }
  }

  lemma SplitMod(a: nat, m: nat)
    requires m > 0
    ensures a % (2 * m) == 2 * ((a / 2) % m) + a % 2
    ensures a / (2 * m) == (a / 2) / m
  {
    var q, r := (a / 2) / m, (a / 2) % m;
    assert a == 2 * (a / 2) + a % 2;
    assert a / 2 == q * m + r;
    assert a == q * (2 * m) + (2 * r + a % 2);
    Remainder(a, 2 * m, q, 2 * r + a % 2);
  }

  lemma AndIsModOf(a: nat, k: nat, p: nat)
    requires p == Pow2(k)
    ensures BitAnd(a, p - 1) == a % p
  {
    AndIsMod(a, k);
  }

  /** Quotient and remainder are the only ones. */
  lemma Remainder(a: nat, d: nat, q: nat, r: nat)
    requires d > 0 && r < d && a == q * d + r
    ensures a / d == q && a % d == r
  {
    var x := a / d - q;
    assert a == (a / d) * d + a % d;
    assert (a / d) * d == x * d + q * d by {
      assert a / d == x + q;
    }
  }
}
