/** Shifts, masks and unions of bits on numbers, and the arithmetic that they come to. */
module Bits {

  function Shl(a: nat, k: nat): nat {
    if k == 0 then a else 2 * Shl(a, k - 1)
  }

  function Shr(a: nat, k: nat): nat {
    if k == 0 then a else Shr(a / 2, k - 1)
  }

  function And(a: nat, b: nat): nat
    decreases a
  {
    if a == 0 then 0
    else (if a % 2 == 1 && b % 2 == 1 then 1 else 0) + 2 * And(a / 2, b / 2)
  }

  function Or(a: nat, b: nat): nat
    decreases a + b
  {
    if a == 0 && b == 0 then 0
    else (if a % 2 == 1 || b % 2 == 1 then 1 else 0) + 2 * Or(a / 2, b / 2)
  }

  /** The `k` lowest bits. */
  function Low(a: nat, k: nat): nat {
    if k == 0 then 0 else a % 2 + 2 * Low(a / 2, k - 1)
  }

  lemma {:induction false} AndZero(a: nat)
    ensures And(a, 0) == 0
  {
    if a > 0 { AndZero(a / 2); }
  }

  lemma {:induction false} OrZero(a: nat)
    ensures Or(a, 0) == a
  {
    if a > 0 { OrZero(a / 2); }
  }

  lemma ShlHalves(a: nat, k: nat)
    requires k > 0
    ensures Shl(a, k) / 2 == Shl(a, k - 1) && Shl(a, k) % 2 == 0
  {
  }

  /** Masking with ones keeps the low bits. */
  lemma {:induction false} MaskIsLow(a: nat, m: nat, k: nat)
    requires m + 1 == Shl(1, k)
    ensures And(a, m) == Low(a, k)
    decreases k
  {
    if k == 0 {
      AndZero(a);
    } else {
      ShlHalves(1, k);
      assert m % 2 == 1 && m / 2 + 1 == Shl(1, k - 1);
      MaskIsLow(a / 2, m / 2, k - 1);
    }
  }

  lemma {:induction false} AndShl(a: nat, m: nat, k: nat)
    ensures And(a, Shl(m, k)) == Shl(And(Shr(a, k), m), k)
    decreases k
  {
    if k > 0 {
      ShlHalves(m, k);
      AndShl(a / 2, m, k - 1);
    }
  }

  /** The union of bits that do not overlap is their sum. */
  lemma {:induction false} OrIsSum(a: nat, b: nat, k: nat)
    requires b < Shl(1, k)
    ensures Or(Shl(a, k), b) == Shl(a, k) + b
    decreases k
  {
    if k == 0 {
      OrZero(a);
    } else {
      ShlHalves(a, k);
      ShlHalves(1, k);
      OrIsSum(a, b / 2, k - 1);
    }
  }

  lemma {:induction false} Splits(q: nat, r: nat, k: nat)
    requires r < Shl(1, k)
    ensures Shr(Shl(q, k) + r, k) == q && Low(Shl(q, k) + r, k) == r
    decreases k
  {
    if k > 0 {
      ShlHalves(q, k);
      ShlHalves(1, k);
      Splits(q, r / 2, k - 1);
      assert (Shl(q, k) + r) / 2 == Shl(q, k - 1) + r / 2;
    }
  }

  lemma ShlTable(a: nat)
    ensures Shl(a, 1) == 2 * a && Shl(a, 2) == 4 * a && Shl(a, 3) == 8 * a
    ensures Shl(a, 4) == 16 * a && Shl(a, 5) == 32 * a && Shl(a, 6) == 64 * a
  {
    assert Shl(a, 0) == a;
  }

  /** Shifting right is dividing, and masking with ones is the remainder. */
  lemma Divides(q: nat, r: nat, k: nat, n: nat)
    requires n == Shl(1, k) && r < n
    ensures Shr(Shl(q, k) + r, k) == q && And(Shl(q, k) + r, n - 1) == r
  {
    Splits(q, r, k);
    MaskIsLow(Shl(q, k) + r, n - 1, k);
  }

  lemma SixBits(a: nat)
    ensures Shl(a, 6) == 64 * a && Shr(a, 6) == a / 64 && And(a, 0x3f) == a % 64
  {
    ShlTable(1);
    ShlTable(a);
    ShlTable(a / 64);
    Divides(a / 64, a % 64, 6, 64);
  }

  lemma Masks(a: nat)
    ensures And(a, 1) == a % 2 && And(a, 3) == a % 4 && And(a, 7) == a % 8
    ensures And(a, 0xf) == a % 16 && And(a, 0x1f) == a % 32
  {
    ShlTable(1);
    Mask(a / 2, a % 2, 1, 2, a);
    Mask(a / 4, a % 4, 2, 4, a);
    Mask(a / 8, a % 8, 3, 8, a);
    Mask(a / 16, a % 16, 4, 16, a);
    Mask(a / 32, a % 32, 5, 32, a);
  }

  lemma Mask(q: nat, r: nat, k: nat, n: nat, a: nat)
    requires n == Shl(1, k) && r < n && 1 <= k <= 5
    requires a == [2 * q, 4 * q, 8 * q, 16 * q, 32 * q][k - 1] + r
    ensures And(a, n - 1) == r
  {
    ShlTable(q);
    Divides(q, r, k, n);
  }
}
