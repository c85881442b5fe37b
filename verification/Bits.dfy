/** Bitwise operations on natural numbers. */
module Bits {

  function Pow2(n: nat): (p: nat)
    ensures p >= 1
  {
    if n == 0 then 1 else 2 * Pow2(n - 1)
  }

  function And(a: nat, b: nat): nat {
    if a == 0 || b == 0 then 0 else 2 * And(a / 2, b / 2) + if a % 2 == 1 && b % 2 == 1 then 1 else 0
  }

  function Xor(a: nat, b: nat): nat {
    if a == 0 then b else if b == 0 then a else 2 * Xor(a / 2, b / 2) + (a % 2 + b % 2) % 2
  }

  /** The number made of the n lowest bits of a. */
  function Low(a: nat, n: nat): nat {
    if n == 0 then 0 else 2 * Low(a / 2, n - 1) + a % 2
  }

  lemma {:induction false} AndBound(a: nat, m: nat)
    ensures And(a, m) <= m
  {
    if a != 0 && m != 0 {
      AndBound(a / 2, m / 2);
    }
  }

  lemma AndHalf(a: nat, m: nat)
    ensures And(a, m) / 2 == And(a / 2, m / 2)
    ensures And(a, m) % 2 == if a % 2 == 1 && m % 2 == 1 then 1 else 0
  {
  }

  lemma XorHalf(a: nat, b: nat)
    ensures Xor(a, b) / 2 == Xor(a / 2, b / 2)
    ensures Xor(a, b) % 2 == (a % 2 + b % 2) % 2
  {
  }

  lemma {:induction false} XorMasked(a: nat, b: nat, m: nat)
    ensures Xor(And(a, m), And(b, m)) <= m
    decreases m
  {
    if m != 0 {
      XorMasked(a / 2, b / 2, m / 2);
      AndHalf(a, m);
      AndHalf(b, m);
      XorHalf(And(a, m), And(b, m));
    }
  }

  /** Masking with n ones keeps the n lowest bits. */
  lemma {:induction false} AndOnes(a: nat, n: nat)
    ensures And(a, Pow2(n) - 1) == Low(a, n)
  {
    if n > 0 {
      AndOnes(a / 2, n - 1);
      assert (Pow2(n) - 1) / 2 == Pow2(n - 1) - 1;
      AndHalf(a, Pow2(n) - 1);
    }
  }

  lemma {:induction false} LowBound(a: nat, n: nat)
    ensures Low(a, n) < Pow2(n)
  {
    if n > 0 {
      LowBound(a / 2, n - 1);
    }
  }

  lemma LowStep(a: nat, bit: nat, n: nat)
    requires bit <= 1 && n > 0
    ensures Low(2 * a + bit, n) == 2 * Low(a, n - 1) + bit
  {
  }

  lemma {:induction false} LowOfLow(a: nat, n: nat, k: nat)
    requires k <= n
    ensures Low(Low(a, n), k) == Low(a, k)
  {
    if k > 0 {
      LowOfLow(a / 2, n - 1, k - 1);
      assert Low(a, n) / 2 == Low(a / 2, n - 1);
    }
  }

  /** Shifting in a bit and cutting off again does not miss the bits cut off before. */
  lemma LowOfShift(v: nat, bit: nat, n: nat)
    requires bit <= 1 && n > 0
    ensures Low(2 * Low(v, n) + bit, n) == Low(2 * v + bit, n)
  {
    LowStep(Low(v, n), bit, n);
    LowStep(v, bit, n);
    LowOfLow(v, n, n - 1);
  }

  lemma Monotone(a: nat, b: nat, p: nat)
    requires a <= b
    ensures a * p <= b * p
  {
    assert b * p == a * p + (b - a) * p;
  }

  lemma NextStretch(a: nat, b: nat, p: nat)
    requires a < b
    ensures a * p + p <= b * p
  {
    Monotone(a + 1, b, p);
    assert (a + 1) * p == a * p + p;
  }

  // ---------------------------------------------------------------- bit by bit

  /** Bit j of a, counted from the lowest. */
  predicate Bit(a: nat, j: nat) {
    if j == 0 then a % 2 == 1 else Bit(a / 2, j - 1)
  }

  lemma {:induction false} AndBit(a: nat, b: nat, j: nat)
    ensures Bit(And(a, b), j) == (Bit(a, j) && Bit(b, j))
  {
    AndHalf(a, b);
    if j > 0 {
      AndBit(a / 2, b / 2, j - 1);
    }
  }

  lemma {:induction false} XorBit(a: nat, b: nat, j: nat)
    ensures Bit(Xor(a, b), j) == (Bit(a, j) != Bit(b, j))
  {
    XorHalf(a, b);
    if j > 0 {
      XorBit(a / 2, b / 2, j - 1);
    }
  }

  /** Numbers with the same bits are the same. */
  lemma {:induction false} SameBits(a: nat, b: nat)
    requires forall j: nat :: Bit(a, j) == Bit(b, j)
    ensures a == b
    decreases a + b
  {
    assert Bit(a, 0) == Bit(b, 0);
    if a != 0 || b != 0 {
      forall j: nat ensures Bit(a / 2, j) == Bit(b / 2, j) {
        assert Bit(a, j + 1) == Bit(b, j + 1);
      }
      SameBits(a / 2, b / 2);
    }
  }
}
