/** Python's bit operations on integers, written out arithmetically.
    `Or` and `And` are `|` and `&` on non-negative integers, `Invert` is `~`,
    `LowNibble` is `& 0xF` on any integer (two's complement, so also on the
    negative values `~` produces), and `Pow2(n)` is `1 << n`. */
module Bits {

  /** `1 << n`. */
  function Pow2(n: nat): (p: nat)
    ensures p >= 1
  {
    if n == 0 then 1 else 2 * Pow2(n - 1)
  }

  /** Bit `i` of `x` is 1. */
  predicate BitSet(x: nat, i: nat)
  {
    if i == 0 then x % 2 == 1 else BitSet(x / 2, i - 1)
  }

  /** `a | b`: never below either operand, never above their sum. */
  function Or(a: nat, b: nat): (r: nat)
    ensures a <= r && b <= r
    ensures r <= a + b
    decreases a + b
  {
    if a == 0 then b
    else if b == 0 then a
    else 2 * Or(a / 2, b / 2) + (if a % 2 == 1 || b % 2 == 1 then 1 else 0)
  }

  /** `a & b`: never above either operand. */
  function And(a: nat, b: nat): (r: nat)
    ensures r <= a && r <= b
    decreases a + b
  {
    if a == 0 || b == 0 then 0
    else 2 * And(a / 2, b / 2) + (if a % 2 == 1 && b % 2 == 1 then 1 else 0)
  }

  /** `v & 0xF`: in two's complement the low four bits are `v` modulo 16,
      for negative `v` too (Dafny's `%` is Euclidean). */
  function LowNibble(v: int): (r: nat)
    ensures r < 16
  {
    v % 16
  }

  /** `v & (2m + 1)` keeps bit 0 of `v` and ands the rest with `m`. */
  lemma AndOddStep(v: nat, m: nat)
    ensures And(v, 2 * m + 1) == 2 * And(v / 2, m) + v % 2
  {
  }

  /** `x == 16a + r` with `0 <= r < 16` fixes `x % 16` to `r`. */
  lemma ModSixteenOf(x: nat, a: nat, r: nat)
    requires x == 16 * a + r && r < 16
    ensures x % 16 == r
  {
  }

  /** `v` modulo 16, one bit at a time. */
  lemma ModSixteenBits(v: nat)
    ensures v % 16 == 8 * ((v / 8) % 2) + 4 * ((v / 4) % 2) + 2 * ((v / 2) % 2) + v % 2
  {
    var b0, b1, b2, b3 := v % 2, (v / 2) % 2, (v / 4) % 2, (v / 8) % 2;
    assert v == 2 * (v / 2) + b0;
    assert v / 2 == 2 * (v / 4) + b1;
    assert v / 4 == 2 * (v / 8) + b2;
    assert v / 8 == 2 * (v / 16) + b3;
    ModSixteenOf(v, v / 16, 8 * b3 + 4 * b2 + 2 * b1 + b0);
  }

  /** On naturals, `v & 0xF` computed bit by bit is `v` modulo 16. */
  lemma AndLowNibble(v: nat)
    ensures And(v, 15) == LowNibble(v)
  {
    AndOddStep(v, 7);
    AndOddStep(v / 2, 3);
    AndOddStep(v / 4, 1);
    AndOddStep(v / 8, 0);
    assert v / 2 / 2 == v / 4 && v / 4 / 2 == v / 8;
    ModSixteenBits(v);
  }

  /** `~x`: Python integers behave as infinite two's complement, so `~`
      flips the sign and every one of the low four bits. */
  function Invert(x: int): (r: int)
    ensures x >= 0 <==> r < 0
    ensures LowNibble(r) == 15 - LowNibble(x)
  {
    -x - 1
  }

  lemma {:induction false} NoBitsInZero(i: nat)
    ensures !BitSet(0, i)
  {
    if i > 0 {
      NoBitsInZero(i - 1);
    }
  }

  lemma OrStep(a: nat, b: nat)
    ensures Or(a, b) % 2 == (if a % 2 == 1 || b % 2 == 1 then 1 else 0)
    ensures Or(a, b) / 2 == Or(a / 2, b / 2)
  {
  }

  lemma AndStep(a: nat, b: nat)
    ensures And(a, b) % 2 == (if a % 2 == 1 && b % 2 == 1 then 1 else 0)
    ensures And(a, b) / 2 == And(a / 2, b / 2)
  {
  }

  /** Bit `i` of `a | b` is set exactly when it is set in `a` or in `b`. */
  lemma {:induction false} OrBit(a: nat, b: nat, i: nat)
    ensures BitSet(Or(a, b), i) <==> BitSet(a, i) || BitSet(b, i)
  {
    OrStep(a, b);
    if i > 0 {
      OrBit(a / 2, b / 2, i - 1);
    }
  }

  /** Bit `i` of `a & b` is set exactly when it is set in both. */
  lemma {:induction false} AndBit(a: nat, b: nat, i: nat)
    ensures BitSet(And(a, b), i) <==> BitSet(a, i) && BitSet(b, i)
  {
    AndStep(a, b);
    if i > 0 {
      AndBit(a / 2, b / 2, i - 1);
    }
  }

  /** `1 << n` has exactly bit `n` set. */
  lemma {:induction false} Pow2Bit(n: nat, i: nat)
    ensures BitSet(Pow2(n), i) <==> i == n
  {
    if n == 0 {
      if i > 0 {
        NoBitsInZero(i - 1);
      }
    } else if i > 0 {
      assert Pow2(n) / 2 == Pow2(n - 1);
      Pow2Bit(n - 1, i - 1);
    }
  }

  /** `m & (1 << i)` is non-zero exactly when bit `i` of `m` is set. */
  lemma {:induction false} AndPow2(m: nat, i: nat)
    ensures And(m, Pow2(i)) != 0 <==> BitSet(m, i)
  {
    if m == 0 {
      NoBitsInZero(i);
    } else if i > 0 {
      assert And(m, Pow2(i)) == 2 * And(m / 2, Pow2(i - 1));
      AndPow2(m / 2, i - 1);
    }
  }

  /** Two numbers below `2^k` with the same `k` low bits are equal. */
  lemma {:induction false} BitsDetermine(a: nat, b: nat, k: nat)
    requires a < Pow2(k) && b < Pow2(k)
    requires forall j | 0 <= j < k :: BitSet(a, j) == BitSet(b, j)
    ensures a == b
  {
    if k > 0 {
      assert BitSet(a, 0) == BitSet(b, 0);
      forall j | 0 <= j < k - 1
        ensures BitSet(a / 2, j) == BitSet(b / 2, j)
      {
        assert BitSet(a, j + 1) == BitSet(b, j + 1);
      }
      BitsDetermine(a / 2, b / 2, k - 1);
    }
  }

  /** `|` of two numbers below `2^k` stays below `2^k`. */
  lemma {:induction false} OrBound(a: nat, b: nat, k: nat)
    requires a < Pow2(k) && b < Pow2(k)
    ensures Or(a, b) < Pow2(k)
  {
    if a != 0 && b != 0 {
      OrBound(a / 2, b / 2, k - 1);
    }
  }
}
