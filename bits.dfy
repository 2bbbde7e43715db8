/** Unsigned bitwise arithmetic on natural numbers: the `&`, `|`, `<<` and `>>`
    operators of C applied to unsigned operands, defined bit by bit from the
    least significant bit up, with the facts that connect them to `*` and `+`. */
module Bits {

  /** 2 to the power k. */
  function Pow2(k: nat): (r: nat)
    ensures r >= 1
  {
    if k == 0 then 1 else 2 * Pow2(k - 1)
  }

  /** `a << k`, on an operand wide enough to hold the result. */
  function ShiftLeft(a: nat, k: nat): nat
  {
    a * Pow2(k)
  }

  /** `a >> k`: drop the k low bits. */
  function ShiftRight(a: nat, k: nat): nat
  {
    if k == 0 then a else ShiftRight(a / 2, k - 1)
  }

  /** The k low bits of a, as a number. */
  function LowBits(a: nat, k: nat): nat
  {
    if k == 0 then 0 else 2 * LowBits(a / 2, k - 1) + a % 2
  }

  /** Bitwise AND. */
  function And(a: nat, b: nat): nat
    decreases a
  {
    if a == 0 || b == 0 then 0
    else 2 * And(a / 2, b / 2) + (if a % 2 == 1 && b % 2 == 1 then 1 else 0)
  }

  /** Bitwise OR. */
  function Or(a: nat, b: nat): nat
    decreases a
  {
    if a == 0 then b
    else if b == 0 then a
    else 2 * Or(a / 2, b / 2) + (if a % 2 == 1 || b % 2 == 1 then 1 else 0)
  }

  lemma MulTwice(x: nat, p: nat)
    ensures 2 * (x * p) == x * (2 * p)
  {
  }

  /** Halving an even number. */
  lemma HalfOfDouble(a: nat, h: nat)
    requires a == 2 * h
    ensures a / 2 == h && a % 2 == 0
  {
  }

  /** A positive multiple of m is at least m. */
  lemma MulAtLeast(m: nat, d: nat)
    requires d >= 1
    ensures m * d >= m
  {
  }

  /** Quotient and remainder are determined by the division equation. */
  lemma DivModUnique(a: nat, m: nat, q: nat, r: nat)
    requires r < m
    requires a == m * q + r
    ensures a / m == q && a % m == r
  {
    var q', r' := a / m, a % m;
    assert m * q' + r' == m * q + r;
    if q' < q {
      assert m * q - m * q' == m * (q - q');
      MulAtLeast(m, q - q');
    } else if q' > q {
      assert m * q' - m * q == m * (q' - q);
      MulAtLeast(m, q' - q);
    }
  }

  /** Every number splits into its bits above k and its k low bits. */
  lemma {:induction false} SplitAt(a: nat, k: nat)
    ensures a == ShiftRight(a, k) * Pow2(k) + LowBits(a, k)
    ensures LowBits(a, k) < Pow2(k)
  {
    if k > 0 {
      SplitAt(a / 2, k - 1);
      MulTwice(ShiftRight(a / 2, k - 1), Pow2(k - 1));
    }
  }

  /** Shifting right by i and then by j shifts right by i + j. */
  lemma {:induction false} ShiftShift(a: nat, i: nat, j: nat)
    ensures ShiftRight(ShiftRight(a, i), j) == ShiftRight(a, i + j)
  {
    if i > 0 {
      ShiftShift(a / 2, i - 1, j);
    }
  }

  /** Shifting a number below 2^k right by k leaves nothing. */
  lemma {:induction false} ShiftRightSmall(a: nat, k: nat)
    requires a < Pow2(k)
    ensures ShiftRight(a, k) == 0
  {
    if k > 0 {
      ShiftRightSmall(a / 2, k - 1);
    }
  }

  /** `(x << k) >> k == x`. */
  lemma {:induction false} ShiftRightLeft(x: nat, k: nat)
    ensures ShiftRight(x * Pow2(k), k) == x
  {
    if k > 0 {
      MulTwice(x, Pow2(k - 1));
      HalfOfDouble(x * Pow2(k), x * Pow2(k - 1));
      ShiftRightLeft(x, k - 1);
    }
  }

  /** `a & (2^n - 1)` keeps the n low bits of a. */
  lemma {:induction false} AndLowMask(a: nat, n: nat)
    ensures And(a, Pow2(n) - 1) == LowBits(a, n)
  {
    if n == 0 {
    } else if a == 0 {
      AndLowMask(0, n - 1);
    } else {
      var b := Pow2(n) - 1;
      assert b % 2 == 1 && b / 2 == Pow2(n - 1) - 1;
      AndLowMask(a / 2, n - 1);
    }
  }

  /** `a & (m << k)` is `(a >> k) & m` shifted back into place. */
  lemma {:induction false} AndShiftedMask(a: nat, m: nat, k: nat)
    ensures And(a, m * Pow2(k)) == And(ShiftRight(a, k), m) * Pow2(k)
  {
    if k == 0 {
    } else if m == 0 || a == 0 {
      if a == 0 {
        ShiftRightSmall(0, k);
      }
    } else {
      var p := Pow2(k - 1);
      var mp := m * p;
      MulTwice(m, p);
      HalfOfDouble(m * Pow2(k), mp);
      assert And(a, m * Pow2(k)) == 2 * And(a / 2, mp);
      AndShiftedMask(a / 2, m, k - 1);
      var x := And(ShiftRight(a, k), m);
      assert And(a / 2, mp) == x * p;
      MulTwice(x, p);
    }
  }

  /** `(hi << k) | lo` is `hi * 2^k + lo` when lo fits in the k low bits. */
  lemma {:induction false} OrDisjoint(hi: nat, lo: nat, k: nat)
    requires lo < Pow2(k)
    ensures Or(ShiftLeft(hi, k), lo) == hi * Pow2(k) + lo
  {
    if k == 0 || hi == 0 || lo == 0 {
    } else {
      var p := Pow2(k - 1);
      MulTwice(hi, p);
      HalfOfDouble(hi * Pow2(k), hi * p);
      OrDisjoint(hi, lo / 2, k - 1);
      assert Or(hi * Pow2(k), lo) == 2 * Or(hi * p, lo / 2) + lo % 2;
    }
  }

  /** The C idiom `(w & (0xF << k)) >> k` extracts the four bits of w at
      positions k+3..k. */
  lemma NibbleAt(w: nat, k: nat)
    ensures ShiftRight(And(w, 15 * Pow2(k)), k) == LowBits(ShiftRight(w, k), 4)
  {
    AndShiftedMask(w, 15, k);
    ShiftRightLeft(And(ShiftRight(w, k), 15), k);
    assert Pow2(4) - 1 == 15;
    AndLowMask(ShiftRight(w, k), 4);
  }
}
