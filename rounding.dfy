/**
 * Integer model of Python's built-in `round` applied to an exact quotient:
 * `round(num / den)` rounds to the nearest integer and, on an exact half,
 * to the even neighbour ("banker's rounding").
 */
module Rounding {

  function Abs(x: int): (r: nat)
    ensures r == x || r == -x
  {
    if x < 0 then -x else x
  }

  /** Round-half-to-even of num / den for a positive denominator. */
  function RoundHalfEvenPos(num: int, den: int): (r: int)
    requires den > 0
    ensures Abs(2 * (r * den - num)) <= den
    ensures Abs(2 * (r * den - num)) == den ==> r % 2 == 0
  {
    var q, m := num / den, num % den;
    assert num == q * den + m;
    assert (q + 1) * den == q * den + den;
    if 2 * m < den then q
    else if 2 * m > den then q + 1
    else if q % 2 == 0 then q
    else q + 1
  }

  /**
   * Round-half-to-even of the rational num / den: the result is within half of
   * the quotient, and even when the quotient lies exactly half-way.
   */
  function RoundHalfEven(num: int, den: int): (r: int)
    requires den != 0
    ensures Abs(2 * (r * den - num)) <= Abs(den)
    ensures Abs(2 * (r * den - num)) == Abs(den) ==> r % 2 == 0
  {
    if den > 0 then RoundHalfEvenPos(num, den)
    else
      var r := RoundHalfEvenPos(-num, -den);
      MulNeg(r, den);
      r
  }

  lemma MulNeg(a: int, b: int)
    ensures a * (-b) == -(a * b)
  {
  }

  lemma MulAbs(a: int, b: int)
    ensures Abs(a * b) == Abs(a) * Abs(b)
  {
    if a < 0 && b < 0 {
      assert a * b == (-a) * (-b);
    } else if a < 0 {
      assert -(a * b) == (-a) * b;
    } else if b < 0 {
      assert -(a * b) == a * (-b);
    }
  }

  /** An integer multiple k * d with |k| >= 2 is at least twice as large as d. */
  lemma MulAtLeastTwice(k: int, d: int)
    requires Abs(k) >= 2
    ensures Abs(k * d) >= 2 * Abs(d)
  {
    MulAbs(k, d);
    var c: nat := Abs(k) - 1;
    assert Abs(k) * Abs(d) == c * Abs(d) + Abs(d);
    MulNatBound(c, Abs(d));
  }

  lemma MulNatBound(a: nat, b: nat)
    requires a >= 1
    ensures a * b >= b
  {
    var c: nat := a - 1;
    assert a * b == c * b + b;
    assert c * b >= 0;
  }

  /** A non-zero integer multiple of d is at least as large as d. */
  lemma MulAtLeastOnce(k: int, d: int)
    requires k != 0
    ensures Abs(k * d) >= Abs(d)
  {
    MulAbs(k, d);
    MulNatBound(Abs(k), Abs(d));
  }

  lemma MulSub(k: int, r: int, d: int)
    ensures (k - r) * d == k * d - r * d
  {
  }

  /** Two neighbouring integers are never both even. */
  lemma NeighboursNotBothEven(k: int, r: int)
    requires Abs(k - r) == 1
    ensures k % 2 != 0 || r % 2 != 0
  {
  }

  /**
   * Two integers whose errors ek = k * d - num and er = r * d - num are both
   * within half of d, and even on a tie, are equal.
   */
  lemma HalfErrorsAgree(k: int, r: int, d: int, ek: int, er: int)
    requires d != 0
    requires (k - r) * d == ek - er
    requires Abs(2 * ek) <= Abs(d) && Abs(2 * er) <= Abs(d)
    requires Abs(2 * ek) == Abs(d) ==> k % 2 == 0
    requires Abs(2 * er) == Abs(d) ==> r % 2 == 0
    ensures k == r
  {
    if Abs(k - r) >= 2 {
      MulAtLeastTwice(k - r, d);
      assert false;
    } else if k != r {
      MulAbs(k - r, d);
      NeighboursNotBothEven(k, r);
      assert false;
    }
  }

  /**
   * The two properties in the contract of RoundHalfEven determine it: any k
   * within half of num / den that is even on a tie is the rounded value.
   */
  lemma RoundHalfEvenUnique(num: int, den: int, k: int)
    requires den != 0
    requires Abs(2 * (k * den - num)) <= Abs(den)
    requires Abs(2 * (k * den - num)) == Abs(den) ==> k % 2 == 0
    ensures k == RoundHalfEven(num, den)
  {
    var r := RoundHalfEven(num, den);
    MulSub(k, r, den);
    HalfErrorsAgree(k, r, den, k * den - num, r * den - num);
  }

  /** Moving an error er by a step m at least as large as d cannot bring it below |er| when |2 * er| <= |d|. */
  lemma StepKeepsError(d: int, er: int, m: int)
    requires Abs(m) >= Abs(d) && Abs(2 * er) <= Abs(d)
    ensures Abs(er) <= Abs(er + m)
  {
  }

  /** No integer is strictly closer to num / den than its rounded value. */
  lemma RoundHalfEvenNearest(num: int, den: int, k: int)
    requires den != 0
    ensures Abs(RoundHalfEven(num, den) * den - num) <= Abs(k * den - num)
  {
    var r := RoundHalfEven(num, den);
    if k != r {
      MulSub(k, r, den);
      MulAtLeastOnce(k - r, den);
      StepKeepsError(den, r * den - num, (k - r) * den);
    }
  }

  /** A non-negative quotient rounds to a non-negative integer. */
  lemma RoundHalfEvenNonNegative(num: int, den: int)
    requires num >= 0 && den > 0
    ensures RoundHalfEven(num, den) >= 0
  {
    assert num / den >= 0;
  }

  /** An exact quotient is its own rounding. */
  lemma RoundHalfEvenExact(q: int, den: int)
    requires den != 0
    ensures RoundHalfEven(q * den, den) == q
  {
    RoundHalfEvenUnique(q * den, den, q);
  }
}
