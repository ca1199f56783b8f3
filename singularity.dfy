/**
 * The singularity (Macaulay) bracket <x - a>^n: zero to the left of its origin `a`,
 * zero for the negative "point" exponents, and the plain power (x - a)^n otherwise.
 */
module Singularity {
  import opened Outcomes

  /** b^n for a natural exponent; Pow(0, 0) == 1 as in Python's 0.0 ** 0. */
  function Pow(b: real, n: nat): real
  {
    if n == 0 then 1.0 else b * Pow(b, n - 1)
  }

  lemma {:induction false} PowNonNegative(b: real, n: nat)
    requires 0.0 <= b
    ensures 0.0 <= Pow(b, n)
  {
    if n > 0 {
      PowNonNegative(b, n - 1);
    }
  }

  lemma {:induction false} PowOfZero(n: nat)
    requires n > 0
    ensures Pow(0.0, n) == 0.0
  {
  }

  lemma PowSmall(b: real)
    ensures Pow(b, 0) == 1.0
    ensures Pow(b, 1) == b
    ensures Pow(b, 2) == b * b
    ensures Pow(b, 3) == b * b * b
  {
  }

  /**
   * SingularityFunction(x, a, n). The exponent is validated first (an exponent below -2 is a
   * ValueError whatever x and a are); then a negative shift gives 0, a negative exponent
   * gives 0, and otherwise the result is shift ** n.
   */
  function Sing(x: real, a: real, n: int): (r: Result<real>)
    ensures r.Err? <==> n < -2
    ensures r.Err? ==> r.error.ValueError?
  {
    var shift := x - a;
    if n + 2 < 0 then
      Err(ValueError("Singularity Functions are valid for exponents greater than -2 only."))
    else if shift < 0.0 then
      Ok(0.0)
    else if n < 0 then
      Ok(0.0)
    else
      Ok(Pow(shift, n))
  }

  /** The value of the bracket for an exponent that cannot fail (n >= 0). */
  function Bracket(x: real, a: real, n: nat): (v: real)
  {
    Sing(x, a, n).value
  }

  lemma SingBelowOrigin(x: real, a: real, n: int)
    requires n >= -2
    requires x < a
    ensures Sing(x, a, n) == Ok(0.0)
  {
  }

  lemma SingPointExponents(x: real, a: real, n: int)
    requires -2 <= n < 0
    ensures Sing(x, a, n) == Ok(0.0)
  {
  }

  lemma SingPower(x: real, a: real, n: nat)
    requires x >= a
    ensures Sing(x, a, n) == Ok(Pow(x - a, n))
  {
  }

  /** At the origin itself the bracket is 1 for n = 0 and 0 for n > 0. */
  lemma {:induction false} SingAtOrigin(a: real, n: nat)
    ensures Bracket(a, a, n) == if n == 0 then 1.0 else 0.0
  {
    if n > 0 {
      PowOfZero(n);
    }
  }

  /** n = 0 is the unit step: 0 strictly left of a, 1 from a onwards. */
  lemma UnitStep(x: real, a: real)
    ensures Bracket(x, a, 0) == if x < a then 0.0 else 1.0
  {
  }

  /** The bracket depends only on x - a. */
  lemma Translation(x: real, a: real, d: real, n: int)
    ensures Sing(x + d, a + d, n) == Sing(x, a, n)
  {
    assert (x + d) - (a + d) == x - a;
  }

  /** The bracket is never negative for n >= 0. */
  lemma {:induction false} BracketNonNegative(x: real, a: real, n: nat)
    ensures 0.0 <= Bracket(x, a, n)
  {
    if x >= a {
      PowNonNegative(x - a, n);
    }
  }
}
