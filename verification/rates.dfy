/**
  Annualisation of the monthly internal rate of return (main.py, line 65):
  `tir_anual = (1 + tir_mensal) ** 12 - 1`, or `None` when the monthly rate
  is `None`. The monthly rate itself comes from an external root solver and
  is an input here.
*/
module Rates {
  import opened Wrappers

  /** `x ** n` for a natural exponent. */
  function Pow(x: real, n: nat): real
  {
    if n == 0 then 1.0 else x * Pow(x, n - 1)
  }

  /** Twelve months of compounding at the monthly rate, as a yearly rate; defined exactly when the monthly rate is. */
  function AnnualRate(monthly: Option<real>): (r: Option<real>)
    ensures r.Some? <==> monthly.Some?
  {
    match monthly
    case None => None
    case Some(m) => Some(Pow(1.0 + m, 12) - 1.0)
  }

  /** A product of non-negative factors is non-negative. */
  lemma {:induction false} PowNonNegative(x: real, n: nat)
    requires x >= 0.0
    ensures Pow(x, n) >= 0.0
  {
    if n > 0 {
      PowNonNegative(x, n - 1);
    }
  }

  /** Bernoulli's inequality: compounding never yields less than simple interest. */
  lemma {:induction false} Bernoulli(x: real, n: nat)
    requires x >= -1.0
    ensures Pow(1.0 + x, n) >= 1.0 + (n as real) * x
  {
    if n > 0 {
      Bernoulli(x, n - 1);
      var p := Pow(1.0 + x, n - 1);
      var k := (n - 1) as real;
      assert p >= 1.0 + k * x;
      MulMonotone(1.0 + x, p, 1.0 + k * x);
      assert (1.0 + x) * (1.0 + k * x) == 1.0 + (k + 1.0) * x + k * x * x;
      assert k * x * x >= 0.0;
    }
  }

  /** Powers of a base in [0, 1) stay in [0, 1) once the exponent is positive. */
  lemma {:induction false} PowBelowOne(b: real, n: nat)
    requires 0.0 <= b < 1.0 && n >= 1
    ensures 0.0 <= Pow(b, n) < 1.0
  {
    if n > 1 {
      PowBelowOne(b, n - 1);
      var p := Pow(b, n - 1);
      MulMonotone(p, 1.0, b);
      MulMonotone(b, 1.0, p);
      assert Pow(b, n) == b * p;
    } else {
      assert Pow(b, n) == b * Pow(b, 0);
    }
  }

  /**
    The yearly rate keeps the sign of the monthly rate, is never below -100%
    when the monthly rate is not, and is at least twelve times the monthly rate.
  */
  lemma AnnualRateBounds(m: real)
    requires m >= -1.0
    ensures AnnualRate(Some(m)).value >= 12.0 * m
    ensures AnnualRate(Some(m)).value >= -1.0
    ensures m > 0.0 ==> AnnualRate(Some(m)).value > 0.0
    ensures m == 0.0 ==> AnnualRate(Some(m)).value == 0.0
    ensures m < 0.0 ==> AnnualRate(Some(m)).value < 0.0
  {
    Bernoulli(m, 12);
    PowNonNegative(1.0 + m, 12);
    if m < 0.0 {
      PowBelowOne(1.0 + m, 12);
    }
    if m == 0.0 {
      PowOne(12);
    }
  }

  /** Multiplying by a non-negative factor keeps an inequality. */
  lemma MulMonotone(a: real, p: real, q: real)
    requires a >= 0.0 && p >= q
    ensures a * p >= a * q
  {
  }

  /** One to any power is one. */
  lemma {:induction false} PowOne(n: nat)
    ensures Pow(1.0, n) == 1.0
  {
    if n > 0 {
      PowOne(n - 1);
    }
  }
}
