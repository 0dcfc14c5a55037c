/**
 * `calculate_emi` (ChatOrchestrator.py, lines 44-46): the equated monthly
 * installment p * r * (1 + r)^n / ((1 + r)^n - 1) with r the monthly rate,
 * truncated toward zero by `int(...)`.  The source computes in binary floating
 * point; this model computes over exact reals, so it approximates the source.
 */
module Emi {

  /** x raised to a natural power. */
  function Pow(x: real, n: nat): real {
    if n == 0 then 1.0 else x * Pow(x, n - 1)
  }

  /** Bernoulli's inequality for a positive base increment: (1 + r)^n >= 1 + n * r. */
  lemma {:induction false} Bernoulli(r: real, n: nat)
    requires r > 0.0
    ensures Pow(1.0 + r, n) >= 1.0 + (n as real) * r
  {
    if n > 0 {
      Bernoulli(r, n - 1);
      var q := Pow(1.0 + r, n - 1);
      var m := (n - 1) as real;
      MulNonNegative(m, r);
      assert q >= 1.0;
      MulNonNegative(r, q - 1.0);
      assert Pow(1.0 + r, n) == q + r * q;
      assert (n as real) * r == m * r + r;
    }
  }

  lemma MulNonNegative(a: real, b: real)
    requires a >= 0.0 && b >= 0.0
    ensures a * b >= 0.0
  {
  }

  lemma NonNegativeFactor(x: real, d: real)
    requires d > 0.0 && x * d >= 0.0
    ensures x >= 0.0
  {
  }

  /** Real division, named so that its one property can be stated once. */
  function Quotient(a: real, b: real): real
    requires b != 0.0
  {
    a / b
  }

  lemma QuotientTimesDivisor(a: real, b: real)
    requires b != 0.0
    ensures Quotient(a, b) * b == a
  {
  }

  /** The monthly fractional rate for an annual percentage rate (`r / (12 * 100)`). */
  function MonthlyRate(ratePercent: int): real {
    ratePercent as real / 1200.0
  }

  /** Python's `int(x)` on a real: truncation toward zero. */
  function Truncate(x: real): (n: int)
    ensures x >= 0.0 ==> 0 <= n && n as real <= x < n as real + 1.0
    ensures x < 0.0 ==> n <= 0 && n as real - 1.0 < x <= n as real
  {
    if x >= 0.0 then x.Floor else -((-x).Floor)
  }

  /** The untruncated installment. */
  function EmiExact(p: int, ratePercent: int, n: nat): real
    requires Pow(1.0 + MonthlyRate(ratePercent), n) != 1.0
  {
    var r := MonthlyRate(ratePercent);
    var q := Pow(1.0 + r, n);
    Quotient((p as real) * r * q, q - 1.0)
  }

  /**
   * `calculate_emi(p, r, n)`.  The source divides by (1 + r)^n - 1, so it
   * fails exactly when that is zero; for a positive rate this happens exactly
   * when n == 0 (lemma EmiDefinedIff).
   */
  function CalculateEmi(p: int, ratePercent: int, n: nat): (emi: int)
    requires Pow(1.0 + MonthlyRate(ratePercent), n) != 1.0
  {
    Truncate(EmiExact(p, ratePercent, n))
  }

  /** For a positive rate the installment is defined exactly when the tenure is positive. */
  lemma EmiDefinedIff(ratePercent: int, n: nat)
    requires ratePercent > 0
    ensures Pow(1.0 + MonthlyRate(ratePercent), n) != 1.0 <==> n > 0
  {
    Bernoulli(MonthlyRate(ratePercent), n);
  }

  /**
   * For a non-negative principal and a positive rate the installment lies
   * between one month's interest p * r and the principal plus one month's
   * interest p * (1 + r) (the one-month loan), before truncation.
   */
  lemma EmiBounds(p: int, ratePercent: int, n: nat)
    requires p >= 0 && ratePercent > 0 && n > 0
    ensures Pow(1.0 + MonthlyRate(ratePercent), n) != 1.0
    ensures (p as real) * MonthlyRate(ratePercent) <= EmiExact(p, ratePercent, n)
    ensures EmiExact(p, ratePercent, n) <= (p as real) * (1.0 + MonthlyRate(ratePercent))
  {
    var r := MonthlyRate(ratePercent);
    var q := Pow(1.0 + r, n);
    Bernoulli(r, n);
    MulNonNegative((n - 1) as real, r);
    assert (n as real) * r == ((n - 1) as real) * r + r;
    QuotientTimesDivisor((p as real) * r * q, q - 1.0);
    SolutionBounds(p as real, r, q, EmiExact(p, ratePercent, n));
  }

  /** The solution e of e * (q - 1) == P * r * q, for q >= 1 + r, lies between P * r and P * (1 + r). */
  lemma SolutionBounds(pr: real, r: real, q: real, e: real)
    requires pr >= 0.0 && r > 0.0 && q >= 1.0 + r
    requires e * (q - 1.0) == pr * r * q
    ensures pr * r <= e <= pr * (1.0 + r)
  {
    MulNonNegative(pr, r);
    assert (e - pr * r) * (q - 1.0) == pr * r;
    NonNegativeFactor(e - pr * r, q - 1.0);
    MulNonNegative(pr, q - 1.0 - r);
    assert (pr * (1.0 + r) - e) * (q - 1.0) == pr * (q - 1.0 - r);
    NonNegativeFactor(pr * (1.0 + r) - e, q - 1.0);
  }

  /** With a non-negative principal and a positive rate the truncated installment is non-negative. */
  lemma EmiNonNegative(p: int, ratePercent: int, n: nat)
    requires p >= 0 && ratePercent > 0 && n > 0
    ensures Pow(1.0 + MonthlyRate(ratePercent), n) != 1.0
    ensures CalculateEmi(p, ratePercent, n) >= 0
  {
    EmiBounds(p, ratePercent, n);
  }
}
