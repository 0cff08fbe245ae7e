/**
 * Exact-real stand-ins for the numeric primitives the Python code uses:
 * `round(x, d)` and the truncating `int(x)`.
 */
module Numbers {

  /** 10 to the power d. */
  function Pow10(d: nat): (p: nat)
    ensures p >= 1
  {
    if d == 0 then 1 else 10 * Pow10(d - 1)
  }

  /** x measured in units of the d-th decimal place. */
  function Scale(x: real, d: nat): real
  {
    x * Pow10(d) as real
  }

  /** x measured in units of the d-th decimal place, rounded to the nearest unit (halves upward). */
  function Units(x: real, d: nat): int
  {
    (Scale(x, d) + 0.5).Floor
  }

  /**
   * Rounding to d decimal places on exact reals. This stands for Python's
   * `round(x, d)`; the model relies only on the lemmas below (nearness,
   * monotonicity, exactness on values that already have d decimals), which hold
   * of any correct rounding, and not on how halves are broken.
   */
  function Round(x: real, d: nat): real
  {
    Units(x, d) as real / Pow10(d) as real
  }

  /** x already has at most d decimal places. */
  predicate HasDecimals(x: real, d: nat)
  {
    Scale(x, d).Floor as real == Scale(x, d)
  }

  lemma ScaleBack(f: real, p: real)
    requires p >= 1.0
    ensures (f / p) * p == f
  {
  }

  lemma CancelScale(x: real, p: real)
    requires p >= 1.0
    ensures (x * p) / p == x
  {
  }

  lemma ScaleMonotone(x: real, y: real, p: real)
    requires x <= y && p >= 1.0
    ensures x * p <= y * p
  {
    assert y * p - x * p == (y - x) * p;
  }

  lemma DivMonotone(a: real, b: real, p: real)
    requires a <= b && p >= 1.0
    ensures a / p <= b / p
  {
    assert b / p - a / p == (b - a) / p;
  }

  /** A rounded value is within half a unit of the last place of x. */
  lemma RoundNear(x: real, d: nat)
    ensures var p := Pow10(d) as real;
      x * p - 0.5 < Round(x, d) * p <= x * p + 0.5
  {
    var p := Pow10(d) as real;
    var u := Units(x, d);
    assert u as real <= x * p + 0.5 < u as real + 1.0;
    ScaleBack(u as real, p);
  }

  /** Rounding never reverses the order of two values. */
  lemma RoundMonotone(x: real, y: real, d: nat)
    requires x <= y
    ensures Round(x, d) <= Round(y, d)
  {
    var p := Pow10(d) as real;
    ScaleMonotone(x, y, p);
    assert Units(x, d) <= Units(y, d);
    DivMonotone(Units(x, d) as real, Units(y, d) as real, p);
  }

  /** Rounding leaves a value that already has d decimal places unchanged. */
  lemma RoundExact(x: real, d: nat)
    requires HasDecimals(x, d)
    ensures Round(x, d) == x
  {
    var p := Pow10(d) as real;
    var s := Scale(x, d);
    var k := s.Floor;
    assert s == k as real;
    assert s + 0.5 == k as real + 0.5;
    assert (k as real + 0.5).Floor == k;
    assert Units(x, d) == k;
    assert s == x * p;
    CancelScale(x, p);
  }

  /** A rounded value has d decimal places, so rounding twice is rounding once. */
  lemma RoundIdempotent(x: real, d: nat)
    ensures HasDecimals(Round(x, d), d)
    ensures Round(Round(x, d), d) == Round(x, d)
  {
    var p := Pow10(d) as real;
    var u := Units(x, d);
    ScaleBack(u as real, p);
    var s := Scale(Round(x, d), d);
    assert s == Round(x, d) * p;
    assert s == u as real;
    assert s.Floor == u;
    RoundExact(Round(x, d), d);
  }

  /** Python's `int(x)` on a float: truncation toward zero. */
  function Trunc(x: real): (n: int)
    ensures x >= 0.0 ==> 0.0 <= n as real <= x < n as real + 1.0
    ensures x < 0.0 ==> n as real - 1.0 < x <= n as real <= 0.0
  {
    if x >= 0.0 then x.Floor else -((-x).Floor)
  }
}
