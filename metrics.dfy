/**
 * The scalar KPI formulas that the three implementations write out alike:
 * customer acquisition cost, the guarded retention percentage and the profit
 * margin, each with the division the source performs made total.
 */
module Metrics {
  import opened Wrappers
  import opened Numbers
  import opened Engine

  /** The fixed acquisition spend that the CAC formula spreads over the customers. */
  const Budget: real := 500.0

  /**
   * `round(500 / n * 100, 2)` for n distinct customers. None when n is 0:
   * there the pandas code raises ZeroDivisionError and the SQL code yields `inf`.
   */
  function Cac(customers: nat): (c: Option<real>)
    ensures c.None? <==> customers == 0
    ensures c.Some? ==> c.value == Round(50000.0 / customers as real, 2)
  {
    if customers == 0 then None
    else
      DivThenScale(Budget, 100.0, customers as real);
      Some(Round(Budget / customers as real * 100.0, 2))
  }

  lemma DivThenScale(a: real, k: real, n: real)
    requires n > 0.0
    ensures a / n * k == (a * k) / n
  {
  }

  lemma Reciprocal(k: real, n: real, m: real)
    requires k >= 0.0 && 0.0 < n <= m
    ensures 0.0 <= k / m <= k / n
  {
  }

  /** More customers never give a higher acquisition cost, and it is never negative. */
  lemma CacAntitone(n: nat, m: nat)
    requires 0 < n <= m
    ensures 0.0 <= Cac(m).value <= Cac(n).value
  {
    var a := 50000.0 / m as real;
    var b := 50000.0 / n as real;
    Reciprocal(50000.0, n as real, m as real);
    RoundMonotone(a, b, 2);
    RoundMonotone(0.0, a, 2);
    RoundExact(0.0, 2);
  }

  /** `round(retained / base * 100, 1) if base > 0 else 0`. */
  function Retention(retained: nat, base: nat): (r: real)
    ensures base == 0 ==> r == 0.0
  {
    if base > 0 then Round(retained as real / base as real * 100.0, 1) else 0.0
  }

  lemma RoundZeroHundred()
    ensures Round(0.0, 1) == 0.0 && Round(100.0, 1) == 100.0
  {
    assert Scale(100.0, 1) == 1000.0;
    RoundExact(0.0, 1);
    RoundExact(100.0, 1);
  }

  /**
   * A retention of a part of the base is a percentage: between 0 and 100, 0 when
   * nobody was retained and 100 when everybody was.
   */
  lemma RetentionBounds(retained: nat, base: nat)
    requires retained <= base
    ensures 0.0 <= Retention(retained, base) <= 100.0
    ensures retained == 0 ==> Retention(retained, base) == 0.0
    ensures 0 < base && retained == base ==> Retention(retained, base) == 100.0
  {
    RoundZeroHundred();
    if base > 0 {
      var x := retained as real / base as real * 100.0;
      PartPercent(retained, base);
      RoundMonotone(0.0, x, 1);
      RoundMonotone(x, 100.0, 1);
    }
  }

  lemma PartPercent(retained: nat, base: nat)
    requires retained <= base && base > 0
    ensures var x := retained as real / base as real * 100.0;
      && 0.0 <= x <= 100.0
      && (retained == 0 ==> x == 0.0)
      && (retained == base ==> x == 100.0)
  {
    var x := retained as real / base as real * 100.0;
    assert x * base as real == retained as real * 100.0;
  }

  lemma SubsetCard<T>(a: set<T>, b: set<T>)
    requires a <= b
    ensures |a| <= |b|
  {
    assert b == a + (b - a);
    assert a * (b - a) == {};
  }

  /** The customers of one year split into those seen again in a later year and the rest. */
  lemma SplitCount<T>(earlier: set<T>, later: set<T>)
    ensures |earlier * later| + |earlier - later| == |earlier|
  {
    assert (earlier * later) + (earlier - later) == earlier;
    assert (earlier * later) * (earlier - later) == {};
  }

  /** Retention of the customers of one year among those of a later year is a percentage. */
  lemma RetentionOfSets<T>(earlier: set<T>, later: set<T>)
    ensures 0.0 <= Retention(|earlier * later|, |earlier|) <= 100.0
    ensures earlier * later == {} ==> Retention(|earlier * later|, |earlier|) == 0.0
    ensures earlier != {} && earlier <= later ==> Retention(|earlier * later|, |earlier|) == 100.0
  {
    SubsetCard(earlier * later, earlier);
    if earlier <= later {
      assert earlier * later == earlier;
    }
    RetentionBounds(|earlier * later|, |earlier|);
  }

  /** Retaining more customers out of the same base never lowers retention. */
  lemma RetentionMonotone(r1: nat, r2: nat, base: nat)
    requires r1 <= r2
    ensures Retention(r1, base) <= Retention(r2, base)
  {
    if base > 0 {
      var x := r1 as real / base as real;
      var y := r2 as real / base as real;
      assert x * base as real == r1 as real && y * base as real == r2 as real;
      assert x <= y;
      RoundMonotone(x * 100.0, y * 100.0, 1);
    }
  }

  /**
   * `round((profit / revenue) * 100, 2)`. None when revenue is 0: numpy then
   * yields NaN or an infinity instead of a number.
   */
  function Margin(profit: real, revenue: real): (m: Option<real>)
    ensures m.None? <==> revenue == 0.0
  {
    if revenue == 0.0 then None else Some(Round(profit / revenue * 100.0, 2))
  }

  /** The exact 45% share gives a margin of exactly 45. */
  lemma MarginOfShare(revenue: real)
    requires revenue != 0.0
    ensures Margin(ProfitShare * revenue, revenue) == Some(45.0)
  {
    assert ProfitShare * revenue / revenue * 100.0 == 45.0;
    assert Scale(45.0, 2) == 4500.0;
    RoundExact(45.0, 2);
  }

  lemma NegativeFactor(a: real, r: real)
    requires r > 0.0 && a * r < 0.0
    ensures a < 0.0
  {
  }

  /**
   * A profit within a twenty-thousandth of the revenue of the 45% share still
   * gives a margin of exactly 45 after rounding to two places.
   */
  lemma MarginNearShare(profit: real, revenue: real)
    requires revenue > 0.0
    requires 20000.0 * (profit - ProfitShare * revenue) < revenue
    requires 20000.0 * (ProfitShare * revenue - profit) < revenue
    ensures Margin(profit, revenue) == Some(45.0)
  {
    var x := profit / revenue * 100.0;
    assert x * revenue == profit * 100.0;
    var e := 20000.0 * (x - 45.0) - 100.0;
    var f := 20000.0 * (45.0 - x) - 100.0;
    assert e * revenue == 100.0 * (20000.0 * (profit - ProfitShare * revenue) - revenue);
    assert f * revenue == 100.0 * (20000.0 * (ProfitShare * revenue - profit) - revenue);
    NegativeFactor(e, revenue);
    NegativeFactor(f, revenue);
    assert 44.995 < x < 45.005;
    var s := Scale(x, 2);
    assert s == x * 100.0;
    assert 4500.0 < s + 0.5 < 4501.0;
    assert Units(x, 2) == 4500;
  }
}
