/**
 * The KPI queries of etl/transform.py. Each function is the result set of one
 * SQL statement over the sales table, followed by the Python arithmetic on it;
 * the connection handling around the statements is not modelled.
 */
module Transform {
  import opened Wrappers
  import opened Numbers
  import opened Text
  import opened Sorting
  import opened Engine
  import opened Metrics

  // ---------------------------------------------------------------- SUM with NULL

  function SalesOf(r: Row): Option<real> { r.sales }

  /** SQL `SUM(col)`: NULL values are skipped, and a sum of no values is NULL. */
  function SqlSum(rows: seq<Row>, col: Row -> Option<real>): (s: Option<real>)
    ensures s.None? <==> forall i :: 0 <= i < |rows| ==> col(rows[i]).None?
  {
    if rows == [] then None
    else
      var init := rows[..|rows| - 1];
      assert forall i :: 0 <= i < |init| ==> init[i] == rows[i];
      var acc := SqlSum(init, col);
      match col(rows[|rows| - 1])
      case None => acc
      case Some(v) => Some(acc.GetOr(0.0) + v)
  }

  /** Where it is not NULL, `SUM(SALES)` is the revenue. */
  lemma {:induction false} SqlSumSales(rows: seq<Row>)
    ensures SqlSum(rows, SalesOf).GetOr(0.0) == Revenue(rows)
  {
    if rows != [] {
      SqlSumSales(rows[..|rows| - 1]);
    }
  }

  /** Where it is not NULL, `SUM(SALES * 0.45)` is the total profit. */
  lemma {:induction false} SqlSumProfit(rows: seq<Row>)
    ensures SqlSum(rows, Profit).GetOr(0.0) == ProfitTotal(rows)
  {
    if rows != [] {
      SqlSumProfit(rows[..|rows| - 1]);
    }
  }

  /** No row has a SALES value. */
  predicate NoSales(rows: seq<Row>)
  {
    forall i :: 0 <= i < |rows| ==> rows[i].sales.None?
  }

  // ---------------------------------------------------------------- KPI 1 and 2

  /** `get_total_revenue`: `round(SUM(SALES), 2)`; None where the sum is NULL and `round` raises. */
  function TotalRevenue(rows: seq<Row>): Option<real>
  {
    match SqlSum(rows, SalesOf)
    case None => None
    case Some(v) => Some(Round(v, 2))
  }

  lemma TotalRevenueSpec(rows: seq<Row>)
    ensures TotalRevenue(rows).None? <==> NoSales(rows)
    ensures TotalRevenue(rows).Some? ==> TotalRevenue(rows).value == Round(Revenue(rows), 2)
  {
    SqlSumSales(rows);
  }

  datatype ProfitKpis = ProfitKpis(totalProfit: real, marginPct: Option<real>)

  /**
   * `get_profit_metrics`: the rounded profit sum, and the margin of that rounded
   * profit over the unrounded revenue. None where the sums are NULL.
   */
  function ProfitMetrics(rows: seq<Row>): Option<ProfitKpis>
  {
    var revenue := SqlSum(rows, SalesOf);
    var profit := SqlSum(rows, Profit);
    if revenue.None? || profit.None? then None
    else
      var totalProfit := Round(profit.value, 2);
      Some(ProfitKpis(totalProfit, Margin(totalProfit, revenue.value)))
  }

  lemma ProfitMetricsSpec(rows: seq<Row>)
    ensures ProfitMetrics(rows).None? <==> NoSales(rows)
    ensures ProfitMetrics(rows).Some? ==>
      var k := ProfitMetrics(rows).value;
      && k.totalProfit == Round(ProfitShare * Revenue(rows), 2)
      && k.marginPct == Margin(k.totalProfit, Revenue(rows))
      && (k.marginPct.None? <==> Revenue(rows) == 0.0)
  {
    SqlSumSales(rows);
    SqlSumProfit(rows);
    ProfitIsShare(rows);
    assert forall i :: 0 <= i < |rows| ==> (Profit(rows[i]).None? <==> SalesOf(rows[i]).None?);
  }

  /** Above a revenue of 100 the rounded profit's margin is exactly the 45% share. */
  lemma ProfitMarginIsShare(rows: seq<Row>)
    requires Revenue(rows) > 100.0
    ensures ProfitMetrics(rows).Some? && ProfitMetrics(rows).value.marginPct == Some(45.0)
  {
    ProfitMetricsSpec(rows);
    var r := Revenue(rows);
    SqlSumSales(rows);
    RoundNear(ProfitShare * r, 2);
    MarginNearShare(Round(ProfitShare * r, 2), r);
  }

  // ---------------------------------------------------------------- KPI 3 to 5

  /** `get_revenue_by_product`: `GROUP BY PRODUCTLINE ORDER BY revenue DESC`. */
  function RevenueByProduct(rows: seq<Row>): (t: seq<Group<string>>)
    ensures IsRanking(t, rows, ProductKey)
    ensures SumRevenue(t) == Revenue(rows) && SumProfit(t) == ProfitTotal(rows)
    ensures forall i :: 0 <= i < |t| ==> t[i].profit == ProfitShare * t[i].revenue
  {
    RankedIsRanking(rows, ProductKey);
    GroupingAdds(Ranked(rows, ProductKey), rows, ProductKey);
    GroupingProfitAdds(Ranked(rows, ProductKey), rows, ProductKey);
    GroupProfitIsShare(Ranked(rows, ProductKey), rows, ProductKey);
    Ranked(rows, ProductKey)
  }

  /** `get_revenue_by_region`: `GROUP BY COUNTRY ORDER BY revenue DESC`. */
  function RevenueByRegion(rows: seq<Row>): (t: seq<Group<string>>)
    ensures IsRanking(t, rows, CountryKey)
    ensures SumRevenue(t) == Revenue(rows) && SumProfit(t) == ProfitTotal(rows)
    ensures forall i :: 0 <= i < |t| ==> t[i].profit == ProfitShare * t[i].revenue
  {
    RankedIsRanking(rows, CountryKey);
    GroupingAdds(Ranked(rows, CountryKey), rows, CountryKey);
    GroupingProfitAdds(Ranked(rows, CountryKey), rows, CountryKey);
    GroupProfitIsShare(Ranked(rows, CountryKey), rows, CountryKey);
    Ranked(rows, CountryKey)
  }

  /**
   * `get_top_salespeople`: `TOP 10 ... GROUP BY CUSTOMERNAME ORDER BY revenue DESC`
   * with `COUNT(ORDERNUMBER)` as the order count.
   */
  function TopSalespeople(rows: seq<Row>): (t: seq<Group<string>>)
    ensures |t| <= 10
    ensures |t| == (if |Keys(rows, CustomerKey)| < 10 then |Keys(rows, CustomerKey)| else 10)
    ensures NonIncreasing(t) && Distinct(KeysOf(t))
    ensures forall i :: 0 <= i < |t| ==>
      && t[i].key in Keys(rows, CustomerKey)
      && t[i].revenue == Revenue(Matching(rows, CustomerKey, t[i].key))
      && t[i].orders == OrderCount(Matching(rows, CustomerKey, t[i].key))
    ensures forall k, i :: k in Keys(rows, CustomerKey) && k !in KeysOf(t) && 0 <= i < |t| ==>
      GroupOf(rows, CustomerKey, k).revenue <= t[i].revenue
    ensures IsTop(t, rows, CustomerKey, 10)
  {
    RankedIsRanking(rows, CustomerKey);
    TopOfRanking(Ranked(rows, CustomerKey), rows, CustomerKey, 10);
    TopIsTop(Ranked(rows, CustomerKey), rows, CustomerKey, 10);
    Top(Ranked(rows, CustomerKey), 10)
  }

  // ---------------------------------------------------------------- KPI 6

  /** `ORDER BY YEAR_ID, MONTH_ID`: lexicographic on (year, month). */
  function PeriodLe(a: Group<(int, int)>, b: Group<(int, int)>): bool
  {
    a.key.0 < b.key.0 || (a.key.0 == b.key.0 && a.key.1 <= b.key.1)
  }

  /** `GROUP BY YEAR_ID, MONTH_ID ORDER BY YEAR_ID, MONTH_ID`, before the label is built. */
  function ByPeriod(rows: seq<Row>): (s: seq<Group<(int, int)>>)
    ensures IsGrouping(s, rows, PeriodKey)
    ensures forall i, j :: 0 <= i < j < |s| ==> PeriodLe(s[i], s[j]) && s[i].key != s[j].key
  {
    var a := Aggregate(rows, PeriodKey);
    AggregateIsGrouping(rows, PeriodKey);
    PermutedGrouping(a, Sort(a, PeriodLe), rows, PeriodKey);
    SortSorted(a, PeriodLe);
    var s := Sort(a, PeriodLe);
    assert forall i, j :: 0 <= i < j < |s| ==> KeysOf(s)[i] != KeysOf(s)[j];
    s
  }

  /** Year and month order fixes the monthly table completely: ties cannot occur. */
  lemma ByPeriodUnique(s: seq<Group<(int, int)>>, rows: seq<Row>)
    requires IsGrouping(s, rows, PeriodKey)
    requires forall i, j :: 0 <= i < j < |s| ==> PeriodLe(s[i], s[j])
    ensures s == ByPeriod(rows)
  {
    var b := ByPeriod(rows);
    GroupingsArePermutations(s, rows, PeriodKey);
    GroupingsArePermutations(b, rows, PeriodKey);
    NoPeriodTies(s, rows);
    SortedUnique(s, b, PeriodLe);
  }

  /** Two lines of a grouping by period that compare both ways are the same line. */
  lemma NoPeriodTies(s: seq<Group<(int, int)>>, rows: seq<Row>)
    requires IsGrouping(s, rows, PeriodKey)
    ensures forall x, y :: x in s && y in s && PeriodLe(x, y) && PeriodLe(y, x) ==> x == y
  {
    forall x, y | x in s && y in s && PeriodLe(x, y) && PeriodLe(y, x) ensures x == y {
      var i :| 0 <= i < |s| && s[i] == x;
      var j :| 0 <= j < |s| && s[j] == y;
      assert x.key == y.key;
    }
  }

  /** `CAST(YEAR_ID AS VARCHAR) + '-' + RIGHT('0' + CAST(MONTH_ID AS VARCHAR), 2)`. */
  function SqlMonthLabel(year: int, month: int): string
  {
    IntToString(year) + "-" + Right("0" + IntToString(month), 2)
  }

  /** One line of the monthly trend: `month`, `revenue`, `profit`. */
  datatype MonthLine = MonthLine(month: string, revenue: real, profit: real)

  function SqlMonthLine(g: Group<(int, int)>): MonthLine
  {
    MonthLine(SqlMonthLabel(g.key.0, g.key.1), g.revenue, g.profit)
  }

  /**
   * `get_monthly_revenue`: line i is the SQL label and the sums of the i-th period
   * in year and month order, one line per period that occurs.
   */
  function MonthlyRevenue(rows: seq<Row>): (t: seq<MonthLine>)
    ensures |t| == |ByPeriod(rows)| == |Keys(rows, PeriodKey)|
    ensures forall i :: 0 <= i < |t| ==>
      var p := ByPeriod(rows)[i].key;
      p in Keys(rows, PeriodKey) && t[i] == SqlMonthLine(GroupOf(rows, PeriodKey, p))
  {
    var s := ByPeriod(rows);
    KeyCount(s, rows, PeriodKey);
    forall i | 0 <= i < |s| ensures s[i].key in Keys(rows, PeriodKey) {
      assert KeysOf(s)[i] == s[i].key;
    }
    Map(s, SqlMonthLine)
  }

  // ---------------------------------------------------------------- KPI 7 and 8

  /** `get_cac`: `round(500 / COUNT(DISTINCT CUSTOMERNAME) * 100, 2)`. */
  function CacKpi(rows: seq<Row>): (c: Option<real>)
    ensures c.None? <==> rows == []
    ensures c.Some? ==> c == Cac(CustomerCount(rows))
  {
    assert rows != [] ==> CustomerKey(rows[0]) in Keys(rows, CustomerKey);
    Cac(CustomerCount(rows))
  }

  /** The counts that `get_customer_status` returns. */
  datatype Status = Status(active: nat, total: nat, churned: nat)

  /**
   * `get_customer_status`: retained = |C2004 ∩ C2005|, churned = |C2004 \ C2005|,
   * total = |C2004|. The 2003 set the code also reads plays no part.
   */
  function CustomerStatus(rows: seq<Row>): (s: Status)
    ensures s.active + s.churned == s.total
    ensures s.total == |CustomersIn(rows, 2004)|
    ensures s.active == |CustomersIn(rows, 2004) * CustomersIn(rows, 2005)|
  {
    var c2004 := CustomersIn(rows, 2004);
    var c2005 := CustomersIn(rows, 2005);
    SplitCount(c2004, c2005);
    Status(|c2004 * c2005|, |c2004|, |c2004 - c2005|)
  }
}
