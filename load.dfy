/**
 * etl/load.py: the retention figure it derives from the customer-status counts
 * and the cell grids `sync_to_sheets` writes to the five worksheet tabs, built
 * from the SQL results of etl/transform.py. The spreadsheet client is not modelled.
 */
module Load {
  import opened Wrappers
  import opened Numbers
  import opened Text
  import opened Sorting
  import opened Engine
  import opened Metrics
  import opened Transform

  // ---------------------------------------------------------------- retention

  /** The retention `sync_to_sheets` writes: the base is active + churned, guarded against 0. */
  function SheetRetention(active: nat, churned: nat): (r: real)
    ensures active + churned == 0 ==> r == 0.0
  {
    Retention(active, active + churned)
  }

  /**
   * On the SQL status counts, active + churned is the number of 2004 customers,
   * so the sheet's retention is the e-mail report's and the dashboard's figure,
   * and a percentage.
   */
  lemma SheetRetentionOfStatus(rows: seq<Row>)
    ensures var s := CustomerStatus(rows);
      && s.active + s.churned == |CustomersIn(rows, 2004)|
      && SheetRetention(s.active, s.churned)
         == Retention(|CustomersIn(rows, 2004) * CustomersIn(rows, 2005)|, |CustomersIn(rows, 2004)|)
      && 0.0 <= SheetRetention(s.active, s.churned) <= 100.0
  {
    RetentionOfSets(CustomersIn(rows, 2004), CustomersIn(rows, 2005));
  }

  // ---------------------------------------------------------------- cells

  /**
   * A cell written to a sheet: text, a number, or a number rendered as money
   * (`f"${x:,.2f}"`) or as a percentage (`f"{x}%"`, None where the value is NaN
   * or an infinity).
   */
  datatype SheetValue = Label(text: string) | Number(x: real) | Whole(n: int) | Money(amount: real) | Percent(pct: Option<real>)

  type Grid = seq<seq<SheetValue>>

  function LabelOf(s: string): SheetValue { Label(s) }

  /** A header line followed by the data lines. */
  function Payload(header: seq<string>, lines: Grid): (g: Grid)
    ensures |g| == |lines| + 1 && g[1..] == lines
    ensures |g[0]| == |header| && forall i :: 0 <= i < |header| ==> g[0][i] == Label(header[i])
  {
    [Map(header, LabelOf)] + lines
  }

  // ---------------------------------------------------------------- tab 1: KPI Summary

  /**
   * The "KPI Summary" tab. None where the code raises: with no SALES value the sums are
   * NULL and `round` fails on them. The timestamp is a parameter.
   */
  function KpiSummary(stamp: string, rows: seq<Row>): Option<Grid>
  {
    var revenue, profit, cac := TotalRevenue(rows), ProfitMetrics(rows), CacKpi(rows);
    if revenue.None? || profit.None? || cac.None? then None
    else Some(SummaryGrid(stamp, revenue.value, profit.value, cac.value, CustomerStatus(rows)))
  }

  /** The tab's cells, given the values the queries returned. */
  function SummaryGrid(stamp: string, revenue: real, profit: ProfitKpis, cac: real, s: Status): Grid
  {
    [
      [Label("📊 KPI SUMMARY"), Label("Generated: " + stamp)],
      [Label("")],
      [Label("Metric"), Label("Value")],
      [Label("💰 Total Revenue"), Money(revenue)],
      [Label("📈 Total Profit"), Money(profit.totalProfit)],
      [Label("📉 Profit Margin"), Percent(profit.marginPct)],
      [Label("🧲 Cust. Acq. Cost"), Money(cac)],
      [Label("✅ Active Customers"), Label(IntToString(s.active))],
      [Label("❌ Churned Customers"), Label(IntToString(s.churned))],
      [Label("🔁 Retention Rate"), Percent(Some(SheetRetention(s.active, s.churned)))]
    ]
  }

  /** The summary is written exactly when some SALES value is present. */
  lemma KpiSummaryDefined(stamp: string, rows: seq<Row>)
    ensures KpiSummary(stamp, rows).None? <==> NoSales(rows)
  {
    TotalRevenueSpec(rows);
    ProfitMetricsSpec(rows);
    assert !NoSales(rows) ==> rows != [];
  }

  /**
   * The title with the timestamp, a blank line, the "Metric/Value" header, then
   * seven labelled lines in a fixed order: revenue and profit rounded, the
   * margin, CAC, the retained and churned 2004 customers, and their retention.
   */
  lemma KpiSummaryContents(stamp: string, rows: seq<Row>)
    requires !NoSales(rows)
    ensures KpiSummary(stamp, rows).Some?
    ensures var g := KpiSummary(stamp, rows).value;
      var c2004, c2005 := CustomersIn(rows, 2004), CustomersIn(rows, 2005);
      && |g| == 10
      && g[0] == [Label("📊 KPI SUMMARY"), Label("Generated: " + stamp)]
      && g[1] == [Label("")]
      && g[2] == [Label("Metric"), Label("Value")]
      && g[3] == [Label("💰 Total Revenue"), Money(Round(Revenue(rows), 2))]
      && g[4] == [Label("📈 Total Profit"), Money(Round(ProfitShare * Revenue(rows), 2))]
      && g[5] == [Label("📉 Profit Margin"), Percent(Margin(Round(ProfitShare * Revenue(rows), 2), Revenue(rows)))]
      && g[6] == [Label("🧲 Cust. Acq. Cost"), Money(Cac(CustomerCount(rows)).value)]
      && g[7] == [Label("✅ Active Customers"), Label(IntToString(|c2004 * c2005|))]
      && g[8] == [Label("❌ Churned Customers"), Label(IntToString(|c2004 - c2005|))]
      && g[9] == [Label("🔁 Retention Rate"), Percent(Some(Retention(|c2004 * c2005|, |c2004|)))]
  {
    QueriesDefined(rows);
    var revenue := Round(Revenue(rows), 2);
    var profit := Round(ProfitShare * Revenue(rows), 2);
    var k := ProfitKpis(profit, Margin(profit, Revenue(rows)));
    var s := CustomerStatus(rows);
    var cac := Cac(CustomerCount(rows)).value;
    assert KpiSummary(stamp, rows) == Some(SummaryGrid(stamp, revenue, k, cac, s));
    SummaryGridCells(stamp, revenue, k, cac, s);
    SheetRetentionOfStatus(rows);
  }

  /** Where each value sits in the tab. */
  lemma SummaryGridCells(stamp: string, revenue: real, profit: ProfitKpis, cac: real, s: Status)
    ensures var g := SummaryGrid(stamp, revenue, profit, cac, s);
      && |g| == 10
      && g[0] == [Label("📊 KPI SUMMARY"), Label("Generated: " + stamp)]
      && g[1] == [Label("")]
      && g[2] == [Label("Metric"), Label("Value")]
      && g[3] == [Label("💰 Total Revenue"), Money(revenue)]
      && g[4] == [Label("📈 Total Profit"), Money(profit.totalProfit)]
      && g[5] == [Label("📉 Profit Margin"), Percent(profit.marginPct)]
      && g[6] == [Label("🧲 Cust. Acq. Cost"), Money(cac)]
      && g[7] == [Label("✅ Active Customers"), Label(IntToString(s.active))]
      && g[8] == [Label("❌ Churned Customers"), Label(IntToString(s.churned))]
      && g[9] == [Label("🔁 Retention Rate"), Percent(Some(SheetRetention(s.active, s.churned)))]
  {
  }

  /** With some SALES value present, the three queries the tab reads all return a value. */
  lemma QueriesDefined(rows: seq<Row>)
    requires !NoSales(rows)
    ensures TotalRevenue(rows) == Some(Round(Revenue(rows), 2))
    ensures var profit := Round(ProfitShare * Revenue(rows), 2);
      ProfitMetrics(rows) == Some(ProfitKpis(profit, Margin(profit, Revenue(rows))))
    ensures CacKpi(rows).Some? && CacKpi(rows) == Cac(CustomerCount(rows))
  {
    TotalRevenueSpec(rows);
    ProfitMetricsSpec(rows);
    assert rows != [];
  }

  // ---------------------------------------------------------------- tabs 2 to 5

  /** `[key, round(revenue, 2), round(profit, 2)]`. */
  function SumsLine(g: Group<string>): seq<SheetValue>
  {
    [Label(g.key), Number(Round(g.revenue, 2)), Number(Round(g.profit, 2))]
  }

  /** `[salesperson, round(revenue, 2), int(total_sales)]`. */
  function SalesLine(g: Group<string>): seq<SheetValue>
  {
    [Label(g.key), Number(Round(g.revenue, 2)), Whole(g.orders)]
  }

  /** `[month, round(revenue, 2), round(profit, 2)]`. */
  function MonthRow(m: MonthLine): seq<SheetValue>
  {
    [Label(m.month), Number(Round(m.revenue, 2)), Number(Round(m.profit, 2))]
  }

  /** The "By Product" tab. */
  function ProductTab(rows: seq<Row>): Grid
  {
    Payload(["Product", "Revenue", "Profit"], Map(RevenueByProduct(rows), SumsLine))
  }

  /** The "By Region" tab. */
  function RegionTab(rows: seq<Row>): Grid
  {
    Payload(["Region", "Revenue", "Profit"], Map(RevenueByRegion(rows), SumsLine))
  }

  /** The "Top Customers" tab. */
  function CustomerTab(rows: seq<Row>): Grid
  {
    Payload(["Customer", "Revenue", "Total Orders"], Map(TopSalespeople(rows), SalesLine))
  }

  /** The "Monthly Trend" tab. */
  function MonthlyTab(rows: seq<Row>): Grid
  {
    Payload(["Month", "Revenue", "Profit"], Map(MonthlyRevenue(rows), MonthRow))
  }

  /** The revenue column of a grid, below the header, as numbers. */
  ghost predicate RevenueColumnNonIncreasing(g: Grid)
  {
    forall i, j :: 1 <= i < j < |g| && |g[i]| > 1 && |g[j]| > 1 && g[i][1].Number? && g[j][1].Number? ==>
      g[i][1].x >= g[j][1].x
  }

  /** Line i + 1 of a tab carries group i: its key, rounded revenue and rounded 45% profit. */
  ghost predicate SumsLines(g: Grid, t: seq<Group<string>>, rows: seq<Row>, key: Row -> string)
  {
    && |g| == |t| + 1
    && forall i :: 0 <= i < |t| ==>
         && g[i + 1] == [Label(t[i].key), Number(Round(t[i].revenue, 2)), Number(Round(ProfitShare * t[i].revenue, 2))]
         && t[i] == GroupOf(rows, key, t[i].key) && t[i].key in Keys(rows, key)
  }

  /** Rounding keeps a non-increasing revenue column non-increasing. */
  lemma RoundedColumn(t: seq<Group<string>>, g: Grid)
    requires NonIncreasing(t) && |g| == |t| + 1
    requires forall i :: 0 <= i < |t| ==> |g[i + 1]| > 1 && g[i + 1][1] == Number(Round(t[i].revenue, 2))
    ensures RevenueColumnNonIncreasing(g)
  {
    forall i, j | 1 <= i < j < |g| && |g[i]| > 1 && |g[j]| > 1 && g[i][1].Number? && g[j][1].Number?
      ensures g[i][1].x >= g[j][1].x
    {
      RoundMonotone(t[j - 1].revenue, t[i - 1].revenue, 2);
    }
  }

  /**
   * The product tab: one line per product line after the header, each with its
   * rounded sums, and the revenue column non-increasing.
   */
  lemma ProductTabSpec(rows: seq<Row>)
    ensures var g, t := ProductTab(rows), RevenueByProduct(rows);
      && g[0] == [Label("Product"), Label("Revenue"), Label("Profit")]
      && |g| == |Keys(rows, ProductKey)| + 1
      && SumsLines(g, t, rows, ProductKey)
      && RevenueColumnNonIncreasing(g)
  {
    var g, t := ProductTab(rows), RevenueByProduct(rows);
    KeyCount(t, rows, ProductKey);
    forall i | 0 <= i < |t| ensures t[i].key in Keys(rows, ProductKey) {
      assert KeysOf(t)[i] == t[i].key;
    }
    RoundedColumn(t, g);
  }

  /**
   * The region tab: one line per country after the header, each with its
   * rounded sums, and the revenue column non-increasing.
   */
  lemma RegionTabSpec(rows: seq<Row>)
    ensures var g, t := RegionTab(rows), RevenueByRegion(rows);
      && g[0] == [Label("Region"), Label("Revenue"), Label("Profit")]
      && |g| == |Keys(rows, CountryKey)| + 1
      && SumsLines(g, t, rows, CountryKey)
      && RevenueColumnNonIncreasing(g)
  {
    var g, t := RegionTab(rows), RevenueByRegion(rows);
    KeyCount(t, rows, CountryKey);
    forall i | 0 <= i < |t| ensures t[i].key in Keys(rows, CountryKey) {
      assert KeysOf(t)[i] == t[i].key;
    }
    RoundedColumn(t, g);
  }

  /**
   * The customer tab: at most ten customers after the header, each with its
   * rounded revenue and its whole order count, the revenue column non-increasing.
   */
  lemma CustomerTabSpec(rows: seq<Row>)
    ensures var g, t := CustomerTab(rows), TopSalespeople(rows);
      && g[0] == [Label("Customer"), Label("Revenue"), Label("Total Orders")]
      && |g| == |t| + 1 && |g| <= 11
      && (forall i :: 0 <= i < |t| ==>
            g[i + 1] == [Label(t[i].key), Number(Round(Revenue(Matching(rows, CustomerKey, t[i].key)), 2)),
                         Whole(OrderCount(Matching(rows, CustomerKey, t[i].key)))])
      && RevenueColumnNonIncreasing(g)
  {
    var g, t := CustomerTab(rows), TopSalespeople(rows);
    forall i | 0 <= i < |t|
      ensures g[i + 1] == [Label(t[i].key), Number(Round(Revenue(Matching(rows, CustomerKey, t[i].key)), 2)),
                           Whole(OrderCount(Matching(rows, CustomerKey, t[i].key)))]
    {
      assert g[i + 1] == SalesLine(t[i]);
    }
    RoundedColumn(t, g);
  }

  /** The line the monthly tab holds for period p: the SQL label and the rounded sums. */
  function MonthCells(rows: seq<Row>, p: (int, int)): seq<SheetValue>
  {
    var grp := GroupOf(rows, PeriodKey, p);
    [Label(SqlMonthLabel(p.0, p.1)), Number(Round(grp.revenue, 2)), Number(Round(grp.profit, 2))]
  }

  /**
   * The monthly tab: the header, then line i is the SQL label and the rounded sums
   * of the i-th year and month in period order, one line per period.
   */
  lemma MonthlyTabSpec(rows: seq<Row>)
    ensures var g := MonthlyTab(rows);
      && g[0] == [Label("Month"), Label("Revenue"), Label("Profit")]
      && |g| == |ByPeriod(rows)| + 1 == |Keys(rows, PeriodKey)| + 1
      && forall i :: 1 <= i < |g| ==> g[i] == MonthCells(rows, ByPeriod(rows)[i - 1].key)
  {
    var g, m := MonthlyTab(rows), MonthlyRevenue(rows);
    forall i | 1 <= i < |g| ensures g[i] == MonthCells(rows, ByPeriod(rows)[i - 1].key) {
      assert g[i] == MonthRow(m[i - 1]);
    }
  }
}
