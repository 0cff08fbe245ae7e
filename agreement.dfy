/**
 * The same KPIs are computed three times: by the SQL queries of etl/transform.py,
 * by `load_kpis` of the e-mail report and by the pandas block of the Streamlit
 * dashboard. These lemmas state where the three agree on the same sales table.
 */
module Agreement {
  import opened Wrappers
  import opened Numbers
  import opened Text
  import opened Sorting
  import opened Engine
  import opened Metrics
  import opened CsvSource
  import opened Transform
  import opened EmailReport
  import opened StreamlitApp

  // ---------------------------------------------------------------- month labels

  /** SQL's `RIGHT('0' + m, 2)` and Python's `zfill(2)` pad a month below 100 alike. */
  lemma SqlLabelIsMonthLabel(y: int, m: int)
    requires 0 <= m <= 99
    ensures SqlMonthLabel(y, m) == MonthLabel(y, m)
  {
    var d := IntToString(m);
    NatToStringLength(m);
    if |d| == 1 {
      assert Right("0" + d, 2) == "0" + d;
      assert ZFill(d, 2) == Zeros(1) + d;
      assert Zeros(1) == "0";
    } else {
      assert Right("0" + d, 2) == ("0" + d)[1..] == d;
    }
  }

  /** Above 99 the two paddings part: SQL keeps only the last two digits. */
  lemma LabelsPartForMonth100()
    ensures SqlMonthLabel(2004, 100) != MonthLabel(2004, 100)
  {
    var d := IntToString(100);
    NatToStringLength(100);
    assert |d| == 3;
    assert Right("0" + d, 2) == ("0" + d)[2..];
    assert |Right("0" + d, 2)| == 2;
    assert |ZFill(d, 2)| == 3;
    var a, b := IntToString(2004) + "-", IntToString(2004) + "-";
    assert SqlMonthLabel(2004, 100) == a + Right("0" + d, 2);
    assert MonthLabel(2004, 100) == b + ZFill(d, 2);
  }

  function PeriodLabel(p: (int, int)): string { MonthLabel(p.0, p.1) }

  function LabelGroup(g: Group<(int, int)>): Group<string> { Relabel(g, PeriodLabel) }

  /** One line of the dashboard's monthly table in the shape of the SQL result. */
  function DashboardLine(g: Group<string>): MonthLine
  {
    MonthLine(g.key, g.revenue, g.profit)
  }

  predicate ValidPeriods(rows: seq<Row>)
  {
    forall i :: 0 <= i < |rows| ==> ValidPeriod(rows[i].year, rows[i].month)
  }

  lemma KeysValid(rows: seq<Row>, p: (int, int))
    requires ValidPeriods(rows) && p in Keys(rows, PeriodKey)
    ensures ValidPeriod(p.0, p.1)
  {
    var r :| r in rows && PeriodKey(r) == p;
    var i :| 0 <= i < |rows| && rows[i] == r;
  }

  /** On year-month keys, the label of the period is an injective renaming. */
  lemma PeriodLabelInjective(rows: seq<Row>)
    requires ValidPeriods(rows)
    ensures InjectiveOn(PeriodLabel, Keys(rows, PeriodKey))
    ensures KeyThrough(rows, PeriodKey, MonthKey, PeriodLabel)
  {
    forall a, b | a in Keys(rows, PeriodKey) && b in Keys(rows, PeriodKey) && PeriodLabel(a) == PeriodLabel(b)
      ensures a == b
    {
      KeysValid(rows, a);
      KeysValid(rows, b);
      MonthLabelInjective(a.0, a.1, b.0, b.1);
    }
  }

  /** Grouping by label groups exactly as grouping by year and month, under the label. */
  lemma MonthAggregate(rows: seq<Row>)
    requires ValidPeriods(rows)
    ensures Aggregate(rows, MonthKey) == Map(Aggregate(rows, PeriodKey), LabelGroup)
  {
    var a := Aggregate(rows, PeriodKey);
    PeriodLabelInjective(rows);
    AggregateRelabel(rows, PeriodKey, MonthKey, PeriodLabel);
    assert RelabelAll(a, PeriodLabel) == Map(a, LabelGroup);
  }

  /** On the groups that occur, label order is period order. */
  lemma LabelOrderIsPeriodOrder(rows: seq<Row>)
    requires ValidPeriods(rows)
    ensures var a := Aggregate(rows, PeriodKey);
      forall g, h :: g in a && h in a ==> (ByLabel(LabelGroup(g), LabelGroup(h)) <==> PeriodLe(g, h))
  {
    var a := Aggregate(rows, PeriodKey);
    AggregateIsGrouping(rows, PeriodKey);
    forall g, h | g in a && h in a ensures ByLabel(LabelGroup(g), LabelGroup(h)) <==> PeriodLe(g, h) {
      GroupKeyValid(a, rows, g);
      GroupKeyValid(a, rows, h);
      PairOrder(g, h);
    }
  }

  lemma GroupKeyValid(a: seq<Group<(int, int)>>, rows: seq<Row>, g: Group<(int, int)>)
    requires ValidPeriods(rows) && IsGrouping(a, rows, PeriodKey) && g in a
    ensures ValidPeriod(g.key.0, g.key.1)
  {
    var i :| 0 <= i < |a| && a[i] == g;
    assert KeysOf(a)[i] == g.key;
    KeysValid(rows, g.key);
  }

  lemma PairOrder(g: Group<(int, int)>, h: Group<(int, int)>)
    requires ValidPeriod(g.key.0, g.key.1) && ValidPeriod(h.key.0, h.key.1)
    ensures ByLabel(LabelGroup(g), LabelGroup(h)) <==> PeriodLe(g, h)
  {
    MonthLabelOrder(g.key.0, g.key.1, h.key.0, h.key.1);
  }

  /** Grouping by label and sorting by label is sorting by period, then labelling. */
  lemma LabelledSort(rows: seq<Row>)
    requires ValidPeriods(rows)
    ensures MonthlyTable(rows) == Map(ByPeriod(rows), LabelGroup)
  {
    var a := Aggregate(rows, PeriodKey);
    MonthAggregate(rows);
    LabelOrderIsPeriodOrder(rows);
    SortMap(a, LabelGroup, PeriodLe, ByLabel);
  }

  /**
   * For four-digit years and months 1..12, the dashboard's monthly table is the
   * SQL monthly trend line for line: the same labels, sums and order.
   */
  lemma MonthlyAgrees(rows: seq<Row>)
    requires ValidPeriods(rows)
    ensures Map(MonthlyTable(rows), DashboardLine) == MonthlyRevenue(rows)
  {
    LabelledSort(rows);
    var s := ByPeriod(rows);
    var l := Map(MonthlyTable(rows), DashboardLine);
    forall i | 0 <= i < |s| ensures l[i] == SqlMonthLine(s[i]) {
      assert KeysOf(s)[i] == s[i].key;
      KeysValid(rows, s[i].key);
      SqlLabelIsMonthLabel(s[i].key.0, s[i].key.1);
    }
  }

  // ---------------------------------------------------------------- the scalar KPIs

  /** Total revenue, profit and margin: the e-mail report and the dashboard give the same figures. */
  lemma TotalsAgree(csv: seq<CsvRow>)
    requires csv != []
    ensures LoadKpis(csv).Some? && KpiBlock(csv).Some?
    ensures var k, d := LoadKpis(csv).value, KpiBlock(csv).value;
      && k.totalRevenue == d.totalRevenue && k.totalProfit == d.totalProfit
      && k.profitMargin == d.profitMargin
  {
    FrameKpisTotals(Coerce(csv));
    FrameKpisMargin(Coerce(csv));
    KpiBlockTotals(csv);
  }

  /** The SQL total revenue is the e-mail report's wherever some SALES value is present. */
  lemma SqlRevenueAgrees(rows: seq<Row>)
    requires !NoSales(rows)
    ensures FrameKpis(rows).Some?
    ensures TotalRevenue(rows) == Some(FrameKpis(rows).value.totalRevenue)
  {
    FrameKpisTotals(rows);
    TotalRevenueSpec(rows);
  }

  /** The SQL total profit is the e-mail report's wherever some SALES value is present. */
  lemma SqlProfitAgrees(rows: seq<Row>)
    requires !NoSales(rows)
    ensures FrameKpis(rows).Some? && ProfitMetrics(rows).Some?
    ensures ProfitMetrics(rows).value.totalProfit == FrameKpis(rows).value.totalProfit
  {
    FrameKpisTotals(rows);
    ProfitMetricsSpec(rows);
  }

  /**
   * The SQL margin divides by the unrounded revenue, the e-mail report by the
   * rounded one; they agree when the revenue has at most two decimals.
   */
  lemma MarginAgrees(rows: seq<Row>)
    requires !NoSales(rows) && HasDecimals(Revenue(rows), 2)
    ensures FrameKpis(rows).Some? && ProfitMetrics(rows).Some?
    ensures ProfitMetrics(rows).value.marginPct == FrameKpis(rows).value.profitMargin
  {
    FrameKpisTotals(rows);
    FrameKpisMargin(rows);
    ProfitMetricsSpec(rows);
    RoundExact(Revenue(rows), 2);
  }

  /**
   * Retention: the dashboard's retained, churned and 2004 counts are the SQL
   * status counts, and all three implementations give the same percentage.
   */
  lemma RetentionAgrees(csv: seq<CsvRow>)
    requires csv != []
    ensures LoadKpis(csv).Some? && KpiBlock(csv).Some?
    ensures var s, d := CustomerStatus(Coerce(csv)), KpiBlock(csv).value;
      && (d.retained, d.churned, d.totalCust) == (s.active, s.churned, s.total)
      && d.retention == LoadKpis(csv).value.retention == Retention(s.active, s.total)
  {
    FrameKpisCustomers(Coerce(csv));
    KpiBlockCustomers(csv);
    RowsOfLoadData(csv);
  }

  /** CAC: the three implementations divide the same budget by the same count of names. */
  lemma CacAgrees(csv: seq<CsvRow>)
    requires csv != []
    ensures LoadKpis(csv).Some? && KpiBlock(csv).Some?
    ensures CacKpi(Coerce(csv)) == Some(LoadKpis(csv).value.cac) == Some(KpiBlock(csv).value.cac)
  {
    FrameKpisCustomers(Coerce(csv));
    KpiBlockCustomers(csv);
  }

  /**
   * The tables, whatever order each implementation gives to keys of equal
   * revenue: the dashboard's product and region tables hold the lines of the SQL
   * ones with the same revenue at every position, its top customers have the SQL
   * top ten's revenue at every position, and the e-mail report's top product and
   * country earn what heads the SQL product and region tables.
   */
  lemma TablesAgree(csv: seq<CsvRow>)
    requires csv != []
    ensures KpiBlock(csv).Some? && LoadKpis(csv).Some?
    ensures var rows, d, k := Coerce(csv), KpiBlock(csv).value, LoadKpis(csv).value;
      && multiset(d.products) == multiset(RevenueByProduct(rows))
      && Revenues(d.products) == Revenues(RevenueByProduct(rows))
      && multiset(d.regions) == multiset(RevenueByRegion(rows))
      && Revenues(d.regions) == Revenues(RevenueByRegion(rows))
      && Revenues(d.topCustomers) == Revenues(TopSalespeople(rows))
      && |RevenueByProduct(rows)| > 0 && |RevenueByRegion(rows)| > 0
      && GroupOf(rows, ProductKey, k.topProduct).revenue == RevenueByProduct(rows)[0].revenue
      && GroupOf(rows, CountryKey, k.topCountry).revenue == RevenueByRegion(rows)[0].revenue
  {
    DashboardTables(csv);
    var d := KpiBlock(csv).value;
    TablesOfRankings(Coerce(csv), d.products, d.regions, d.topCustomers);
    TopsAgreeHeads(csv);
  }

  /** The dashboard's tables are correct rankings and a correct top ten. */
  lemma DashboardTables(csv: seq<CsvRow>)
    requires csv != []
    ensures KpiBlock(csv).Some?
    ensures var rows, d := Coerce(csv), KpiBlock(csv).value;
      && IsRanking(d.products, rows, ProductKey)
      && IsRanking(d.regions, rows, CountryKey)
      && IsTop(d.topCustomers, rows, CustomerKey, 10)
  {
    KpiBlockRankings(csv);
    KpiBlockTopCustomers(csv);
  }

  /** Correct product and region rankings and a correct top ten agree with the SQL tables. */
  lemma TablesOfRankings(rows: seq<Row>, products: seq<Group<string>>, regions: seq<Group<string>>,
                         top: seq<Group<string>>)
    requires IsRanking(products, rows, ProductKey) && IsRanking(regions, rows, CountryKey)
    requires IsTop(top, rows, CustomerKey, 10)
    ensures multiset(products) == multiset(RevenueByProduct(rows))
    ensures Revenues(products) == Revenues(RevenueByProduct(rows))
    ensures multiset(regions) == multiset(RevenueByRegion(rows))
    ensures Revenues(regions) == Revenues(RevenueByRegion(rows))
    ensures Revenues(top) == Revenues(TopSalespeople(rows))
    ensures NoRevenueTies(rows, ProductKey) ==> products == RevenueByProduct(rows)
    ensures NoRevenueTies(rows, CountryKey) ==> regions == RevenueByRegion(rows)
    ensures NoRevenueTies(rows, CustomerKey) ==> top == TopSalespeople(rows)
  {
    RankingsAgree(products, RevenueByProduct(rows), rows, ProductKey);
    RankingsAgree(regions, RevenueByRegion(rows), rows, CountryKey);
    TopsAgree(top, TopSalespeople(rows), rows, CustomerKey, 10);
    if NoRevenueTies(rows, ProductKey) {
      RankingsUnique(products, RevenueByProduct(rows), rows, ProductKey);
    }
    if NoRevenueTies(rows, CountryKey) {
      RankingsUnique(regions, RevenueByRegion(rows), rows, CountryKey);
    }
  }

  lemma TopsAgreeHeads(csv: seq<CsvRow>)
    requires csv != []
    ensures LoadKpis(csv).Some?
    ensures var rows, k := Coerce(csv), LoadKpis(csv).value;
      && RevenueByProduct(rows) != [] && RevenueByRegion(rows) != []
      && GroupOf(rows, ProductKey, k.topProduct).revenue == RevenueByProduct(rows)[0].revenue
      && GroupOf(rows, CountryKey, k.topCountry).revenue == RevenueByRegion(rows)[0].revenue
      && (NoRevenueTies(rows, ProductKey) ==> k.topProduct == RevenueByProduct(rows)[0].key)
      && (NoRevenueTies(rows, CountryKey) ==> k.topCountry == RevenueByRegion(rows)[0].key)
  {
    var rows := Coerce(csv);
    FrameKpisTops(rows);
    var k := FrameKpis(rows).value;
    MaximalKeyHeads(RevenueByProduct(rows), rows, ProductKey, k.topProduct);
    MaximalKeyHeads(RevenueByRegion(rows), rows, CountryKey, k.topCountry);
  }

  /**
   * Where no two product lines, no two countries and no two customers earn the
   * same, the order of ties does not arise and the tables are equal outright.
   */
  lemma TablesAgreeWithoutTies(csv: seq<CsvRow>)
    requires csv != []
    requires var rows := Coerce(csv);
      NoRevenueTies(rows, ProductKey) && NoRevenueTies(rows, CountryKey) && NoRevenueTies(rows, CustomerKey)
    ensures KpiBlock(csv).Some? && LoadKpis(csv).Some?
    ensures var rows, d := Coerce(csv), KpiBlock(csv).value;
      && d.products == RevenueByProduct(rows)
      && d.regions == RevenueByRegion(rows)
      && d.topCustomers == TopSalespeople(rows)
      && |RevenueByProduct(rows)| > 0 && |RevenueByRegion(rows)| > 0
      && LoadKpis(csv).value.topProduct == RevenueByProduct(rows)[0].key
      && LoadKpis(csv).value.topCountry == RevenueByRegion(rows)[0].key
  {
    DashboardTables(csv);
    var d := KpiBlock(csv).value;
    TablesOfRankings(Coerce(csv), d.products, d.regions, d.topCustomers);
    TopsAgreeHeads(csv);
  }
}
