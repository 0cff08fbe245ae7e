/**
 * The data preparation and KPI block of dashboard/streamlit_app.py: `load_data`
 * and the module-level figures and tables, computed with pandas from the CSV.
 * The page layout and the charts are not modelled.
 */
module StreamlitApp {
  import opened Wrappers
  import opened Numbers
  import opened Text
  import opened Sorting
  import opened Engine
  import opened Metrics
  import opened CsvSource

  // ---------------------------------------------------------------- load_data

  /** One line of the frame `load_data` returns, with its coerced and derived columns. */
  datatype Record = Record(row: Row, priceEach: Option<real>, quantityOrdered: Option<real>, profit: Option<real>)

  /** SALES, PRICEEACH and QUANTITYORDERED coerced to number-or-missing; PROFIT = SALES * 0.45. */
  function ToRecord(c: CsvRow): (r: Record)
    ensures r.row == SalesRow(c) && r.row.sales == ToNumeric(c.sales)
    ensures r.priceEach == ToNumeric(c.priceEach) && r.quantityOrdered == ToNumeric(c.quantityOrdered)
    ensures r.profit.None? <==> r.row.sales.None?
    ensures r.profit.Some? ==> r.profit.value == ProfitShare * r.row.sales.value
  {
    var row := SalesRow(c);
    Record(row, ToNumeric(c.priceEach), ToNumeric(c.quantityOrdered), Profit(row))
  }

  /** `load_data`: one record per CSV line, in order. */
  function LoadData(csv: seq<CsvRow>): (df: seq<Record>)
    ensures |df| == |csv| && forall i :: 0 <= i < |csv| ==> df[i] == ToRecord(csv[i])
  {
    Map(csv, ToRecord)
  }

  function RowOf(r: Record): Row { r.row }

  /** `df["PROFIT"].sum()`: the PROFIT column added up, missing values skipped. */
  function ProfitColumn(df: seq<Record>): real
  {
    if df == [] then 0.0 else ProfitColumn(df[..|df| - 1]) + df[|df| - 1].profit.GetOr(0.0)
  }

  /** The frame's engine rows are the coerced CSV lines. */
  lemma RowsOfLoadData(csv: seq<CsvRow>)
    ensures Map(LoadData(csv), RowOf) == Coerce(csv)
  {
    var df := LoadData(csv);
    var l := Map(df, RowOf);
    forall i | 0 <= i < |l| ensures l[i] == Coerce(csv)[i] {
      assert l[i] == df[i].row;
    }
  }

  /** Where every PROFIT cell is derived from its SALES cell, the column adds up to the engine's profit total. */
  lemma {:induction false} ProfitColumnRows(df: seq<Record>)
    requires forall i :: 0 <= i < |df| ==> df[i].profit == Profit(df[i].row)
    ensures ProfitColumn(df) == ProfitTotal(Map(df, RowOf))
  {
    if df != [] {
      var init := df[..|df| - 1];
      ProfitColumnRows(init);
      assert Map(init, RowOf) == Map(df, RowOf)[..|df| - 1];
    }
  }

  /** Adding up the derived PROFIT column gives the engine's total profit, 45% of revenue. */
  lemma ProfitColumnIsShare(csv: seq<CsvRow>)
    ensures ProfitColumn(LoadData(csv)) == ProfitTotal(Coerce(csv)) == ProfitShare * Revenue(Coerce(csv))
  {
    ProfitColumnRows(LoadData(csv));
    RowsOfLoadData(csv);
    ProfitIsShare(Coerce(csv));
  }

  // ---------------------------------------------------------------- the monthly key

  /** `df["YEAR_ID"].astype(str) + "-" + df["MONTH_ID"].astype(str).str.zfill(2)`. */
  function MonthLabel(year: int, month: int): string
  {
    IntToString(year) + "-" + ZFill(IntToString(month), 2)
  }

  function MonthKey(r: Row): string { MonthLabel(r.year, r.month) }

  /** A month in 0..99 pads to two digits that spell it. */
  lemma TwoDigits(m: int)
    requires 0 <= m <= 99
    ensures var s := ZFill(IntToString(m), 2);
      |s| == 2 && AllDigits(s) && DigitsValue(s) == m
  {
    var d := NatToString(m);
    NatToStringLength(m);
    if m < 10 {
      var s := ZFill(d, 2);
      assert s == "0" + d;
      assert s[..1] == "0";
    }
  }

  /** A year in 1000..9999 is four digits that spell it. */
  lemma FourDigits(y: int)
    requires 1000 <= y <= 9999
    ensures var s := IntToString(y); |s| == 4 && AllDigits(s) && DigitsValue(s) == y
  {
    NatToStringLength(y);
  }

  /** A month or year in range: the label is chronological only for these. */
  predicate ValidPeriod(year: int, month: int)
  {
    1000 <= year <= 9999 && 1 <= month <= 12
  }

  /**
   * For four-digit years and months 1..12, Python's string order on the labels
   * is the chronological order: by year, then by month.
   */
  lemma MonthLabelOrder(y1: int, m1: int, y2: int, m2: int)
    requires ValidPeriod(y1, m1) && ValidPeriod(y2, m2)
    ensures StrLe(MonthLabel(y1, m1), MonthLabel(y2, m2)) <==> y1 < y2 || (y1 == y2 && m1 <= m2)
  {
    var a, b := IntToString(y1), IntToString(y2);
    var c, e := ZFill(IntToString(m1), 2), ZFill(IntToString(m2), 2);
    FourDigits(y1);
    FourDigits(y2);
    TwoDigits(m1);
    TwoDigits(m2);
    assert MonthLabel(y1, m1) == a + ("-" + c);
    assert MonthLabel(y2, m2) == b + ("-" + e);
    StrLeConcat(a, "-" + c, b, "-" + e);
    StrLeConcat("-", c, "-", e);
    DigitsOrder(a, b);
    DigitsOrder(c, e);
    assert a == b <==> y1 == y2 by {
      if a == b {
        assert DigitsValue(a) == DigitsValue(b);
      }
    }
  }

  /** Different valid periods get different labels. */
  lemma MonthLabelInjective(y1: int, m1: int, y2: int, m2: int)
    requires ValidPeriod(y1, m1) && ValidPeriod(y2, m2)
    requires MonthLabel(y1, m1) == MonthLabel(y2, m2)
    ensures y1 == y2 && m1 == m2
  {
    MonthLabelOrder(y1, m1, y2, m2);
    MonthLabelOrder(y2, m2, y1, m1);
    StrLeTotal(MonthLabel(y1, m1), MonthLabel(y2, m2));
  }

  /** `sort_values("month")`: ascending by the label string. */
  function ByLabel(a: Group<string>, b: Group<string>): bool
  {
    StrLe(a.key, b.key)
  }

  lemma ByLabelIsTotalPreorder()
    ensures TotalPreorder(ByLabel)
  {
    forall a: Group<string>, b: Group<string> ensures ByLabel(a, b) || ByLabel(b, a) {
      StrLeTotal(a.key, b.key);
    }
    forall a: Group<string>, b: Group<string>, c: Group<string> | ByLabel(a, b) && ByLabel(b, c)
      ensures ByLabel(a, c)
    {
      StrLeTransitive(a.key, b.key, c.key);
    }
  }

  /**
   * `df_monthly`: `groupby("month").agg(revenue=sum, profit=sum).sort_values("month")` —
   * one line per label, in strictly ascending label order.
   */
  function MonthlyTable(rows: seq<Row>): (t: seq<Group<string>>)
    ensures IsGrouping(t, rows, MonthKey)
    ensures forall i, j :: 0 <= i < j < |t| ==> StrLe(t[i].key, t[j].key) && t[i].key != t[j].key
  {
    var a := Aggregate(rows, MonthKey);
    AggregateIsGrouping(rows, MonthKey);
    PermutedGrouping(a, Sort(a, ByLabel), rows, MonthKey);
    ByLabelIsTotalPreorder();
    SortSorted(a, ByLabel);
    var t := Sort(a, ByLabel);
    assert forall i, j :: 0 <= i < j < |t| ==> KeysOf(t)[i] != KeysOf(t)[j];
    t
  }

  // ---------------------------------------------------------------- the KPI block

  /** The module-level figures and tables the page shows. */
  datatype Dashboard = Dashboard(
    totalRevenue: real,
    totalProfit: real,
    profitMargin: Option<real>,
    retained: nat,
    churned: nat,
    totalCust: nat,
    retention: real,
    cac: real,
    products: seq<Group<string>>,
    regions: seq<Group<string>>,
    topCustomers: seq<Group<string>>,
    monthly: seq<Group<string>>)

  /**
   * The KPI block of the dashboard script. None where it stops with an exception: with no
   * customer names, `500 / nunique()` divides by zero.
   */
  function KpiBlock(csv: seq<CsvRow>): Option<Dashboard>
  {
    var df := LoadData(csv);
    var rows := Map(df, RowOf);
    var totalRevenue := Round(Revenue(rows), 2);
    var totalProfit := Round(ProfitColumn(df), 2);
    var c2004 := CustomersIn(rows, 2004);
    var c2005 := CustomersIn(rows, 2005);
    var retained := |c2004 * c2005|;
    var totalCust := |c2004|;
    match Cac(CustomerCount(rows))
    case None => None
    case Some(cac) =>
      Some(Dashboard(
        totalRevenue,
        totalProfit,
        Margin(totalProfit, totalRevenue),
        retained,
        |c2004 - c2005|,
        totalCust,
        Retention(retained, totalCust),
        cac,
        Ranked(rows, ProductKey),
        Ranked(rows, CountryKey),
        Top(Ranked(rows, CustomerKey), 10),
        MonthlyTable(rows)))
  }

  /** The block fails exactly on a table without rows. */
  lemma KpiBlockDefined(csv: seq<CsvRow>)
    ensures KpiBlock(csv).None? <==> csv == []
  {
    RowsOfLoadData(csv);
    KeysEmpty(Coerce(csv), CustomerKey);
  }

  /** Revenue and profit are the rounded sums, profit the 45% share; the margin divides the rounded figures. */
  lemma KpiBlockTotals(csv: seq<CsvRow>)
    requires csv != []
    ensures KpiBlock(csv).Some?
    ensures var rows := Coerce(csv);
      var d := KpiBlock(csv).value;
      && d.totalRevenue == Round(Revenue(rows), 2)
      && d.totalProfit == Round(ProfitShare * Revenue(rows), 2)
      && d.profitMargin == Margin(d.totalProfit, d.totalRevenue)
  {
    KpiBlockDefined(csv);
    RowsOfLoadData(csv);
    ProfitColumnIsShare(csv);
  }

  /**
   * Retained and churned split the 2004 customers; retention is the retained
   * share in percent (0 without 2004 customers); CAC uses the distinct names.
   */
  lemma KpiBlockCustomers(csv: seq<CsvRow>)
    requires csv != []
    ensures KpiBlock(csv).Some?
    ensures var rows := Coerce(csv);
      var d := KpiBlock(csv).value;
      && d.retained + d.churned == d.totalCust == |CustomersIn(rows, 2004)|
      && d.retained == |CustomersIn(rows, 2004) * CustomersIn(rows, 2005)|
      && d.retention == Retention(d.retained, d.totalCust)
      && 0.0 <= d.retention <= 100.0
      && Some(d.cac) == Cac(|Keys(rows, CustomerKey)|)
  {
    KpiBlockDefined(csv);
    RowsOfLoadData(csv);
    var rows := Coerce(csv);
    SplitCount(CustomersIn(rows, 2004), CustomersIn(rows, 2005));
    RetentionOfSets(CustomersIn(rows, 2004), CustomersIn(rows, 2005));
  }

  /** The product and region tables are correct rankings, and the monthly table is the label-sorted grouping. */
  lemma KpiBlockRankings(csv: seq<CsvRow>)
    requires csv != []
    ensures KpiBlock(csv).Some?
    ensures var rows := Coerce(csv);
      var d := KpiBlock(csv).value;
      && IsRanking(d.products, rows, ProductKey)
      && IsRanking(d.regions, rows, CountryKey)
      && d.monthly == MonthlyTable(rows)
  {
    KpiBlockDefined(csv);
    RowsOfLoadData(csv);
    var rows := Coerce(csv);
    RankedIsRanking(rows, ProductKey);
    RankedIsRanking(rows, CountryKey);
  }

  /**
   * The top-customer table holds at most ten customers, ordered by revenue, each
   * with its own sums, and no customer left out earns more than one listed.
   */
  lemma KpiBlockTopCustomers(csv: seq<CsvRow>)
    requires csv != []
    ensures KpiBlock(csv).Some?
    ensures var rows := Coerce(csv);
      var t := KpiBlock(csv).value.topCustomers;
      && |t| <= 10 && NonIncreasing(t) && Distinct(KeysOf(t))
      && |t| == (if |Keys(rows, CustomerKey)| < 10 then |Keys(rows, CustomerKey)| else 10)
      && IsTop(t, rows, CustomerKey, 10)
      && (forall i :: 0 <= i < |t| ==> t[i] == GroupOf(rows, CustomerKey, t[i].key))
      && (forall k, i :: k in Keys(rows, CustomerKey) && k !in KeysOf(t) && 0 <= i < |t| ==>
            GroupOf(rows, CustomerKey, k).revenue <= t[i].revenue)
  {
    TopCustomersField(csv);
    TopTen(Coerce(csv));
  }

  lemma TopCustomersField(csv: seq<CsvRow>)
    requires csv != []
    ensures KpiBlock(csv).Some?
    ensures KpiBlock(csv).value.topCustomers == Top(Ranked(Coerce(csv), CustomerKey), 10)
  {
    KpiBlockDefined(csv);
    RowsOfLoadData(csv);
  }

  lemma TopTen(rows: seq<Row>)
    ensures var t := Top(Ranked(rows, CustomerKey), 10);
      && |t| <= 10 && NonIncreasing(t) && Distinct(KeysOf(t))
      && |t| == (if |Keys(rows, CustomerKey)| < 10 then |Keys(rows, CustomerKey)| else 10)
      && IsTop(t, rows, CustomerKey, 10)
      && (forall i :: 0 <= i < |t| ==> t[i] == GroupOf(rows, CustomerKey, t[i].key))
      && (forall k, i :: k in Keys(rows, CustomerKey) && k !in KeysOf(t) && 0 <= i < |t| ==>
            GroupOf(rows, CustomerKey, k).revenue <= t[i].revenue)
  {
    RankedIsRanking(rows, CustomerKey);
    TopOfRanking(Ranked(rows, CustomerKey), rows, CustomerKey, 10);
    TopIsTop(Ranked(rows, CustomerKey), rows, CustomerKey, 10);
  }
}
