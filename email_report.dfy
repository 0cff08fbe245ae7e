/**
 * The KPI figures of reports/email_report_cloud.py: `load_kpis`, computed with
 * pandas from the coerced CSV, and the two aggregate tables `generate_pdf`
 * lays out. Reading the file, the PDF layout and the mail are not modelled.
 */
module EmailReport {
  import opened Wrappers
  import opened Numbers
  import opened Engine
  import opened Metrics
  import opened CsvSource

  /** The dictionary `load_kpis` returns. */
  datatype Kpis = Kpis(
    totalRevenue: real,
    totalProfit: real,
    profitMargin: Option<real>,
    cac: real,
    retention: real,
    topProduct: string,
    topCountry: string,
    topCountryRev: real,
    numCustomers: nat)

  /** `load_kpis`: coerce SALES, then compute the figures on the frame. */
  function LoadKpis(csv: seq<CsvRow>): Option<Kpis>
  {
    FrameKpis(Coerce(csv))
  }

  /**
   * The figures `load_kpis` computes from the coerced frame. None where the code
   * raises: with no customer names, `500 / num_customers` divides by zero. The
   * margin is None where the rounded revenue is 0 (NaN or an infinity in pandas).
   */
  function FrameKpis(rows: seq<Row>): Option<Kpis>
  {
    var totalRevenue := Round(Revenue(rows), 2);
    var totalProfit := Round(ProfitTotal(rows), 2);
    var numCustomers := CustomerCount(rows);
    match Cac(numCustomers)
    case None => None
    case Some(cac) =>
      var c2004 := CustomersIn(rows, 2004);
      var c2005 := CustomersIn(rows, 2005);
      var byProduct := Ranked(rows, ProductKey);
      var byCountry := Ranked(rows, CountryKey);
      KeysEmpty(rows, CustomerKey);
      RankedIsRanking(rows, ProductKey);
      RankedIsRanking(rows, CountryKey);
      NonEmptyRanking(byProduct, rows, ProductKey);
      NonEmptyRanking(byCountry, rows, CountryKey);
      AggregateIsGrouping(rows, CountryKey);
      NonEmptyRanking(Aggregate(rows, CountryKey), rows, CountryKey);
      Some(Kpis(
        totalRevenue,
        totalProfit,
        Margin(totalProfit, totalRevenue),
        cac,
        Retention(|c2004 * c2005|, |c2004|),
        byProduct[0].key,
        byCountry[0].key,
        MaxRevenue(Aggregate(rows, CountryKey)).value,
        numCustomers))
  }

  /** `load_kpis` fails exactly on a table without rows. */
  lemma LoadKpisDefined(csv: seq<CsvRow>)
    ensures LoadKpis(csv).None? <==> csv == []
  {
    FrameKpisDefined(Coerce(csv));
  }

  lemma FrameKpisDefined(rows: seq<Row>)
    ensures FrameKpis(rows).None? <==> rows == []
  {
    KeysEmpty(rows, CustomerKey);
  }

  /** Revenue and profit are the rounded sums, profit the 45% share. */
  lemma FrameKpisTotals(rows: seq<Row>)
    requires rows != []
    ensures FrameKpis(rows).Some?
    ensures var k := FrameKpis(rows).value;
      && k.totalRevenue == Round(Revenue(rows), 2)
      && k.totalProfit == Round(ProfitShare * Revenue(rows), 2)
  {
    FrameKpisDefined(rows);
    ProfitIsShare(rows);
  }

  /** The margin divides the rounded profit by the rounded revenue; it is missing exactly when that revenue rounds to 0. */
  lemma FrameKpisMargin(rows: seq<Row>)
    requires rows != []
    ensures FrameKpis(rows).Some?
    ensures var k := FrameKpis(rows).value;
      && k.profitMargin == Margin(k.totalProfit, k.totalRevenue)
      && (k.profitMargin.None? <==> Round(Revenue(rows), 2) == 0.0)
  {
    FrameKpisDefined(rows);
  }

  /**
   * The customer count is the number of distinct names, CAC is computed from it,
   * and retention is the share of 2004 customers seen again in 2005, a percentage.
   */
  lemma FrameKpisCustomers(rows: seq<Row>)
    requires rows != []
    ensures FrameKpis(rows).Some?
    ensures var k := FrameKpis(rows).value;
      var c2004 := CustomersIn(rows, 2004);
      && k.numCustomers == |Keys(rows, CustomerKey)| > 0
      && Some(k.cac) == Cac(k.numCustomers)
      && k.retention == Retention(|c2004 * CustomersIn(rows, 2005)|, |c2004|)
      && 0.0 <= k.retention <= 100.0
  {
    FrameKpisDefined(rows);
    KeysEmpty(rows, CustomerKey);
    RetentionOfSets(CustomersIn(rows, 2004), CustomersIn(rows, 2005));
  }

  /**
   * `top_product` is a product line of greatest revenue; `top_country` is a
   * country of greatest revenue and `top_country_rev`, the largest per-country
   * sum, is that country's own sum.
   */
  lemma FrameKpisTops(rows: seq<Row>)
    requires rows != []
    ensures FrameKpis(rows).Some?
    ensures var k := FrameKpis(rows).value;
      && k.topProduct in Keys(rows, ProductKey)
      && (forall p :: p in Keys(rows, ProductKey) ==>
            GroupOf(rows, ProductKey, p).revenue <= GroupOf(rows, ProductKey, k.topProduct).revenue)
      && k.topCountry in Keys(rows, CountryKey)
      && k.topCountryRev == GroupOf(rows, CountryKey, k.topCountry).revenue
      && (forall c :: c in Keys(rows, CountryKey) ==> GroupOf(rows, CountryKey, c).revenue <= k.topCountryRev)
  {
    FrameKpisDefined(rows);
    var byProduct := Ranked(rows, ProductKey);
    var byCountry := Ranked(rows, CountryKey);
    RankedIsRanking(rows, ProductKey);
    RankedIsRanking(rows, CountryKey);
    AggregateIsGrouping(rows, CountryKey);
    AggregateIsGrouping(rows, ProductKey);
    MaxIsTopOfRanking(Aggregate(rows, ProductKey), byProduct, rows, ProductKey);
    MaxIsTopOfRanking(Aggregate(rows, CountryKey), byCountry, rows, CountryKey);
    RankingHead(byProduct, rows, ProductKey);
    RankingHead(byCountry, rows, CountryKey);
    assert KeysOf(byProduct)[0] == byProduct[0].key;
    assert KeysOf(byCountry)[0] == byCountry[0].key;
  }

  /**
   * The PDF's product table: `groupby("PRODUCTLINE").agg(revenue=sum, profit=sum)`
   * sorted by revenue descending — every product line once, with its sums.
   */
  function PdfProductTable(csv: seq<CsvRow>): (t: seq<Group<string>>)
    ensures IsRanking(t, Coerce(csv), ProductKey)
    ensures |t| == |Keys(Coerce(csv), ProductKey)|
    ensures forall i :: 0 <= i < |t| ==> t[i].profit == ProfitShare * t[i].revenue
  {
    var rows := Coerce(csv);
    RankedIsRanking(rows, ProductKey);
    KeyCount(Ranked(rows, ProductKey), rows, ProductKey);
    GroupProfitIsShare(Ranked(rows, ProductKey), rows, ProductKey);
    Ranked(rows, ProductKey)
  }

  /**
   * The PDF's country table: per-country revenue sorted descending, `head(10)` —
   * at most ten countries, ordered, and none left out earns more than one kept.
   */
  function PdfCountryTable(csv: seq<CsvRow>): (t: seq<Group<string>>)
    ensures |t| <= 10 && NonIncreasing(t) && Distinct(KeysOf(t))
    ensures |t| == (if |Keys(Coerce(csv), CountryKey)| < 10 then |Keys(Coerce(csv), CountryKey)| else 10)
    ensures forall i :: 0 <= i < |t| ==>
      t[i].key in Keys(Coerce(csv), CountryKey) && t[i] == GroupOf(Coerce(csv), CountryKey, t[i].key)
    ensures forall c, i :: c in Keys(Coerce(csv), CountryKey) && c !in KeysOf(t) && 0 <= i < |t| ==>
      GroupOf(Coerce(csv), CountryKey, c).revenue <= t[i].revenue
    ensures IsTop(t, Coerce(csv), CountryKey, 10)
  {
    var rows := Coerce(csv);
    RankedIsRanking(rows, CountryKey);
    TopOfRanking(Ranked(rows, CountryKey), rows, CountryKey, 10);
    TopIsTop(Ranked(rows, CountryKey), rows, CountryKey, 10);
    Top(Ranked(rows, CountryKey), 10)
  }
}
