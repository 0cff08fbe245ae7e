/**
 * The sales CSV as the two pandas implementations read it, and the coercion of
 * its SALES column to number-or-missing that both apply first.
 */
module CsvSource {
  import opened Wrappers
  import opened Numbers
  import opened Text
  import opened Sorting
  import opened Engine

  /**
   * One CSV line, with the numeric columns the KPI code coerces still as text.
   * The key columns are taken as present.
   */
  datatype CsvRow = CsvRow(
    productLine: string,
    country: string,
    customer: string,
    year: int,
    month: int,
    orderNumber: Option<int>,
    sales: string,
    priceEach: string,
    quantityOrdered: string)

  /**
   * `pd.to_numeric(x, errors="coerce")` on one cell: the number the text spells in
   * plain decimal notation, or missing (NaN) when it spells none.
   */
  function ToNumeric(s: string): (v: Option<real>)
    ensures Strip(s) == [] ==> v.None?
  {
    ParseDecimal(Strip(s))
  }

  /** An integer written out in decimal, with any surrounding whitespace, reads back as itself. */
  lemma ToNumericOfInt(n: int, pad: string, pad': string)
    requires forall i :: 0 <= i < |pad| ==> IsSpace(pad[i])
    requires forall i :: 0 <= i < |pad'| ==> IsSpace(pad'[i])
    ensures ToNumeric(pad + IntToString(n) + pad') == Some(n as real)
  {
    var w := IntToString(n);
    var s := pad + w + pad';
    IntToStringShape(n);
    StripPadded(pad, w, pad');
    ParseIntToString(n);
  }

  /** A value with d decimals written out, with any surrounding whitespace, reads back as itself. */
  lemma ToNumericOfDecimal(x: real, d: nat, pad: string, pad': string)
    requires HasDecimals(x, d)
    requires forall i :: 0 <= i < |pad| ==> IsSpace(pad[i])
    requires forall i :: 0 <= i < |pad'| ==> IsSpace(pad'[i])
    ensures ToNumeric(pad + DecimalToString(x, d) + pad') == Some(x)
  {
    var w := DecimalToString(x, d);
    DecimalToStringShape(x, d);
    StripPadded(pad, w, pad');
    ParseDecimalToString(x, d);
  }

  /** The engine's view of a CSV line once SALES is coerced. */
  function SalesRow(c: CsvRow): (r: Row)
    ensures r.sales == ToNumeric(c.sales)
    ensures (r.productLine, r.country, r.customer) == (c.productLine, c.country, c.customer)
    ensures (r.year, r.month, r.orderNumber) == (c.year, c.month, c.orderNumber)
  {
    Row(c.productLine, c.country, c.customer, c.year, c.month, c.orderNumber, ToNumeric(c.sales))
  }

  /** The coerced table, line for line. */
  function Coerce(csv: seq<CsvRow>): (rows: seq<Row>)
    ensures |rows| == |csv| && forall i :: 0 <= i < |csv| ==> rows[i] == SalesRow(csv[i])
  {
    Map(csv, SalesRow)
  }
}
