/**
 * etl/import_to_sql.py: the cell normaliser `clean`, the parsers `to_int` and
 * `to_float`, the in-place stripping and cleaning of the frame read from the
 * CSV, and the bookkeeping of the insert loop. The database is not modelled:
 * each row's INSERT is given as a success flag.
 */
module ImportToSql {
  import opened Wrappers
  import opened Numbers
  import opened Text
  import opened Sorting

  // ---------------------------------------------------------------- clean

  /**
   * A cell of the frame read with `dtype=str`: a string, the float NaN pandas
   * puts in empty cells, or Python's None once `clean` has run.
   */
  datatype Cell = PyNone | NaN | Text(s: string)

  /**
   * `clean`: None and NaN become None, a string is stripped, and a stripped
   * string that lowers to "nan", "none", "null" or "" becomes None.
   */
  function Clean(v: Cell): (r: Option<string>)
    ensures v.PyNone? || v.NaN? ==> r.None?
    ensures v.Text? ==> (r.None? <==> IsNullToken(Strip(v.s)))
    ensures r.Some? ==> v.Text? && r.value == Strip(v.s)
    ensures r.Some? ==> IsStripped(r.value) && !IsNullToken(r.value)
  {
    match v
    case PyNone => None
    case NaN => None
    case Text(s) =>
      var t := Strip(s);
      if IsNullToken(t) then None else Some(t)
  }

  /** What the column holds after `apply(clean)`: None for no value, the string otherwise. */
  function Lift(r: Option<string>): Cell
  {
    match r
    case None => PyNone
    case Some(s) => Text(s)
  }

  function CleanCell(c: Cell): Cell { Lift(Clean(c)) }

  /** A cell `clean` leaves alone: None, or a stripped string that is no null token. */
  predicate IsClean(c: Cell)
  {
    c.PyNone? || (c.Text? && IsStripped(c.s) && !IsNullToken(c.s))
  }

  /** `clean` yields clean cells and leaves clean cells alone, so cleaning twice is cleaning once. */
  lemma CleanIdempotent(c: Cell)
    ensures IsClean(CleanCell(c))
    ensures IsClean(c) ==> CleanCell(c) == c
    ensures CleanCell(CleanCell(c)) == CleanCell(c)
  {
    if c.Text? && IsStripped(c.s) {
      StripStripped(c.s);
    }
    var d := CleanCell(c);
    if d.Text? {
      StripStripped(d.s);
    }
  }

  /** The null tokens are recognised in any letter case. */
  lemma CleanNullToken()
    ensures Clean(Text("NULL")) == None
  {
    StripStripped("NULL");
    assert Lower("NULL") == "null";
  }

  /** A real value keeps its text. */
  lemma CleanKeepsValue()
    ensures Clean(Text("Paris")) == Some("Paris")
  {
    StripStripped("Paris");
    assert Lower("Paris")[0] == 'p';
  }

  /** Whitespace around a value does not change what `clean` makes of it. */
  lemma CleanIgnoresPadding(pad: string, s: string, pad': string)
    requires forall i :: 0 <= i < |pad| ==> IsSpace(pad[i])
    requires forall i :: 0 <= i < |pad'| ==> IsSpace(pad'[i])
    requires s != [] && !IsSpace(s[0]) && !IsSpace(s[|s| - 1])
    ensures Clean(Text(pad + s + pad')) == Clean(Text(s))
  {
    StripPadded(pad, s, pad');
    StripStripped(s);
  }

  // ---------------------------------------------------------------- to_float and to_int

  /**
   * `to_float`: None stays None, a string is read by `float`, which ignores
   * surrounding whitespace; an unparseable string becomes None.
   */
  function ToFloat(v: Option<string>): (r: Option<real>)
    ensures v.None? ==> r.None?
    ensures v.Some? && Strip(v.value) == [] ==> r.None?
  {
    match v
    case None => None
    case Some(s) => ParseDecimal(Strip(s))
  }

  /** `to_int`: `int(float(s))`, truncating toward zero; None where `to_float` has no value. */
  function ToInt(v: Option<string>): (r: Option<int>)
    ensures r.None? <==> ToFloat(v).None?
    ensures r.Some? ==> var x := ToFloat(v).value;
      && (x >= 0.0 ==> 0 <= r.value && r.value as real <= x < r.value as real + 1.0)
      && (x < 0.0 ==> r.value <= 0 && r.value as real - 1.0 < x <= r.value as real)
  {
    match ToFloat(v)
    case None => None
    case Some(x) => Some(Trunc(x))
  }

  /** A stripped decimal integer reads back as itself under both parsers. */
  lemma ParsersOfInt(n: int)
    ensures ToFloat(Some(IntToString(n))) == Some(n as real)
    ensures ToInt(Some(IntToString(n))) == Some(n)
  {
    var s := IntToString(n);
    IntToStringShape(n);
    StripStripped(s);
    ParseIntToString(n);
  }

  /**
   * A value with d decimals written out, with any surrounding whitespace, reads back
   * as itself, and `to_int` truncates it toward zero.
   */
  lemma ParsersOfDecimal(x: real, d: nat, pad: string, pad': string)
    requires HasDecimals(x, d)
    requires forall i :: 0 <= i < |pad| ==> IsSpace(pad[i])
    requires forall i :: 0 <= i < |pad'| ==> IsSpace(pad'[i])
    ensures ToFloat(Some(pad + DecimalToString(x, d) + pad')) == Some(x)
    ensures ToInt(Some(pad + DecimalToString(x, d) + pad')) == Some(Trunc(x))
  {
    var w := DecimalToString(x, d);
    DecimalToStringShape(x, d);
    StripPadded(pad, w, pad');
    ParseDecimalToString(x, d);
  }

  /** `int(float("3.9"))` is 3: a positive value is truncated down. */
  lemma TruncatesPositive()
    ensures ToFloat(Some("3.9")) == Some(3.9) && ToInt(Some("3.9")) == Some(3)
  {
    PositiveParses();
    StripStripped("3.9");
    assert ToFloat(Some("3.9")) == Some(3.9);
    TruncBetween(3.9, 3);
  }

  lemma PositiveParses()
    ensures ParseDecimal("3.9") == Some(3.9)
  {
    ParseUnsignedPoint("3.9", "3", "9");
    assert DigitsValue("3") == 3 && DigitsValue("9") == 9 by {
      assert "3"[..0] == [] && "9"[..0] == [];
    }
    assert Pow10(1) == 10;
  }

  /** `int(float("-2.5"))` is -2: a negative value is truncated toward zero, not down. */
  lemma TruncatesNegative()
    ensures ToFloat(Some("-2.5")) == Some(-2.5) && ToInt(Some("-2.5")) == Some(-2)
  {
    NegativeParses();
    StripStripped("-2.5");
    assert ToFloat(Some("-2.5")) == Some(-2.5);
    TruncBetween(-2.5, -2);
  }

  lemma NegativeParses()
    ensures ParseDecimal("-2.5") == Some(-2.5)
  {
    var u := "-2.5"[1..];
    assert u == "2.5";
    ParseUnsignedPoint(u, "2", "5");
    assert DigitsValue("2") == 2 && DigitsValue("5") == 5 by {
      assert "2"[..0] == [] && "5"[..0] == [];
    }
    assert Pow10(1) == 10;
  }

  /** Truncation of x is n where x lies within 1 of n, on the side of 0. */
  lemma TruncBetween(x: real, n: int)
    requires x >= 0.0 ==> n as real <= x < n as real + 1.0
    requires x < 0.0 ==> n as real - 1.0 < x <= n as real
    ensures Trunc(x) == n
  {
  }

  /** Text that spells no number is None under both parsers, as is None itself. */
  lemma RejectsText()
    ensures ToFloat(Some("abc")) == None && ToInt(Some("abc")) == None && ToInt(None) == None
  {
    StripStripped("abc");
    assert DotIndex("abc") == 3 by {
      assert "abc"[1..] == "bc" && "bc"[1..] == "c" && "c"[1..] == [];
    }
    assert !IsDigit("abc"[0]);
  }

  // ---------------------------------------------------------------- the frame

  function StripCell(c: Cell): Cell
  {
    match c
    case Text(s) => Text(Strip(s))
    case _ => c
  }

  function StripColumn(col: seq<Cell>): seq<Cell> { Map(col, StripCell) }

  /**
   * The frame read from the CSV, column by column: `columns[j]` names the column
   * whose cells, top to bottom, are `cells[j]`.
   */
  class Frame {
    var columns: seq<string>
    var cells: seq<seq<Cell>>

    /** One cell list per name, all of one height. */
    ghost predicate Valid()
      reads this
    {
      && |columns| == |cells|
      && forall j, k :: 0 <= j < |cells| && 0 <= k < |cells| ==> |cells[j]| == |cells[k]|
    }

    constructor (names: seq<string>, data: seq<seq<Cell>>)
      requires |names| == |data|
      requires forall j, k :: 0 <= j < |data| && 0 <= k < |data| ==> |data[j]| == |data[k]|
      ensures Valid() && columns == names && cells == data
    {
      columns := names;
      cells := data;
    }

    /** `df.columns = df.columns.str.strip()`. */
    method StripNames()
      requires Valid()
      modifies this
      ensures Valid()
      ensures |columns| == |old(columns)| && forall j :: 0 <= j < |columns| ==> columns[j] == Strip(old(columns)[j])
      ensures cells == old(cells)
    {
      columns := Map(columns, Strip);
    }

    /** Line 13: every string cell is stripped; NaN cells stay NaN. */
    method StripCells()
      requires Valid()
      modifies this
      ensures Valid()
      ensures columns == old(columns)
      ensures |cells| == |old(cells)| && forall j :: 0 <= j < |cells| ==> cells[j] == StripColumn(old(cells)[j])
    {
      cells := Map(cells, StripColumn);
    }

    /** Each column in turn is replaced by `clean` applied to its cells. */
    method CleanColumns()
      requires Valid()
      modifies this
      ensures Valid()
      ensures columns == old(columns)
      ensures |cells| == |old(cells)|
      ensures forall j :: 0 <= j < |cells| ==> cells[j] == Map(old(cells)[j], CleanCell)
      ensures forall j, i :: 0 <= j < |cells| && 0 <= i < |cells[j]| ==> IsClean(cells[j][i])
    {
      for j := 0 to |cells|
        invariant |cells| == |old(cells)| && columns == old(columns)
        invariant forall k :: 0 <= k < j ==> cells[k] == Map(old(cells)[k], CleanCell)
        invariant forall k :: j <= k < |cells| ==> cells[k] == old(cells)[k]
      {
        cells := cells[j := Map(cells[j], CleanCell)];
      }
      forall j, i | 0 <= j < |cells| && 0 <= i < |cells[j]| ensures IsClean(cells[j][i]) {
        CleanIdempotent(old(cells)[j][i]);
      }
    }
  }

  /** Cleaning a column a second time changes nothing. */
  lemma CleanColumnIdempotent(col: seq<Cell>)
    ensures Map(Map(col, CleanCell), CleanCell) == Map(col, CleanCell)
  {
    forall i | 0 <= i < |col| ensures CleanCell(CleanCell(col[i])) == CleanCell(col[i]) {
      CleanIdempotent(col[i]);
    }
  }

  // ---------------------------------------------------------------- the insert loop

  /** The number of rows whose INSERT succeeded. */
  function Succeeded(outcomes: seq<bool>): nat
  {
    if outcomes == [] then 0
    else Succeeded(outcomes[..|outcomes| - 1]) + (if outcomes[|outcomes| - 1] then 1 else 0)
  }

  /** The positions of the rows whose INSERT failed, in order. */
  function Failures(outcomes: seq<bool>): seq<nat>
  {
    if outcomes == [] then []
    else Failures(outcomes[..|outcomes| - 1]) + (if outcomes[|outcomes| - 1] then [] else [|outcomes| - 1])
  }

  /** The at most three failures whose details the log keeps: the first ones. */
  function Sample(failures: seq<nat>): seq<nat>
  {
    if |failures| <= 3 then failures else failures[..3]
  }

  /** The values of `inserted` at which the loop commits: the multiples of 200 up to n. */
  function CommitPoints(n: nat): seq<nat>
  {
    seq(n / 200, i => 200 * (i + 1))
  }

  /** The commit points are exactly the positive multiples of 200 up to n, in increasing order. */
  lemma CommitPointsSpec(n: nat)
    ensures forall i :: 0 <= i < |CommitPoints(n)| ==>
      CommitPoints(n)[i] % 200 == 0 && 0 < CommitPoints(n)[i] <= n
    ensures forall i, j :: 0 <= i < j < |CommitPoints(n)| ==> CommitPoints(n)[i] < CommitPoints(n)[j]
    ensures forall m: nat :: 0 < m <= n && m % 200 == 0 ==> m in CommitPoints(n)
  {
    var c := CommitPoints(n);
    forall i | 0 <= i < |c| ensures c[i] <= n {
      assert (i + 1) * 200 <= (n / 200) * 200;
    }
    forall m: nat | 0 < m <= n && m % 200 == 0 ensures m in c {
      var i := m / 200 - 1;
      assert m / 200 <= n / 200;
      assert c[i] == m;
    }
  }

  /** Every failure is a failing row, every failing row is listed, and in increasing order. */
  lemma {:induction false} FailuresSpec(outcomes: seq<bool>)
    ensures |Failures(outcomes)| + Succeeded(outcomes) == |outcomes|
    ensures forall k :: 0 <= k < |Failures(outcomes)| ==>
      Failures(outcomes)[k] < |outcomes| && !outcomes[Failures(outcomes)[k]]
    ensures forall i :: 0 <= i < |outcomes| && !outcomes[i] ==> i in Failures(outcomes)
    ensures forall k, l :: 0 <= k < l < |Failures(outcomes)| ==> Failures(outcomes)[k] < Failures(outcomes)[l]
  {
    if outcomes != [] {
      var init := outcomes[..|outcomes| - 1];
      FailuresSpec(init);
      assert forall i :: 0 <= i < |init| ==> init[i] == outcomes[i];
    }
  }

  /** One more outcome: a success counts, a failure is listed at its position. */
  lemma OutcomeSnoc(s: seq<bool>, b: bool)
    ensures Succeeded(s + [b]) == Succeeded(s) + (if b then 1 else 0)
    ensures Failures(s + [b]) == Failures(s) + (if b then [] else [|s|])
  {
    assert (s + [b])[..|s|] == s;
  }

  /** Counting one more success adds a commit point exactly at a multiple of 200. */
  lemma CommitStep(n: nat)
    ensures CommitPoints(n + 1) == CommitPoints(n) + (if (n + 1) % 200 == 0 then [n + 1] else [])
  {
    var a, b := CommitPoints(n + 1), CommitPoints(n);
    if (n + 1) % 200 == 0 {
      assert (n + 1) / 200 == n / 200 + 1;
      assert a == b + [n + 1];
    } else {
      assert (n + 1) / 200 == n / 200;
      assert a == b;
    }
  }

  /** A further failure enters the sample only while fewer than three are logged. */
  lemma SampleStep(f: seq<nat>, x: nat)
    ensures Sample(f + [x]) == if |f| < 3 then Sample(f) + [x] else Sample(f)
  {
    if |f| >= 3 {
      assert (f + [x])[..3] == f[..3];
    }
  }

  /**
   * The counter logic of the insert loop: each row adds to exactly one of
   * `inserted` and `errors`, the first three failures are logged, the loop
   * commits whenever `inserted` reaches a multiple of 200, and once more at the end.
   */
  method InsertRows(outcomes: seq<bool>) returns (inserted: nat, errors: nat, errorLog: seq<nat>, commits: seq<nat>)
    ensures inserted == Succeeded(outcomes) && inserted + errors == |outcomes|
    ensures errorLog == Sample(Failures(outcomes)) && |errorLog| == (if errors < 3 then errors else 3)
    ensures commits == CommitPoints(inserted) + [inserted]
  {
    inserted, errors, errorLog, commits := 0, 0, [], [];
    for idx := 0 to |outcomes|
      invariant inserted == Succeeded(outcomes[..idx]) && inserted + errors == idx
      invariant |Failures(outcomes[..idx])| == errors
      invariant errorLog == Sample(Failures(outcomes[..idx]))
      invariant commits == CommitPoints(inserted)
    {
      var done := outcomes[..idx];
      OutcomeSnoc(done, outcomes[idx]);
      assert outcomes[..idx + 1] == done + [outcomes[idx]];
      if outcomes[idx] {
        CommitStep(inserted);
        inserted := inserted + 1;
        if inserted % 200 == 0 {
          commits := commits + [inserted];
        }
        assert commits == CommitPoints(inserted);
      } else {
        SampleStep(Failures(done), idx);
        errors := errors + 1;
        if errors <= 3 {
          errorLog := errorLog + [idx];
        }
        assert errorLog == Sample(Failures(done) + [idx]);
      }
    }
    assert outcomes[..|outcomes|] == outcomes;
    commits := commits + [inserted];
  }
}
