/**
 * The string primitives the Python and SQL code relies on: `str.strip`,
 * `str.lower` (as far as the null tokens need it), `str(int)` / `CAST(int AS VARCHAR)`,
 * `float(str)` on plain decimals, `str.zfill`, SQL Server's `RIGHT`, and Python's
 * ordering of strings.
 */
module Text {
  import opened Wrappers
  import opened Numbers

  // ---------------------------------------------------------------- whitespace

  /** Python's `str.isspace` on a single character. */
  predicate IsSpace(c: char)
  {
    || c == ' '
    || ('\t' <= c <= '\r')
    || ('\U{1C}' <= c <= '\U{1F}')
    || c == '\U{85}' || c == '\U{A0}' || c == '\U{1680}'
    || ('\U{2000}' <= c <= '\U{200A}')
    || c == '\U{2028}' || c == '\U{2029}' || c == '\U{202F}' || c == '\U{205F}' || c == '\U{3000}'
  }

  /** `s.lstrip()`: drops the leading whitespace and nothing else. */
  function TrimLeft(s: string): (r: string)
    ensures |r| <= |s| && r == s[|s| - |r|..]
    ensures forall i :: 0 <= i < |s| - |r| ==> IsSpace(s[i])
    ensures r == [] || !IsSpace(r[0])
  {
    if s != [] && IsSpace(s[0]) then TrimLeft(s[1..]) else s
  }

  /** `s.rstrip()`: drops the trailing whitespace and nothing else. */
  function TrimRight(s: string): (r: string)
    ensures |r| <= |s| && r == s[..|r|]
    ensures forall i :: |r| <= i < |s| ==> IsSpace(s[i])
    ensures r == [] || !IsSpace(r[|r| - 1])
  {
    if s != [] && IsSpace(s[|s| - 1]) then TrimRight(s[..|s| - 1]) else s
  }

  /** `s.strip()`. */
  function Strip(s: string): (r: string)
    ensures IsStripped(r)
    ensures |r| <= |s|
  {
    TrimRight(TrimLeft(s))
  }

  /** Neither end of s is whitespace. */
  predicate IsStripped(s: string)
  {
    s == [] || (!IsSpace(s[0]) && !IsSpace(s[|s| - 1]))
  }

  /** A string that is already stripped is left alone. */
  lemma StripStripped(s: string)
    requires IsStripped(s)
    ensures Strip(s) == s
  {
    assert TrimLeft(s) == s;
  }

  /** Stripping twice is stripping once. */
  lemma StripIdempotent(s: string)
    ensures Strip(Strip(s)) == Strip(s)
  {
    StripStripped(Strip(s));
  }

  /** A whitespace prefix in front of a string that starts with a non-space is all lstrip removes. */
  lemma {:induction false} TrimLeftPad(pad: string, s: string)
    requires forall i :: 0 <= i < |pad| ==> IsSpace(pad[i])
    requires s != [] && !IsSpace(s[0])
    ensures TrimLeft(pad + s) == s
  {
    if pad != [] {
      assert (pad + s)[1..] == pad[1..] + s;
      TrimLeftPad(pad[1..], s);
    } else {
      assert pad + s == s;
    }
  }

  /** A whitespace suffix behind a string that ends in a non-space is all rstrip removes. */
  lemma {:induction false} TrimRightPad(s: string, pad: string)
    requires forall i :: 0 <= i < |pad| ==> IsSpace(pad[i])
    requires s != [] && !IsSpace(s[|s| - 1])
    ensures TrimRight(s + pad) == s
  {
    if pad != [] {
      var p := pad[..|pad| - 1];
      assert (s + pad)[..|s + pad| - 1] == s + p;
      TrimRightPad(s, p);
    } else {
      assert s + pad == s;
    }
  }

  /** Whitespace around a string that neither starts nor ends with whitespace is exactly what strip removes. */
  lemma StripPadded(pad: string, s: string, pad': string)
    requires forall i :: 0 <= i < |pad| ==> IsSpace(pad[i])
    requires forall i :: 0 <= i < |pad'| ==> IsSpace(pad'[i])
    requires s != [] && !IsSpace(s[0]) && !IsSpace(s[|s| - 1])
    ensures Strip(pad + s + pad') == s
  {
    var u := s + pad';
    assert pad + s + pad' == pad + u;
    assert u != [] && !IsSpace(u[0]);
    TrimLeftPad(pad, u);
    TrimRightPad(s, pad');
    calc {
      Strip(pad + s + pad');
      TrimRight(TrimLeft(pad + u));
      TrimRight(u);
      s;
    }
  }

  // ---------------------------------------------------------------- case

  /**
   * `str.lower` on the ASCII letters. Python lowers more than these, but no other
   * character lowers to one of the letters a, e, l, n, o, u, so this decides
   * exactly which strings lower to one of the null tokens.
   */
  function LowerChar(c: char): char
  {
    if 'A' <= c <= 'Z' then (c as int + 32) as char else c
  }

  function Lower(s: string): (r: string)
    ensures |r| == |s|
    ensures forall i :: 0 <= i < |s| ==> r[i] == LowerChar(s[i])
  {
    seq(|s|, i requires 0 <= i < |s| => LowerChar(s[i]))
  }

  /** `s.lower() in ("nan", "none", "null", "")`. */
  predicate IsNullToken(s: string)
  {
    var l := Lower(s);
    l == "nan" || l == "none" || l == "null" || l == ""
  }

  // ---------------------------------------------------------------- digits

  predicate IsDigit(c: char)
  {
    '0' <= c <= '9'
  }

  predicate AllDigits(s: string)
  {
    forall i :: 0 <= i < |s| ==> IsDigit(s[i])
  }

  function DigitValue(c: char): (n: nat)
    requires IsDigit(c)
    ensures n < 10
  {
    c as int - '0' as int
  }

  function DigitChar(n: nat): (c: char)
    requires n < 10
    ensures IsDigit(c) && DigitValue(c) == n
  {
    ('0' as int + n) as char
  }

  /** The number a string of decimal digits denotes (most significant first). */
  function DigitsValue(s: string): nat
    requires AllDigits(s)
  {
    if s == [] then 0 else DigitsValue(s[..|s| - 1]) * 10 + DigitValue(s[|s| - 1])
  }

  /** `str(n)` for a non-negative integer: its decimal digits, without leading zeros. */
  function NatToString(n: nat): (s: string)
    ensures |s| >= 1 && AllDigits(s) && DigitsValue(s) == n
    ensures s[0] == '0' ==> n == 0
  {
    if n < 10 then [DigitChar(n)]
    else
      var init := NatToString(n / 10);
      var s := init + [DigitChar(n % 10)];
      assert s[..|s| - 1] == init;
      s
  }

  /** `str(n)` in Python and `CAST(n AS VARCHAR)` in SQL Server. */
  function IntToString(n: int): string
  {
    if n < 0 then "-" + NatToString(-n) else NatToString(n)
  }

  lemma NatToStringLength(n: nat)
    ensures n < 10 ==> |NatToString(n)| == 1
    ensures 10 <= n < 100 ==> |NatToString(n)| == 2
    ensures 1000 <= n < 10000 ==> |NatToString(n)| == 4
  {
    if 10 <= n {
      NatToStringLength(n / 10);
    }
  }

  /** Two digit strings of one length that denote the same number are the same string. */
  lemma {:induction false} DigitsInjective(a: string, b: string)
    requires AllDigits(a) && AllDigits(b) && |a| == |b|
    requires DigitsValue(a) == DigitsValue(b)
    ensures a == b
  {
    if a != [] {
      var n := |a| - 1;
      assert DigitValue(a[n]) == DigitValue(b[n]);
      DigitsInjective(a[..n], b[..n]);
      assert a == a[..n] + [a[n]] && b == b[..n] + [b[n]];
    }
  }

  // ---------------------------------------------------------------- float(s)

  /** The index of the first '.' in s, or |s| when there is none. */
  function DotIndex(s: string): (i: nat)
    ensures i <= |s|
    ensures forall j :: 0 <= j < i ==> s[j] != '.'
    ensures i < |s| ==> s[i] == '.'
  {
    if s == [] || s[0] == '.' then 0 else 1 + DotIndex(s[1..])
  }

  /** An unsigned decimal: digits, optionally a '.', optionally more digits; at least one digit. */
  function ParseUnsigned(s: string): Option<real>
  {
    var i := DotIndex(s);
    var whole := s[..i];
    var frac := if i < |s| then s[i + 1..] else [];
    if AllDigits(whole) && AllDigits(frac) && |whole| + |frac| > 0 then
      Some(PointValue(whole, frac))
    else
      None
  }

  /** The number `whole.frac` denotes. */
  function PointValue(whole: string, frac: string): real
    requires AllDigits(whole) && AllDigits(frac)
  {
    DigitsValue(whole) as real + DigitsValue(frac) as real / Pow10(|frac|) as real
  }

  /**
   * `float(s)` on an already stripped string, for plain decimal notation with an
   * optional sign; anything else is unparseable (None).
   */
  function ParseDecimal(s: string): Option<real>
  {
    if s != [] && (s[0] == '-' || s[0] == '+') then
      match ParseUnsigned(s[1..])
      case None => None
      case Some(v) => Some(if s[0] == '-' then -v else v)
    else
      ParseUnsigned(s)
  }

  lemma {:induction false} DigitsHaveNoDot(s: string)
    requires AllDigits(s)
    ensures DotIndex(s) == |s|
  {
    if s != [] {
      DigitsHaveNoDot(s[1..]);
    }
  }

  /** Reading back the decimal form of an integer gives the integer. */
  lemma ParseIntToString(n: int)
    ensures ParseDecimal(IntToString(n)) == Some(n as real)
  {
    var digits := NatToString(if n < 0 then -n else n);
    DigitsHaveNoDot(digits);
    assert digits[..|digits|] == digits;
    if n < 0 {
      assert IntToString(n)[1..] == digits;
    }
  }

  /** The decimal form of an integer neither starts nor ends with whitespace. */
  lemma IntToStringShape(n: int)
    ensures var s := IntToString(n); s != [] && !IsSpace(s[0]) && !IsSpace(s[|s| - 1])
  {
    var d := NatToString(if n < 0 then -n else n);
    assert IsDigit(d[0]) && IsDigit(d[|d| - 1]);
  }

  // ---------------------------------------------------------------- decimals

  /**
   * The integer m scaled down by d places, written out with exactly d decimals,
   * as `f"{m / 10**d:.{d}f}"` writes it: a sign for negatives, the whole part,
   * and for d > 0 a '.' followed by the d-digit fraction.
   */
  function DecimalString(m: int, d: nat): string
  {
    if d == 0 then IntToString(m)
    else if m < 0 then "-" + PointString(NatToString(-m), d)
    else PointString(NatToString(m), d)
  }

  /**
   * The digits s with a '.' put d > 0 places from the right: the last d digits
   * (left-padded with '0') after it, and the rest, or "0", before it.
   */
  function PointString(s: string, d: nat): string
  {
    if |s| > d then s[..|s| - d] + "." + s[|s| - d..]
    else "0." + Zeros(d - |s|) + s
  }

  /** A value with at most d decimals, written out with d decimals. */
  function DecimalToString(x: real, d: nat): string
    requires HasDecimals(x, d)
  {
    DecimalString(Scale(x, d).Floor, d)
  }

  /** `float()` reads a value written out with d decimals back as that value. */
  lemma ParseDecimalToString(x: real, d: nat)
    requires HasDecimals(x, d)
    ensures ParseDecimal(DecimalToString(x, d)) == Some(x)
  {
    ParseDecimalString(Scale(x, d).Floor, d);
    Unscale(x, d);
  }

  /** Scaling a value with at most d decimals up to an integer and back down gives the value. */
  lemma Unscale(x: real, d: nat)
    requires HasDecimals(x, d)
    ensures Scale(x, d).Floor as real / Pow10(d) as real == x
  {
    CancelScale(x, Pow10(d) as real);
  }

  /** The written-out decimal neither starts nor ends with whitespace. */
  lemma DecimalToStringShape(x: real, d: nat)
    requires HasDecimals(x, d)
    ensures var s := DecimalToString(x, d); s != [] && !IsSpace(s[0]) && !IsSpace(s[|s| - 1])
  {
    DecimalStringShape(Scale(x, d).Floor, d);
  }

  lemma DecimalStringShape(m: int, d: nat)
    ensures var s := DecimalString(m, d); s != [] && !IsSpace(s[0]) && !IsSpace(s[|s| - 1])
  {
    if d == 0 {
      IntToStringShape(m);
    } else {
      var s := NatToString(if m < 0 then -m else m);
      var u := PointString(s, d);
      PointStringDigits(s, d);
      if m < 0 {
        assert DecimalString(m, d) == "-" + u;
        assert ("-" + u)[|"-" + u| - 1] == u[|u| - 1];
      } else {
        assert DecimalString(m, d) == u;
      }
    }
  }

  /** Parsing a value written out with d decimals gives m / 10^d. */
  lemma ParseDecimalString(m: int, d: nat)
    ensures ParseDecimal(DecimalString(m, d)) == Some(m as real / Pow10(d) as real)
  {
    if d == 0 {
      ParseWholeDecimal(m);
    } else if m < 0 {
      ParseNegativeDecimal(m, d);
    } else {
      ParseNonNegativeDecimal(m, d);
    }
  }

  lemma ParseWholeDecimal(m: int)
    ensures ParseDecimal(DecimalString(m, 0)) == Some(m as real / Pow10(0) as real)
  {
    assert DecimalString(m, 0) == IntToString(m);
    ParseIntToString(m);
    assert Pow10(0) == 1;
    DivideByOne(m as real, Pow10(0) as real);
  }

  lemma DivideByOne(a: real, p: real)
    requires p == 1.0
    ensures a / p == a
  {
  }

  lemma ParseNonNegativeDecimal(m: nat, d: nat)
    requires d > 0
    ensures ParseDecimal(DecimalString(m, d)) == Some(m as real / Pow10(d) as real)
  {
    var u := PointString(NatToString(m), d);
    assert DecimalString(m, d) == u;
    PointStringDigits(NatToString(m), d);
    ParsePointString(NatToString(m), d);
    SignedParse(u);
  }

  lemma ParseNegativeDecimal(m: int, d: nat)
    requires m < 0 && d > 0
    ensures ParseDecimal(DecimalString(m, d)) == Some(m as real / Pow10(d) as real)
  {
    var t := NatToString(-m);
    assert DecimalString(m, d) == "-" + PointString(t, d);
    ParseNegatedPoint(t, d);
  }

  /** A '-' before the point form of the digits t parses to minus their value over 10^d. */
  lemma ParseNegatedPoint(t: string, d: nat)
    requires AllDigits(t) && t != [] && d > 0
    ensures ParseDecimal("-" + PointString(t, d)) == Some(-(DigitsValue(t) as real) / Pow10(d) as real)
  {
    var u := PointString(t, d);
    PointStringDigits(t, d);
    ParsePointString(t, d);
    NegatedParse(u, DigitsValue(t) as real, Pow10(d) as real);
  }

  lemma NegatedParse(u: string, a: real, p: real)
    requires u != [] && IsDigit(u[0]) && p > 0.0
    requires ParseUnsigned(u) == Some(a / p)
    ensures ParseDecimal("-" + u) == Some((-a) / p)
  {
    SignedParse(u);
    NegatedQuotient(a, p);
  }

  /** An unsigned text parses as itself, and with a '-' in front as its negation. */
  lemma SignedParse(u: string)
    requires u != [] && IsDigit(u[0])
    ensures ParseDecimal(u) == ParseUnsigned(u)
    ensures ParseUnsigned(u).Some? ==> ParseDecimal("-" + u) == Some(-ParseUnsigned(u).value)
  {
    assert ("-" + u)[1..] == u;
  }

  lemma NegatedQuotient(a: real, p: real)
    requires p > 0.0
    ensures -(a / p) == (-a) / p
  {
  }

  /** The point form of a digit string starts and ends with a digit. */
  lemma PointStringDigits(s: string, d: nat)
    requires AllDigits(s) && s != [] && d > 0
    ensures var u := PointString(s, d); u != [] && IsDigit(u[0]) && IsDigit(u[|u| - 1])
  {
    var u := PointString(s, d);
    assert u[|u| - 1] == s[|s| - 1];
  }

  /** Putting the point d places from the right divides the value of the digits by 10^d. */
  lemma ParsePointString(s: string, d: nat)
    requires AllDigits(s) && d > 0
    ensures ParseUnsigned(PointString(s, d)) == Some(DigitsValue(s) as real / Pow10(d) as real)
  {
    if |s| > d {
      ParseLongPoint(s, d);
    } else {
      ParseShortPoint(s, d);
    }
  }

  lemma ParseLongPoint(s: string, d: nat)
    requires AllDigits(s) && 0 < d < |s|
    ensures ParseUnsigned(PointString(s, d)) == Some(DigitsValue(s) as real / Pow10(d) as real)
  {
    var k := |s| - d;
    var w, z := s[..k], s[k..];
    assert PointString(s, d) == w + "." + z;
    DigitsSplit(s, k);
    assert DigitsValue(w) * Pow10(d) + DigitsValue(z) == DigitsValue(s);
    ParseScaledPoint(PointString(s, d), w, z, DigitsValue(s), d);
  }

  lemma ParseShortPoint(s: string, d: nat)
    requires AllDigits(s) && 0 < d && |s| <= d
    ensures ParseUnsigned(PointString(s, d)) == Some(DigitsValue(s) as real / Pow10(d) as real)
  {
    var w, z := "0", Zeros(d - |s|) + s;
    LeadingZeros(d - |s|, s);
    ShortPointForm(s, d);
    ZeroDigitValue();
    ZeroProduct(DigitsValue(w), Pow10(d));
    ParseScaledPoint(PointString(s, d), w, z, DigitsValue(s), d);
  }

  /** w.z parses to the value of the digits wz divided by 10^|z|. */
  lemma ParseScaledPoint(u: string, w: string, z: string, a: nat, d: nat)
    requires AllDigits(w) && AllDigits(z) && w != [] && u == w + "." + z && |z| == d
    requires DigitsValue(w) * Pow10(d) + DigitsValue(z) == a
    ensures ParseUnsigned(u) == Some(a as real / Pow10(d) as real)
  {
    ParseUnsignedPoint(u, w, z);
    PointValueScaled(w, z, a, d);
  }

  /** The point value of w.z is the value of the digits wz divided by 10^|z|. */
  lemma PointValueScaled(w: string, z: string, a: nat, d: nat)
    requires AllDigits(w) && AllDigits(z) && |z| == d
    requires DigitsValue(w) * Pow10(d) + DigitsValue(z) == a
    ensures PointValue(w, z) == a as real / Pow10(d) as real
  {
    ScaledParts(DigitsValue(w), DigitsValue(z), a, Pow10(|z|));
  }

  lemma ShortPointForm(s: string, d: nat)
    requires |s| <= d
    ensures PointString(s, d) == "0" + "." + (Zeros(d - |s|) + s)
  {
  }

  lemma ZeroDigitValue()
    ensures DigitsValue("0") == 0
  {
    assert "0"[..0] == [];
  }

  lemma ZeroProduct(a: int, p: int)
    requires a == 0
    ensures a * p == 0
  {
  }

  lemma ScaledParts(w: nat, z: nat, a: nat, p: nat)
    requires p >= 1 && w * p + z == a
    ensures w as real + z as real / p as real == a as real / p as real
  {
    assert (w as real + z as real / p as real) * p as real == a as real;
  }

  /** The value of digits is the value of a prefix shifted left plus the value of the rest. */
  lemma {:induction false} DigitsSplit(s: string, k: nat)
    requires AllDigits(s) && k <= |s|
    ensures DigitsValue(s) == DigitsValue(s[..k]) * Pow10(|s| - k) + DigitsValue(s[k..])
    decreases |s| - k
  {
    if k == |s| {
      assert s[..k] == s && s[k..] == [];
    } else {
      var n := |s| - 1;
      var t := s[..n];
      assert t[..k] == s[..k] && t[k..] == s[k..n];
      DigitsSplit(t, k);
      var r := s[k..];
      assert r[..|r| - 1] == s[k..n] && r[|r| - 1] == s[n];
      assert DigitsValue(r) == DigitsValue(s[k..n]) * 10 + DigitValue(s[n]);
      assert DigitsValue(s) == DigitsValue(t) * 10 + DigitValue(s[n]);
      assert Pow10(|s| - k) == 10 * Pow10(n - k);
      ShiftStep(DigitsValue(s[..k]), Pow10(n - k), DigitsValue(s[k..n]), DigitValue(s[n]));
    }
  }

  lemma ShiftStep(a: int, p: int, b: int, c: int)
    ensures (a * p + b) * 10 + c == a * (10 * p) + (b * 10 + c)
  {
  }

  /** Digits, a '.', then more digits parse to the whole part plus the scaled fraction. */
  lemma ParseUnsignedPoint(s: string, w: string, z: string)
    requires AllDigits(w) && AllDigits(z) && w != [] && s == w + "." + z
    ensures ParseUnsigned(s) == Some(PointValue(w, z))
  {
    DotAfterDigits(w, z);
    var i := DotIndex(s);
    assert i < |s|;
    var whole, frac := s[..i], s[i + 1..];
    assert whole == w;
    assert frac == z;
  }

  lemma {:induction false} DotAfterDigits(w: string, z: string)
    requires AllDigits(w)
    ensures DotIndex(w + "." + z) == |w|
  {
    if w != [] {
      assert (w + "." + z)[1..] == w[1..] + "." + z;
      DotAfterDigits(w[1..], z);
    }
  }

  lemma {:induction false} LeadingZeros(k: nat, s: string)
    requires AllDigits(s)
    ensures AllDigits(Zeros(k) + s) && DigitsValue(Zeros(k) + s) == DigitsValue(s)
  {
    var t := Zeros(k) + s;
    if s == [] {
      assert t == Zeros(k);
      ZerosValue(k);
    } else {
      var n := |s| - 1;
      assert t[..|t| - 1] == Zeros(k) + s[..n];
      LeadingZeros(k, s[..n]);
    }
  }

  lemma {:induction false} ZerosValue(k: nat)
    ensures DigitsValue(Zeros(k)) == 0
  {
    if k > 0 {
      assert Zeros(k)[..k - 1] == Zeros(k - 1);
      ZerosValue(k - 1);
    }
  }

  // ---------------------------------------------------------------- padding

  function Zeros(n: nat): (z: string)
    ensures |z| == n && forall i :: 0 <= i < n ==> z[i] == '0'
  {
    seq(n, i => '0')
  }

  /** Python's `s.zfill(width)`: left-pad with '0' after any sign. */
  function ZFill(s: string, width: nat): (r: string)
  {
    if |s| >= width then s
    else if s != [] && (s[0] == '+' || s[0] == '-') then [s[0]] + Zeros(width - |s|) + s[1..]
    else Zeros(width - |s|) + s
  }

  /** SQL Server's `RIGHT(s, n)`: the last n characters, or all of s when it is shorter. */
  function Right(s: string, n: nat): (r: string)
  {
    if |s| <= n then s else s[|s| - n..]
  }

  // ---------------------------------------------------------------- order

  /** Python's `a <= b` on strings: lexicographic by code point, a prefix first. */
  predicate StrLe(a: string, b: string)
    decreases |a|
  {
    a == [] || (b != [] && (a[0] < b[0] || (a[0] == b[0] && StrLe(a[1..], b[1..]))))
  }

  lemma {:induction false} StrLeTotal(a: string, b: string)
    ensures StrLe(a, b) || StrLe(b, a)
    decreases |a|
  {
    if a != [] && b != [] && a[0] == b[0] {
      StrLeTotal(a[1..], b[1..]);
    }
  }

  lemma {:induction false} StrLeTransitive(a: string, b: string, c: string)
    requires StrLe(a, b) && StrLe(b, c)
    ensures StrLe(a, c)
    decreases |a|
  {
    if a != [] && a[0] == b[0] && b[0] == c[0] {
      StrLeTransitive(a[1..], b[1..], c[1..]);
    }
  }

  lemma {:induction false} StrLeAntisymmetric(a: string, b: string)
    requires StrLe(a, b) && StrLe(b, a)
    ensures a == b
    decreases |a|
  {
    if a != [] {
      StrLeAntisymmetric(a[1..], b[1..]);
      assert a == [a[0]] + a[1..] && b == [b[0]] + b[1..];
    }
  }

  /** Comparing two strings whose first parts have one length decides on the first parts unless they are equal. */
  lemma {:induction false} StrLeConcat(a: string, c: string, b: string, e: string)
    requires |a| == |b|
    ensures StrLe(a + c, b + e) <==> (a != b && StrLe(a, b)) || (a == b && StrLe(c, e))
    decreases |a|
  {
    if a != [] {
      assert (a + c)[1..] == a[1..] + c && (a + c)[0] == a[0];
      assert (b + e)[1..] == b[1..] + e && (b + e)[0] == b[0];
      StrLeConcat(a[1..], c, b[1..], e);
      assert a == [a[0]] + a[1..] && b == [b[0]] + b[1..];
      assert StrLe(a + c, b + e) <==> a[0] < b[0] || (a[0] == b[0] && StrLe(a[1..] + c, b[1..] + e));
      assert StrLe(a, b) <==> a[0] < b[0] || (a[0] == b[0] && StrLe(a[1..], b[1..]));
      assert a[0] == b[0] ==> (a == b <==> a[1..] == b[1..]);
    } else {
      assert a + c == c && b + e == e;
    }
  }

  /** On digit strings of one length, string order is numeric order. */
  lemma {:induction false} DigitsOrder(a: string, b: string)
    requires AllDigits(a) && AllDigits(b) && |a| == |b|
    ensures StrLe(a, b) <==> DigitsValue(a) <= DigitsValue(b)
  {
    if a != [] {
      var n := |a| - 1;
      var a', b' := a[..n], b[..n];
      assert a == a' + [a[n]] && b == b' + [b[n]];
      StrLeConcat(a', [a[n]], b', [b[n]]);
      DigitsOrder(a', b');
      if a' != b' {
        if DigitsValue(a') == DigitsValue(b') {
          DigitsInjective(a', b');
        }
      }
    }
  }
}
