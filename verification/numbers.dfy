/** Numeric conversions of the ETL script (safe_to_decimal, safe_to_int and
    the price re-formatting in transform_sales). Python goes through a binary
    float; this model reads the decimal text exactly and keeps money as an
    integer number of cents. */
module Numbers {
  import opened Wrappers
  import opened Text

  /** A decimal literal: sign, digits before the point, digits after it. */
  datatype Decimal = Decimal(negative: bool, whole: string, fraction: string)

  predicate WellFormed(d: Decimal) {
    AllDigits(d.whole) && AllDigits(d.fraction) && (d.whole != [] || d.fraction != [])
  }

  /** The literals Python's float() accepts that are plain decimals:
      an optional sign, then digits with at most one point and at least one
      digit ("5", "-5.", ".5", "+12.50"). */
  function ParseDecimal(s: string): (r: Option<Decimal>)
    ensures r.Some? ==> WellFormed(r.value)
  {
    var negative := s != [] && s[0] == '-';
    var body := if s != [] && (s[0] == '-' || s[0] == '+') then s[1..] else s;
    var k := IndexOf(body, '.');
    var whole := body[..k];
    var fraction := if k < |body| then body[k + 1..] else "";
    if AllDigits(whole) && AllDigits(fraction) && (whole != [] || fraction != [])
    then Some(Decimal(negative, whole, fraction))
    else None
  }

  /** The first two fraction digits, padded with zeros. */
  function Hundredths(f: string): (r: string)
    requires AllDigits(f)
    ensures |r| == 2 && AllDigits(r)
  {
    if |f| >= 2 then f[..2] else if |f| == 1 then f + "0" else "00"
  }

  /** The value rounded to whole cents, halves away from zero. */
  function ToCents(d: Decimal): int
    requires WellFormed(d)
  {
    var up := if |d.fraction| > 2 && d.fraction[2] >= '5' then 1 else 0;
    var magnitude := ParseNat(d.whole) * 100 + ParseNat(Hundredths(d.fraction)) + up;
    if d.negative then -magnitude else magnitude
  }

  /** The value truncated toward zero: Python's int(float(s)). */
  function Truncate(d: Decimal): int
    requires WellFormed(d)
  {
    var n: int := ParseNat(d.whole);
    if d.negative then -n else n
  }

  /** The amount in cents that a cell holds, when float() accepts it. */
  function ParseCents(s: Option<string>): Option<int> {
    if s.None? then None
    else match ParseDecimal(Strip(s.value))
      case Some(d) => Some(ToCents(d))
      case None => None
  }

  /** f"{x:.2f}" of an amount in cents: sign, units, point, two digits. */
  function FormatCents(c: int): (r: string)
  {
    if c < 0 then "-" + FormatUnsigned(Abs(c)) else FormatUnsigned(Abs(c))
  }

  function FormatUnsigned(m: nat): (r: string)
    ensures r != [] && IsDigit(r[0]) && IsDigit(r[|r| - 1])
  {
    var units := NatToString(m / 100);
    var hundredths := PadNat(m % 100, 2);
    var r := units + "." + hundredths;
    assert r[0] == units[0] && r[|r| - 1] == hundredths[|hundredths| - 1];
    r
  }

  /** safe_to_decimal: a missing or unreadable cell is None, anything else
      is re-written with exactly two decimals. */
  function SafeToDecimal(s: Option<string>): (r: Option<string>)
    ensures r.Some? <==> ParseCents(s).Some?
    ensures r.Some? ==> r.value == FormatCents(ParseCents(s).value)
  {
    if s.None? then None
    else match ParseDecimal(Strip(s.value))
      case Some(d) => Some(FormatCents(ToCents(d)))
      case None => None
  }

  /** safe_to_int: missing, blank or unreadable cells give the default;
      otherwise the number truncated toward zero. */
  function SafeToInt(s: Option<string>, default: Option<int>): Option<int> {
    if s.None? || Strip(s.value) == "" then default
    else match ParseDecimal(Strip(s.value))
      case Some(d) => Some(Truncate(d))
      case None => default
  }

  /** safe_to_int gives the default exactly when float() rejects the cell,
      and otherwise a number. */
  lemma SafeToIntDefault(s: Option<string>, default: Option<int>)
    ensures ParseCents(s).None? ==> SafeToInt(s, default) == default
    ensures ParseCents(s).Some? ==> SafeToInt(s, default).Some?
  {}

  lemma IndexOfAfterDigits(a: string, b: string)
    requires AllDigits(a)
    ensures IndexOf(a + "." + b, '.') == |a|
  {
    var s := a + "." + b;
    assert s[|a|] == '.';
    assert forall i :: 0 <= i < |a| ==> s[i] == a[i] && s[i] != '.';
  }

  lemma IndexOfNone(a: string)
    requires AllDigits(a)
    ensures IndexOf(a, '.') == |a|
  {
    assert forall i :: 0 <= i < |a| ==> a[i] != '.';
  }

  /** An unsigned literal "units.hundredths" parses into its parts. */
  lemma ParsePoint(units: string, hundredths: string)
    requires AllDigits(units) && units != [] && AllDigits(hundredths)
    ensures ParseDecimal(units + "." + hundredths) == Some(Decimal(false, units, hundredths))
  {
    var body := units + "." + hundredths;
    assert IsDigit(body[0]);
    assert body[0] != '-' && body[0] != '+';
    IndexOfAfterDigits(units, hundredths);
    assert body[..|units|] == units;
    assert body[|units| + 1..] == hundredths;
  }

  /** A leading minus sign only sets the sign. */
  lemma ParseMinus(s: string, body: string, d: Decimal)
    requires s == "-" + body
    requires ParseDecimal(body) == Some(d) && body[0] != '-' && body[0] != '+'
    ensures ParseDecimal(s) == Some(d.(negative := true))
  {
    assert s[1..] == body;
  }

  lemma NatToStringSmall(n: nat)
    requires n < 100
    ensures |NatToString(n)| <= 2
  {
    if n >= 10 { assert NatToString(n) == NatToString(n / 10) + [DigitChar(n % 10)]; }
  }

  /** Two-digit hundredths and the units they come with add back up. */
  lemma CentsOfParts(m: nat)
    ensures |PadNat(m % 100, 2)| == 2
    ensures ParseNat(NatToString(m / 100)) * 100 + ParseNat(PadNat(m % 100, 2)) == m
  {
    NatToStringSmall(m % 100);
  }

  lemma FormatCentsNoSpaceAtEnds(c: int)
    ensures Strip(FormatCents(c)) == FormatCents(c)
  {
    var r := FormatCents(c);
    var u := FormatUnsigned(Abs(c));
    DigitNotSpace(u[0]);
    DigitNotSpace(u[|u| - 1]);
    if c < 0 {
      assert r == "-" + u;
      assert r[|r| - 1] == u[|u| - 1];
    }
    StripNoop(r);
  }

  /** The digits of an unsigned amount parse back into units and hundredths. */
  lemma ParseUnsigned(m: nat)
    ensures ParseDecimal(FormatUnsigned(m)).Some?
    ensures ToCents(ParseDecimal(FormatUnsigned(m)).value) == m
  {
    var units := NatToString(m / 100);
    var hundredths := PadNat(m % 100, 2);
    CentsOfParts(m);
    ParsePoint(units, hundredths);
    var d := Decimal(false, units, hundredths);
    assert Hundredths(hundredths) == hundredths;
    assert ToCents(d) == m;
  }

  lemma ParseCentsOf(s: string, d: Decimal)
    requires Strip(s) == s && ParseDecimal(s) == Some(d)
    ensures ParseCents(Some(s)) == Some(ToCents(d))
  {}

  lemma ToCentsNegated(e: Decimal)
    requires WellFormed(e) && !e.negative
    ensures ToCents(e.(negative := true)) == -ToCents(e)
  {}

  /** The sign and the digits of a formatted amount parse back into it. */
  lemma ParseFormatted(c: int) returns (d: Decimal)
    ensures ParseDecimal(FormatCents(c)) == Some(d)
    ensures ToCents(d) == c
  {
    var u := FormatUnsigned(Abs(c));
    ParseUnsigned(Abs(c));
    var e := ParseDecimal(u).value;
    if c < 0 {
      ParseMinus(FormatCents(c), u, e);
      d := e.(negative := true);
      ToCentsNegated(e);
    } else {
      d := e;
    }
  }

  /** Reading back a formatted amount gives the same number of cents. */
  lemma CentsRoundTrip(c: int)
    ensures ParseCents(Some(FormatCents(c))) == Some(c)
  {
    var d := ParseFormatted(c);
    FormatCentsNoSpaceAtEnds(c);
    ParseCentsOf(FormatCents(c), d);
  }

  /** Re-formatting an already formatted price changes nothing (the second
      f"{float(p):.2f}" in transform_sales is harmless). */
  lemma SafeToDecimalIdempotent(s: Option<string>)
    ensures SafeToDecimal(SafeToDecimal(s)) == SafeToDecimal(s)
  {
    var r := SafeToDecimal(s);
    if r.Some? { CentsRoundTrip(ParseCents(s).value); }
  }

  /** The digits of a natural number read back as a plain decimal. */
  lemma ParseNatural(n: nat) returns (d: Decimal)
    ensures ParseDecimal(NatToString(n)) == Some(d)
    ensures !d.negative && Truncate(d) == n
  {
    var s := NatToString(n);
    assert IsDigit(s[0]);
    IndexOfNone(s);
    assert s[..|s|] == s;
    d := Decimal(false, s, "");
  }

  lemma TruncateNegated(e: Decimal)
    requires WellFormed(e) && !e.negative
    ensures Truncate(e.(negative := true)) == -Truncate(e)
  {}

  lemma ParseIntString(n: int) returns (d: Decimal)
    ensures ParseDecimal(IntToString(n)) == Some(d)
    ensures Truncate(d) == n
  {
    var t := NatToString(Abs(n));
    var e := ParseNatural(Abs(n));
    if n < 0 {
      ParseMinus(IntToString(n), t, e);
      d := e.(negative := true);
      TruncateNegated(e);
    } else {
      d := e;
    }
  }

  lemma SafeToIntOf(s: string, d: Decimal, default: Option<int>)
    requires Strip(s) == s && s != [] && ParseDecimal(s) == Some(d)
    ensures SafeToInt(Some(s), default) == Some(Truncate(d))
  {}

  /** "n.f" parses into the sign and digits of n, with f as the fraction. */
  lemma ParseSignedPoint(n: int, f: string) returns (d: Decimal)
    requires AllDigits(f)
    ensures ParseDecimal(IntToString(n) + "." + f) == Some(d)
    ensures Truncate(d) == n
  {
    var t := NatToString(Abs(n));
    var body := t + "." + f;
    ParsePoint(t, f);
    d := Decimal(false, t, f);
    if n < 0 {
      assert IntToString(n) + "." + f == "-" + body;
      ParseMinus(IntToString(n) + "." + f, body, d);
      TruncateNegated(d);
      d := d.(negative := true);
    }
  }

  lemma SignedPointNoSpaceAtEnds(n: int, f: string)
    requires AllDigits(f)
    ensures Strip(IntToString(n) + "." + f) == IntToString(n) + "." + f
  {
    var s := IntToString(n) + "." + f;
    if n >= 0 {
      DigitNotSpace(s[0]);
    }
    if f != [] {
      assert s[|s| - 1] == f[|f| - 1];
      DigitNotSpace(f[|f| - 1]);
    }
    StripNoop(s);
  }

  /** safe_to_int truncates toward zero: whatever digits follow the point,
      "2.9" gives 2, "-2.9" gives -2 and "0.5" gives 0. */
  lemma SafeToIntTruncates(n: int, f: string, default: Option<int>)
    requires AllDigits(f)
    ensures SafeToInt(Some(IntToString(n) + "." + f), default) == Some(n)
  {
    var d := ParseSignedPoint(n, f);
    SignedPointNoSpaceAtEnds(n, f);
    SafeToIntOf(IntToString(n) + "." + f, d, default);
  }

  /** safe_to_int reads back what str() wrote for an integer. */
  lemma IntRoundTrip(n: int, default: Option<int>)
    ensures SafeToInt(Some(IntToString(n)), default) == Some(n)
  {
    var s := IntToString(n);
    var t := NatToString(Abs(n));
    assert s[|s| - 1] == t[|t| - 1];
    StripNoop(s);
    var d := ParseIntString(n);
    SafeToIntOf(s, d, default);
  }
}
