/** parse_date_to_iso: five strptime patterns tried in a fixed order, the
    Gregorian calendar check datetime makes, and the ISO rendering. */
module Dates {
  import opened Wrappers
  import opened Text

  datatype Date = Date(year: int, month: int, day: int)

  predicate IsLeapYear(y: int) {
    y % 4 == 0 && (y % 100 != 0 || y % 400 == 0)
  }

  function DaysInMonth(y: int, m: int): (n: int)
    requires 1 <= m <= 12
    ensures 28 <= n <= 31
  {
    if m == 2 then (if IsLeapYear(y) then 29 else 28)
    else if m == 4 || m == 6 || m == 9 || m == 11 then 30
    else 31
  }

  /** The dates Python's datetime can hold: years 1 to 9999. */
  predicate ValidDate(d: Date) {
    1 <= d.year <= 9999 && 1 <= d.month <= 12 && 1 <= d.day <= DaysInMonth(d.year, d.month)
  }

  type CalendarDate = d: Date | ValidDate(d) witness Date(1, 1, 1)

  /** %Y: exactly four digits. */
  predicate YearToken(t: string) {
    |t| == 4 && AllDigits(t)
  }

  /** %m: 1[0-2] | 0[1-9] | [1-9]. */
  predicate MonthToken(t: string) {
    (|t| == 1 && '1' <= t[0] <= '9')
    || (|t| == 2 && t[0] == '0' && '1' <= t[1] <= '9')
    || (|t| == 2 && t[0] == '1' && '0' <= t[1] <= '2')
  }

  /** %d: 3[01] | [12]\d | 0[1-9] | [1-9] | " "[1-9]. */
  predicate DayToken(t: string) {
    (|t| == 1 && '1' <= t[0] <= '9')
    || (|t| == 2 && (t[0] == '0' || t[0] == ' ') && '1' <= t[1] <= '9')
    || (|t| == 2 && (t[0] == '1' || t[0] == '2') && IsDigit(t[1]))
    || (|t| == 2 && t[0] == '3' && (t[1] == '0' || t[1] == '1'))
  }

  /** The number a matched field stands for (a padding blank is ignored). */
  function FieldValue(t: string): nat {
    ParseNat(Digits(t))
  }

  predicate Free(t: string, sep: char) {
    forall i :: 0 <= i < |t| ==> t[i] != sep
  }

  /** The three fields around the two separators of s, when s holds exactly
      two. None of the field patterns can match a separator, so a pattern
      "A<sep>B<sep>C" matches s in full exactly when these fields match A, B
      and C. */
  function Fields(s: string, sep: char): Option<(string, string, string)> {
    var i := IndexOf(s, sep);
    if i == |s| then None
    else
      var rest := s[i + 1..];
      var j := IndexOf(rest, sep);
      if j == |rest| then None
      else
        var last := rest[j + 1..];
        if IndexOf(last, sep) < |last| then None
        else
          Some((s[..i], rest[..j], last))
  }

  datatype FieldOrder = YearMonthDay | DayMonthYear | MonthDayYear
  datatype Pattern = Pattern(order: FieldOrder, sep: char)

  /** "%Y-%m-%d", "%d-%m-%Y", "%d/%m/%Y", "%m-%d-%Y", "%m/%d/%Y", in the order
      they are tried. */
  const Patterns: seq<Pattern> := [
    Pattern(YearMonthDay, '-'), Pattern(DayMonthYear, '-'), Pattern(DayMonthYear, '/'),
    Pattern(MonthDayYear, '-'), Pattern(MonthDayYear, '/')]

  /** The (year, month, day) fields of a split string under an order. */
  function Arrange(o: FieldOrder, f: (string, string, string)): (string, string, string) {
    match o
    case YearMonthDay => f
    case DayMonthYear => (f.2, f.1, f.0)
    case MonthDayYear => (f.2, f.0, f.1)
  }

  /** datetime.strptime(s, p): a full match of the pattern naming a real date;
      None where Python raises ValueError. */
  function StrpTime(s: string, p: Pattern): Option<CalendarDate> {
    match Fields(s, p.sep)
    case None => None
    case Some(f) =>
      var (y, m, d) := Arrange(p.order, f);
      var date := Date(FieldValue(y), FieldValue(m), FieldValue(d));
      if YearToken(y) && MonthToken(m) && DayToken(d) && ValidDate(date) then Some(date) else None
  }

  /** What a successful strptime establishes: the text is exactly three
      separated fields of the pattern's shapes, and they name the date. */
  lemma StrpTimeMatches(s: string, p: Pattern)
    requires StrpTime(s, p).Some?
    ensures Fields(s, p.sep).Some?
    ensures var (y, m, d) := Arrange(p.order, Fields(s, p.sep).value);
      YearToken(y) && MonthToken(m) && DayToken(d)
      && StrpTime(s, p).value == Date(FieldValue(y), FieldValue(m), FieldValue(d))
  {}

  /** The `for fmt in fmts` loop: the date of the first pattern that s
      matches. */
  function FirstMatch(s: string, ps: seq<Pattern>): Option<CalendarDate> {
    if ps == [] then None
    else match StrpTime(s, ps[0])
      case Some(d) => Some(d)
      case None => FirstMatch(s, ps[1..])
  }

  /** The first present result of f along ps. */
  function FirstSome<P, D>(ps: seq<P>, f: P -> Option<D>): Option<D> {
    if ps == [] then None else if f(ps[0]).Some? then f(ps[0]) else FirstSome(ps[1..], f)
  }

  lemma {:induction false} FirstSomeSpec<P, D>(ps: seq<P>, f: P -> Option<D>)
    ensures FirstSome(ps, f).Some? <==> exists i :: 0 <= i < |ps| && f(ps[i]).Some?
    ensures FirstSome(ps, f).Some? ==>
      exists i :: 0 <= i < |ps| && f(ps[i]) == FirstSome(ps, f)
        && forall j :: 0 <= j < i ==> f(ps[j]).None?
  {
    if ps != [] && f(ps[0]).None? {
      var rest := ps[1..];
      FirstSomeSpec(rest, f);
      assert forall i :: 1 <= i < |ps| ==> ps[i] == rest[i - 1];
      var r := FirstSome(ps, f);
      if r.Some? {
        var k :| 0 <= k < |rest| && f(rest[k]) == r
          && forall j :: 0 <= j < k ==> f(rest[j]).None?;
        assert f(ps[k + 1]) == r;
      }
    }
  }

  function Matcher(s: string): Pattern -> Option<CalendarDate> {
    (p: Pattern) => StrpTime(s, p)
  }

  lemma {:induction false} FirstMatchIsFirstSome(s: string, ps: seq<Pattern>)
    ensures FirstMatch(s, ps) == FirstSome(ps, Matcher(s))
  {
    if ps != [] {
      FirstMatchIsFirstSome(s, ps[1..]);
    }
  }

  /** The search succeeds exactly when some pattern matches, and then it
      returns the date of the first one. */
  lemma FirstMatchSpec(s: string, ps: seq<Pattern>)
    ensures FirstMatch(s, ps).Some? <==> exists i :: 0 <= i < |ps| && StrpTime(s, ps[i]).Some?
    ensures FirstMatch(s, ps).Some? ==>
      exists i :: 0 <= i < |ps| && StrpTime(s, ps[i]) == FirstMatch(s, ps)
        && forall j :: 0 <= j < i ==> StrpTime(s, ps[j]).None?
  {
    FirstMatchIsFirstSome(s, ps);
    FirstSomeSpec(ps, Matcher(s));
  }

  /** The text of an ISO date, "YYYY-MM-DD". */
  predicate IsIsoShaped(r: string) {
    |r| == 10 && r[4] == '-' && r[7] == '-'
    && AllDigits(r[..4]) && AllDigits(r[5..7]) && AllDigits(r[8..])
  }

  /** dt.strftime("%Y-%m-%d"). */
  function FormatIso(d: CalendarDate): (r: string)
    ensures IsIsoShaped(r)
  {
    var y := PadNat(d.year, 4);
    var m := PadNat(d.month, 2);
    var dd := PadNat(d.day, 2);
    PadExact(d.year, 4);
    PadExact(d.month, 2);
    PadExact(d.day, 2);
    IsoShape(y, m, dd);
    y + "-" + m + "-" + dd
  }

  lemma IsoShape(y: string, m: string, dd: string)
    requires |y| == 4 && |m| == 2 && |dd| == 2
    requires AllDigits(y) && AllDigits(m) && AllDigits(dd)
    ensures IsIsoShaped(y + "-" + m + "-" + dd)
  {
    var r := y + "-" + m + "-" + dd;
    assert r[..4] == y;
    assert r[5..7] == m;
    assert r[8..] == dd;
  }

  /** parse_date_to_iso: blank cells give "", the first matching pattern
      wins, then the general-purpose parser (a parameter here), else "". */
  function ParseDateToIso(raw: Option<string>, fallback: string -> Option<CalendarDate>): (r: string)
    ensures Blank(raw) ==> r == ""
    ensures r == "" || IsIsoShaped(r)
    ensures !Blank(raw) && FirstMatch(Strip(raw.value), Patterns).Some? ==>
      r == FormatIso(FirstMatch(Strip(raw.value), Patterns).value)
  {
    if raw.None? then ""
    else
      var s := Strip(raw.value);
      if s == "" then ""
      else match FirstMatch(s, Patterns)
        case Some(d) => FormatIso(d)
        case None =>
          match fallback(s)
          case Some(d) => FormatIso(d)
          case None => ""
  }

  lemma {:induction false} NatToStringWidth(n: nat, w: nat)
    requires w >= 1 && n < Pow10(w)
    ensures |NatToString(n)| <= w
  {
    if n >= 10 {
      assert NatToString(n) == NatToString(n / 10) + [DigitChar(n % 10)];
      NatToStringWidth(n / 10, w - 1);
    }
  }

  /** A number below 10^w is written with exactly w digits. */
  lemma PadExact(n: nat, w: nat)
    requires w >= 1 && n < Pow10(w)
    ensures |PadNat(n, w)| == w
  {
    NatToStringWidth(n, w);
  }

  /** s with the two separators put back between three fields. */
  function Join(a: string, b: string, c: string, sep: char): string {
    a + [sep] + b + [sep] + c
  }

  /** Fields undoes Join when no field holds the separator. */
  lemma FieldsOfJoin(a: string, b: string, c: string, sep: char)
    requires Free(a, sep) && Free(b, sep) && Free(c, sep)
    ensures Fields(Join(a, b, c, sep), sep) == Some((a, b, c))
  {
    var s := Join(a, b, c, sep);
    IndexOfAfter(a, sep, b + [sep] + c);
    assert s == a + [sep] + (b + [sep] + c);
    var rest := s[|a| + 1..];
    assert rest == b + [sep] + c;
    IndexOfAfter(b, sep, c);
    assert s[..|a|] == a;
    assert rest[..|b|] == b && rest[|b| + 1..] == c;
    assert IndexOf(c, sep) == |c|;
  }

  /** Fields only ever cuts s at its separators: joining them back gives s. */
  lemma FieldsSplit(s: string, sep: char)
    requires Fields(s, sep).Some?
    ensures var (a, b, c) := Fields(s, sep).value;
      s == Join(a, b, c, sep) && Free(a, sep) && Free(b, sep) && Free(c, sep)
  {
    var i := IndexOf(s, sep);
    var rest := s[i + 1..];
    var j := IndexOf(rest, sep);
    var a, b, c := s[..i], rest[..j], rest[j + 1..];
    assert Fields(s, sep).value == (a, b, c);
    SplitAt(rest, j);
    assert rest == b + [sep] + c;
    SplitAt(s, i);
    assert s == a + [sep] + rest;
    JoinRight(a, b, c, sep);
  }

  lemma JoinRight(a: string, b: string, c: string, sep: char)
    ensures Join(a, b, c, sep) == a + [sep] + (b + [sep] + c)
  {}

  lemma SplitAt(s: string, i: nat)
    requires i < |s|
    ensures s == s[..i] + [s[i]] + s[i + 1..]
  {}

  lemma FieldsOfFree(s: string, sep: char)
    requires Free(s, sep)
    ensures Fields(s, sep).None?
  {}

  lemma JoinFree(a: string, b: string, c: string, sep: char, other: char)
    requires Free(a, other) && Free(b, other) && Free(c, other) && sep != other
    ensures Free(Join(a, b, c, sep), other)
  {
    var s := Join(a, b, c, sep);
    forall i | 0 <= i < |s| ensures s[i] != other {
      if i < |a| { assert s[i] == a[i]; }
      else if i == |a| || i == |a| + |b| + 1 { assert s[i] == sep; }
      else if i <= |a| + |b| { assert s[i] == b[i - |a| - 1]; }
      else { assert s[i] == c[i - |a| - |b| - 2]; }
    }
  }

  lemma DigitsFree(t: string, sep: char)
    requires AllDigits(t) && !IsDigit(sep)
    ensures Free(t, sep)
  {}

  lemma {:induction false} FirstMatchNone(s: string, ps: seq<Pattern>)
    requires forall j :: 0 <= j < |ps| ==> StrpTime(s, ps[j]).None?
    ensures FirstMatch(s, ps).None?
  {
    if ps != [] {
      assert StrpTime(s, ps[0]).None?;
      assert forall j :: 0 <= j < |ps| - 1 ==> ps[1..][j] == ps[j + 1];
      FirstMatchNone(s, ps[1..]);
    }
  }

  /** Two-digit rendering of a number below 100. */
  lemma PadTwo(n: nat)
    requires n < 100
    ensures PadNat(n, 2) == [DigitChar(n / 10), DigitChar(n % 10)]
  {
    var p := PadNat(n, 2);
    PadExact(n, 2);
    assert ParseNat(p) == 10 * ParseNat(p[..1]) + DigitValue(p[1]);
    assert p[..1][..0] == [];
    assert ParseNat(p[..1]) == DigitValue(p[0]);
  }

  lemma FieldValueOfDigits(t: string)
    requires AllDigits(t)
    ensures FieldValue(t) == ParseNat(t)
  {
    DigitsOfDigits(t);
  }

  /** strftime's %m reads back through strptime's %m. */
  lemma MonthField(m: nat)
    requires 1 <= m <= 12
    ensures MonthToken(PadNat(m, 2)) && FieldValue(PadNat(m, 2)) == m
  {
    PadTwo(m);
    FieldValueOfDigits(PadNat(m, 2));
  }

  /** strftime's %d reads back through strptime's %d. */
  lemma DayField(d: nat)
    requires 1 <= d <= 31
    ensures DayToken(PadNat(d, 2)) && FieldValue(PadNat(d, 2)) == d
  {
    PadTwo(d);
    FieldValueOfDigits(PadNat(d, 2));
  }

  /** A day past the twelfth is not a month. */
  lemma DayNotMonth(d: nat)
    requires 13 <= d <= 31
    ensures !MonthToken(PadNat(d, 2))
  {
    PadTwo(d);
  }

  /** strftime's %Y (zero-padded) reads back through strptime's %Y. */
  lemma YearField(y: nat)
    requires 1 <= y <= 9999
    ensures YearToken(PadNat(y, 4)) && FieldValue(PadNat(y, 4)) == y
  {
    PadExact(y, 4);
    FieldValueOfDigits(PadNat(y, 4));
  }

  /** A joined string whose arranged fields are well-formed tokens naming
      a real date matches the pattern with that date. */
  lemma StrpTimeOfJoin(p: Pattern, a: string, b: string, c: string, date: CalendarDate)
    requires Free(a, p.sep) && Free(b, p.sep) && Free(c, p.sep)
    requires var (y, m, d) := Arrange(p.order, (a, b, c));
      YearToken(y) && MonthToken(m) && DayToken(d)
      && date == Date(FieldValue(y), FieldValue(m), FieldValue(d))
    ensures StrpTime(Join(a, b, c, p.sep), p) == Some(date)
  {
    FieldsOfJoin(a, b, c, p.sep);
  }

  /** y, m and dd are the %Y, %m and %d fields strftime writes for d. */
  predicate Rendered(d: CalendarDate, y: string, m: string, dd: string) {
    YearToken(y) && FieldValue(y) == d.year
    && MonthToken(m) && FieldValue(m) == d.month && |m| == 2
    && DayToken(dd) && FieldValue(dd) == d.day && |dd| == 2
    && AllDigits(y) && AllDigits(m) && AllDigits(dd)
    && Free(y, '-') && Free(m, '-') && Free(dd, '-')
    && Free(y, '/') && Free(m, '/') && Free(dd, '/')
  }

  lemma DateFields(d: CalendarDate) returns (y: string, m: string, dd: string)
    ensures y == PadNat(d.year, 4) && m == PadNat(d.month, 2) && dd == PadNat(d.day, 2)
    ensures Rendered(d, y, m, dd)
  {
    y, m, dd := PadNat(d.year, 4), PadNat(d.month, 2), PadNat(d.day, 2);
    YearField(d.year);
    MonthField(d.month);
    DayField(d.day);
    PadExact(d.month, 2);
    PadExact(d.day, 2);
  }

  lemma StripJoinedDigits(a: string, b: string, c: string, sep: char)
    requires AllDigits(a) && AllDigits(c) && a != [] && c != []
    ensures Strip(Join(a, b, c, sep)) == Join(a, b, c, sep)
  {
    var s := Join(a, b, c, sep);
    assert s[0] == a[0] && s[|s| - 1] == c[|c| - 1];
    StripNoop(s);
  }

  /** An ISO date reads back as itself: the first pattern already matches. */
  lemma IsoRoundTrip(d: CalendarDate, fallback: string -> Option<CalendarDate>)
    ensures ParseDateToIso(Some(FormatIso(d)), fallback) == FormatIso(d)
  {
    var y, m, dd := DateFields(d);
    assert FormatIso(d) == Join(y, m, dd, '-');
    IsoMatch(d, y, m, dd);
    ParseDateOfMatch(Join(y, m, dd, '-'), fallback, d);
  }

  lemma IsoMatch(d: CalendarDate, y: string, m: string, dd: string)
    requires Rendered(d, y, m, dd)
    ensures var s := Join(y, m, dd, '-');
      Strip(s) == s && s != [] && FirstMatch(s, Patterns) == Some(d)
  {
    StripJoinedDigits(y, m, dd, '-');
    StrpTimeOfJoin(Patterns[0], y, m, dd, d);
  }

  /** Normalising a normalised date changes nothing. */
  lemma ParseDateIdempotent(raw: Option<string>, fallback: string -> Option<CalendarDate>)
    ensures ParseDateToIso(Some(ParseDateToIso(raw, fallback)), fallback)
      == ParseDateToIso(raw, fallback)
  {
    var r := ParseDateToIso(raw, fallback);
    if r != "" {
      var s := Strip(raw.value);
      var first := FirstMatch(s, Patterns);
      if first.Some? {
        IsoRoundTrip(first.value, fallback);
      } else {
        IsoRoundTrip(fallback(s).value, fallback);
      }
    }
  }

  lemma ParseDateOfMatch(s: string, fallback: string -> Option<CalendarDate>, date: CalendarDate)
    requires Strip(s) == s && s != [] && FirstMatch(s, Patterns) == Some(date)
    ensures ParseDateToIso(Some(s), fallback) == FormatIso(date)
  {}

  lemma RejectJoin(p: Pattern, a: string, b: string, c: string)
    requires Free(a, p.sep) && Free(b, p.sep) && Free(c, p.sep)
    requires var (y, m, d) := Arrange(p.order, (a, b, c));
      !(YearToken(y) && MonthToken(m) && DayToken(d))
    ensures StrpTime(Join(a, b, c, p.sep), p).None?
  {
    FieldsOfJoin(a, b, c, p.sep);
  }

  lemma SecondPatternDecides(s: string, d: CalendarDate)
    requires StrpTime(s, Patterns[0]).None?
    requires StrpTime(s, Patterns[1]) == Some(d)
    ensures FirstMatch(s, Patterns) == Some(d)
  {
    assert Patterns[1..][0] == Patterns[1];
  }

  lemma ThirdPatternDecides(s: string, d: CalendarDate)
    requires StrpTime(s, Patterns[0]).None? && StrpTime(s, Patterns[1]).None?
    requires StrpTime(s, Patterns[2]) == Some(d)
    ensures FirstMatch(s, Patterns) == Some(d)
  {
    var rest := Patterns[1..];
    assert rest[0] == Patterns[1] && rest[1..][0] == Patterns[2];
    assert FirstMatch(s, Patterns) == FirstMatch(s, rest);
  }

  lemma FourthPatternDecides(s: string, d: CalendarDate)
    requires StrpTime(s, Patterns[0]).None? && StrpTime(s, Patterns[1]).None?
    requires StrpTime(s, Patterns[2]).None?
    requires StrpTime(s, Patterns[3]) == Some(d)
    ensures FirstMatch(s, Patterns) == Some(d)
  {
    var rest := Patterns[1..];
    var rest2 := rest[1..];
    assert rest[0] == Patterns[1] && rest2[0] == Patterns[2] && rest2[1..][0] == Patterns[3];
    assert FirstMatch(s, Patterns) == FirstMatch(s, rest);
    assert FirstMatch(s, rest) == FirstMatch(s, rest2);
  }

  /** The value of a two-digit field. */
  lemma TwoDigitValue(t: string)
    requires |t| == 2 && AllDigits(t)
    ensures FieldValue(t) == 10 * DigitValue(t[0]) + DigitValue(t[1])
  {
    DigitsOfDigits(t);
    assert ParseNat(t) == 10 * ParseNat(t[..1]) + DigitValue(t[1]);
    assert t[..1][..0] == [];
    assert ParseNat(t[..1]) == DigitValue(t[0]);
  }

  /** A two-digit field above 12 is no month. */
  lemma HighFieldNotMonth(t: string)
    requires |t| == 2 && AllDigits(t) && FieldValue(t) > 12
    ensures !MonthToken(t)
  {
    TwoDigitValue(t);
  }

  /** A two-digit field from 1 to 12 is a month. */
  lemma LowFieldIsMonth(t: string)
    requires |t| == 2 && AllDigits(t) && 1 <= FieldValue(t) <= 12
    ensures MonthToken(t)
  {
    TwoDigitValue(t);
  }

  /** Every month field is also a day field. */
  lemma MonthFieldIsDay(t: string)
    requires MonthToken(t)
    ensures DayToken(t)
  {}

  /** "30-12-2025": day first with dashes. The year-first pattern fails on
      the two-digit first field, so the second pattern decides. */
  lemma DayFirstDashes(d: CalendarDate, fallback: string -> Option<CalendarDate>)
    ensures ParseDateToIso(Some(Join(PadNat(d.day, 2), PadNat(d.month, 2), PadNat(d.year, 4), '-')), fallback)
      == FormatIso(d)
  {
    var y, m, dd := DateFields(d);
    DayFirstDashesMatch(d, y, m, dd);
    ParseDateOfMatch(Join(dd, m, y, '-'), fallback, d);
  }

  lemma DayFirstDashesMatch(d: CalendarDate, y: string, m: string, dd: string)
    requires Rendered(d, y, m, dd)
    ensures var s := Join(dd, m, y, '-');
      Strip(s) == s && s != [] && FirstMatch(s, Patterns) == Some(d)
  {
    var s := Join(dd, m, y, '-');
    StripJoinedDigits(dd, m, y, '-');
    RejectJoin(Patterns[0], dd, m, y);
    StrpTimeOfJoin(Patterns[1], dd, m, y, d);
    SecondPatternDecides(s, d);
  }

  /** "30/12/2025": day first with slashes; both dash patterns find no
      dash, the third pattern decides. */
  lemma DayFirstSlashes(d: CalendarDate, fallback: string -> Option<CalendarDate>)
    ensures ParseDateToIso(Some(Join(PadNat(d.day, 2), PadNat(d.month, 2), PadNat(d.year, 4), '/')), fallback)
      == FormatIso(d)
  {
    var y, m, dd := DateFields(d);
    DayFirstSlashesMatch(d, y, m, dd);
    ParseDateOfMatch(Join(dd, m, y, '/'), fallback, d);
  }

  lemma DayFirstSlashesMatch(d: CalendarDate, y: string, m: string, dd: string)
    requires Rendered(d, y, m, dd)
    ensures var s := Join(dd, m, y, '/');
      Strip(s) == s && s != [] && FirstMatch(s, Patterns) == Some(d)
  {
    var s := Join(dd, m, y, '/');
    StripJoinedDigits(dd, m, y, '/');
    JoinFree(dd, m, y, '/', '-');
    FieldsOfFree(s, '-');
    StrpTimeOfJoin(Patterns[2], dd, m, y, d);
    ThirdPatternDecides(s, d);
  }

  /** "12-30-2025": month first with dashes. When the day is past the
      twelfth it cannot be read as a month, so the month-first pattern
      decides. */
  lemma MonthFirstDashes(d: CalendarDate, fallback: string -> Option<CalendarDate>)
    requires d.day > 12
    ensures ParseDateToIso(Some(Join(PadNat(d.month, 2), PadNat(d.day, 2), PadNat(d.year, 4), '-')), fallback)
      == FormatIso(d)
  {
    var y, m, dd := DateFields(d);
    MonthFirstDashesMatch(d, y, m, dd);
    ParseDateOfMatch(Join(m, dd, y, '-'), fallback, d);
  }

  lemma MonthFirstDashesMatch(d: CalendarDate, y: string, m: string, dd: string)
    requires Rendered(d, y, m, dd) && d.day > 12
    ensures var s := Join(m, dd, y, '-');
      Strip(s) == s && s != [] && FirstMatch(s, Patterns) == Some(d)
  {
    var s := Join(m, dd, y, '-');
    StripJoinedDigits(m, dd, y, '-');
    HighFieldNotMonth(dd);
    RejectJoin(Patterns[0], m, dd, y);
    RejectJoin(Patterns[1], m, dd, y);
    JoinFree(m, dd, y, '-', '/');
    FieldsOfFree(s, '/');
    StrpTimeOfJoin(Patterns[3], m, dd, y, d);
    FourthPatternDecides(s, d);
  }

  /** The date with day and month exchanged; a day up to 12 is a month. */
  function SwapDayMonth(d: CalendarDate): (r: CalendarDate)
    requires d.day <= 12
    ensures r.year == d.year && r.month == d.day && r.day == d.month
  {
    Date(d.year, d.day, d.month)
  }

  /** An ambiguous month-first date (day at most 12) is read day first:
      month and day come out swapped. */
  lemma MonthFirstAmbiguous(d: CalendarDate, fallback: string -> Option<CalendarDate>)
    requires d.day <= 12
    ensures ParseDateToIso(Some(Join(PadNat(d.month, 2), PadNat(d.day, 2), PadNat(d.year, 4), '-')), fallback)
      == FormatIso(SwapDayMonth(d))
  {
    var y, m, dd := DateFields(d);
    MonthFirstAmbiguousMatch(d, y, m, dd);
    ParseDateOfMatch(Join(m, dd, y, '-'), fallback, SwapDayMonth(d));
  }

  lemma MonthFirstAmbiguousMatch(d: CalendarDate, y: string, m: string, dd: string)
    requires Rendered(d, y, m, dd) && d.day <= 12
    ensures var s := Join(m, dd, y, '-');
      Strip(s) == s && s != [] && FirstMatch(s, Patterns) == Some(SwapDayMonth(d))
  {
    var swapped := SwapDayMonth(d);
    var s := Join(m, dd, y, '-');
    StripJoinedDigits(m, dd, y, '-');
    LowFieldIsMonth(dd);
    MonthFieldIsDay(m);
    RejectJoin(Patterns[0], m, dd, y);
    StrpTimeOfJoin(Patterns[1], m, dd, y, swapped);
    SecondPatternDecides(s, swapped);
  }

  /** Text with neither separator ("invalid") matches no pattern and is
      left to the general-purpose parser; when that fails too the result
      is "". */
  lemma NoSeparatorFallsBack(s: string, fallback: string -> Option<CalendarDate>)
    requires Strip(s) == s && s != []
    requires Free(s, '-') && Free(s, '/')
    ensures ParseDateToIso(Some(s), fallback)
      == (if fallback(s).Some? then FormatIso(fallback(s).value) else "")
  {
    NoSeparatorNoMatch(s);
    ParseDateNoMatch(s, fallback);
  }

  lemma NoSeparatorNoMatch(s: string)
    requires Free(s, '-') && Free(s, '/')
    ensures FirstMatch(s, Patterns).None?
  {
    FieldsOfFree(s, '-');
    FieldsOfFree(s, '/');
    FirstMatchNone(s, Patterns);
  }

  lemma ParseDateNoMatch(s: string, fallback: string -> Option<CalendarDate>)
    requires Strip(s) == s && s != [] && FirstMatch(s, Patterns).None?
    ensures ParseDateToIso(Some(s), fallback)
      == (if fallback(s).Some? then FormatIso(fallback(s).value) else "")
  {}
}
