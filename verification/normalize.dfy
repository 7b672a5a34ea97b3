/** The string normalisers of the ETL script: phone numbers to the Indian
    "+91-" form and category names to title case
    (part1-database-etl/etl_pipeline.py, normalize_phone_to_india and
    to_title_case). */
module Normalize {
  import opened Wrappers
  import opened Text

  const CountryPrefix: string := "+91-"

  /** The canonical form: "+91-" and exactly ten digits. */
  predicate IsIndianPhone(p: string) {
    |p| == 14 && p[..4] == CountryPrefix && AllDigits(p[4..])
  }

  /** normalize_phone_to_india: keep the digits; ten of them get the prefix,
      twelve starting with "91" lose the country code, any other count above
      ten keeps its last ten; everything else is "" (treated as missing).
      All three accepting branches keep the last ten digits. */
  function NormalizePhone(raw: Option<string>): (r: string)
    ensures r == "" || IsIndianPhone(r)
    ensures raw.None? ==> r == ""
    ensures raw.Some? ==>
      var d := Digits(raw.value);
      r == if |d| >= 10 then CountryPrefix + d[|d| - 10..] else ""
  {
    if raw.None? then ""
    else
      var d := Digits(raw.value);
      if |d| == 10 then CountryPrefix + d
      else if |d| == 12 && d[..2] == "91" then CountryPrefix + d[|d| - 10..]
      else if |d| > 10 then
        var candidate := d[|d| - 10..];
        if |candidate| == 10 then CountryPrefix + candidate else ""
      else ""
  }

  /** A normalised number is a fixed point: its digits are "91" followed by
      the ten kept digits, which the twelve-digit branch maps back to itself. */
  lemma PhoneIdempotent(raw: Option<string>)
    ensures NormalizePhone(Some(NormalizePhone(raw))) == NormalizePhone(raw)
  {
    var p := NormalizePhone(raw);
    if p != "" {
      var ten := p[4..];
      assert p == CountryPrefix + ten;
      DigitsAppend(CountryPrefix, ten);
      DigitsOfDigits(ten);
      assert Digits(CountryPrefix) == "91";
      var d := Digits(p);
      assert d == "91" + ten;
      assert d[|d| - 10..] == ten;
    }
  }

  /** Fewer than ten digits, whatever else the input holds, means missing. */
  lemma PhoneTooShort(raw: string)
    requires |Digits(raw)| < 10
    ensures NormalizePhone(Some(raw)) == ""
  {}

  /** Ten bare digits get the country prefix ("9876543210" gives
      "+91-9876543210"). */
  lemma PhoneTenDigits(ten: string)
    requires |ten| == 10 && AllDigits(ten)
    ensures NormalizePhone(Some(ten)) == CountryPrefix + ten
  {
    DigitsOfDigits(ten);
    assert ten[|ten| - 10..] == ten;
  }

  /** Twelve digits starting with the country code lose it
      ("919876543210" gives "+91-9876543210"). */
  lemma PhoneCountryCode(ten: string)
    requires |ten| == 10 && AllDigits(ten)
    ensures NormalizePhone(Some("91" + ten)) == CountryPrefix + ten
  {
    var e := "91" + ten;
    DigitsOfDigits(e);
    assert e[|e| - 10..] == ten;
  }

  /** Python's str.lower() on the ASCII letters. */
  function Lower(s: string): (r: string)
    ensures |r| == |s|
    ensures forall i :: 0 <= i < |s| ==> r[i] == ToLower(s[i])
  {
    if s == [] then [] else [ToLower(s[0])] + Lower(s[1..])
  }

  /** Character i of r is character i of t title-cased, where `prevCased`
      says whether a letter precedes t: a letter is upper case exactly when
      no letter precedes it, and only its case may change; other characters
      are unchanged. */
  predicate TitledAt(r: string, t: string, i: nat, prevCased: bool)
    requires i < |r| == |t|
  {
    if IsLetter(t[i]) then
      && IsLetter(r[i])
      && ToLower(r[i]) == ToLower(t[i])
      && (IsUpper(r[i]) <==> if i == 0 then !prevCased else !IsLetter(t[i - 1]))
    else r[i] == t[i]
  }

  /** r is Python's str.title() of t. */
  predicate IsTitleOf(r: string, t: string) {
    |r| == |t| && forall i :: 0 <= i < |t| ==> TitledAt(r, t, i, false)
  }

  /** Python's str.title(), scanning left to right; `prevCased` says whether
      the character before s was a letter. */
  function TitleFrom(s: string, prevCased: bool): (r: string)
    ensures |r| == |s|
    ensures forall i :: 0 <= i < |s| ==> TitledAt(r, s, i, prevCased)
  {
    if s == [] then []
    else
      var c := s[0];
      var head := if IsLetter(c) then (if prevCased then ToLower(c) else ToUpper(c)) else c;
      var tail := TitleFrom(s[1..], IsLetter(c));
      var r := [head] + tail;
      forall i | 1 <= i < |s| ensures TitledAt(r, s, i, prevCased) {
        assert r[i] == tail[i - 1] && s[i] == s[1..][i - 1];
        assert TitledAt(tail, s[1..], i - 1, IsLetter(c));
        if i > 1 { assert s[i - 1] == s[1..][i - 2]; }
      }
      r
  }

  lemma ToLowerIdempotent(c: char)
    ensures ToLower(ToLower(c)) == ToLower(c)
  {}

  /** to_title_case: missing becomes "", otherwise strip, lower-case, title. */
  function TitleCase(raw: Option<string>): (r: string)
    ensures raw.None? ==> r == ""
    ensures raw.Some? ==> IsTitleOf(r, Strip(raw.value))
  {
    if raw.None? then ""
    else
      var t := Strip(raw.value);
      var l := Lower(t);
      var r := TitleFrom(l, false);
      forall i | 0 <= i < |t| ensures TitledAt(r, t, i, false) {
        assert TitledAt(r, l, i, false);
        ToLowerIdempotent(t[i]);
        if i > 0 { assert IsLetter(l[i - 1]) <==> IsLetter(t[i - 1]); }
      }
      r
  }

  lemma {:induction false} LowerOfLower(s: string)
    requires forall i :: 0 <= i < |s| ==> !IsUpper(s[i])
    ensures Lower(s) == s
  {}

  /** Title-casing keeps the ends of a stripped string free of white space. */
  lemma TitleKeepsStripped(r: string, t: string)
    requires IsTitleOf(r, t) && Strip(t) == t
    ensures Strip(r) == r
  {
    if r != [] {
      assert TitledAt(r, t, 0, false);
      assert TitledAt(r, t, |t| - 1, false);
      assert !IsSpace(t[0]) && !IsSpace(t[|t| - 1]);
    }
    StripNoop(r);
  }

  /** Title-casing changes only the case of letters. */
  lemma TitleSameLower(r: string, t: string)
    requires IsTitleOf(r, t)
    ensures Lower(r) == Lower(t)
  {
    forall i | 0 <= i < |r| ensures Lower(r)[i] == Lower(t)[i] {
      assert TitledAt(r, t, i, false);
    }
  }

  /** Title-casing a category twice changes nothing more. */
  lemma TitleCaseIdempotent(raw: Option<string>)
    ensures TitleCase(Some(TitleCase(raw))) == TitleCase(raw)
  {
    var r := TitleCase(raw);
    if raw.Some? {
      var t := Strip(raw.value);
      StripIdempotent(raw.value);
      TitleKeepsStripped(r, t);
      TitleSameLower(r, t);
    } else {
      StripNoop("");
    }
  }

}
