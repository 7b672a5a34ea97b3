/** transform_customers (part1-database-etl/etl_pipeline.py): de-duplicate
    on email, drop rows without an email, standardise phone and registration
    date, default a missing date to today, drop rows without a name, trim. */
module Customers {
  import opened Wrappers
  import opened Text
  import opened Seqs
  import opened Normalize
  import opened Dates
  import opened Report

  /** A row of customers_raw.csv; every cell may be missing. */
  datatype RawCustomer = RawCustomer(
    customerId: Option<string>,
    firstName: Option<string>,
    lastName: Option<string>,
    email: Option<string>,
    phone: Option<string>,
    city: Option<string>,
    registrationDate: Option<string>)

  /** A cleaned row, ready for the customers table. */
  datatype Customer = Customer(
    customerId: Option<string>,
    firstName: string,
    lastName: string,
    email: string,
    phone: string,
    city: string,
    registrationDate: string)

  /** The de-duplication key: the email cell exactly as read. */
  function Email(r: RawCustomer): Option<string> { r.email }

  predicate HasEmail(r: RawCustomer) { !Blank(r.email) }
  predicate HasFirstName(r: RawCustomer) { !Blank(r.firstName) }
  predicate HasLastName(r: RawCustomer) { !Blank(r.lastName) }

  /** The rows that pass every required-field check. */
  predicate Complete(r: RawCustomer) {
    HasEmail(r) && HasFirstName(r) && HasLastName(r)
  }

  /** The phone that normalize_phone_to_india gives up on. */
  predicate PhoneUnusable(r: RawCustomer) { NormalizePhone(r.phone) == "" }

  /** The registration dates that parse_date_to_iso gives up on. */
  function DateUnusable(fallback: string -> Option<CalendarDate>): RawCustomer -> bool {
    (r: RawCustomer) => ParseDateToIso(r.registrationDate, fallback) == ""
  }

  /** What transform_customers makes of a row it keeps: names, email and
      city trimmed, the phone in "+91-" form or "", the date in ISO form,
      today's date when the cell could not be read. */
  function Clean(r: RawCustomer, today: CalendarDate, fallback: string -> Option<CalendarDate>): Customer {
    var date := ParseDateToIso(r.registrationDate, fallback);
    Customer(
      r.customerId,
      Strip(r.firstName.GetOr("")),
      Strip(r.lastName.GetOr("")),
      Strip(r.email.GetOr("")),
      NormalizePhone(r.phone),
      Strip(r.city.GetOr("")),
      if date == "" then FormatIso(today) else date)
  }

  function Cleaner(today: CalendarDate, fallback: string -> Option<CalendarDate>): RawCustomer -> Customer {
    (r: RawCustomer) => Clean(r, today, fallback)
  }

  /** The table transform_customers returns, in one pass: the first row of
      each email, the complete ones, cleaned. */
  function CleanCustomers(rows: seq<RawCustomer>, today: CalendarDate,
                          fallback: string -> Option<CalendarDate>): (r: seq<Customer>)
    ensures |r| <= |rows|
  {
    Map(Filter(KeepFirst(rows, Email), Complete), Cleaner(today, fallback))
  }

  /** The missing values transform_customers counts: rows dropped for a blank
      email or name, and, among the rows that have an email, unusable phones
      and unreadable dates. */
  function MissingHandled(rows: seq<RawCustomer>, fallback: string -> Option<CalendarDate>): nat {
    var kept := KeepFirst(rows, Email);
    var withEmail := Filter(kept, HasEmail);
    (|kept| - |Filter(kept, Complete)|)
      + Count(withEmail, PhoneUnusable) + Count(withEmail, DateUnusable(fallback))
  }

  /** A row fit for the customers table. */
  predicate ValidCustomer(c: Customer) {
    && c.firstName != "" && c.lastName != "" && c.email != ""
    && Strip(c.firstName) == c.firstName && Strip(c.lastName) == c.lastName
    && Strip(c.email) == c.email
    && (c.phone == "" || IsIndianPhone(c.phone))
    && IsIsoShaped(c.registrationDate)
  }

  // The steps of transform_customers, one column rewrite at a time.

  function Standardise(r: RawCustomer, fallback: string -> Option<CalendarDate>): RawCustomer {
    r.(phone := Some(NormalizePhone(r.phone)),
       registrationDate := Some(ParseDateToIso(r.registrationDate, fallback)))
  }

  function Standardiser(fallback: string -> Option<CalendarDate>): RawCustomer -> RawCustomer {
    (r: RawCustomer) => Standardise(r, fallback)
  }

  predicate PhoneEmpty(r: RawCustomer) { r.phone == Some("") }
  predicate DateEmpty(r: RawCustomer) { r.registrationDate == Some("") }

  function FillDate(r: RawCustomer, today: string): RawCustomer {
    if DateEmpty(r) then r.(registrationDate := Some(today)) else r
  }

  function DateDefaulter(today: string): RawCustomer -> RawCustomer {
    (r: RawCustomer) => FillDate(r, today)
  }

  function Trim(r: RawCustomer): Customer {
    Customer(
      r.customerId,
      Strip(r.firstName.GetOr("")),
      Strip(r.lastName.GetOr("")),
      Strip(r.email.GetOr("")),
      Strip(r.phone.GetOr("")),
      Strip(r.city.GetOr("")),
      r.registrationDate.GetOr(""))
  }

  /** The phone and date rewrites, with a missing date set to today. */
  function Rewrite(today: CalendarDate, fallback: string -> Option<CalendarDate>): RawCustomer -> RawCustomer {
    (r: RawCustomer) => FillDate(Standardise(r, fallback), FormatIso(today))
  }

  /** transform_customers, step by step as the script does it. `today` stands
      for datetime.today() and `fallback` for pandas' general date parser. */
  method TransformCustomers(rows: seq<RawCustomer>, today: CalendarDate,
                            fallback: string -> Option<CalendarDate>)
    returns (out: seq<Customer>, stats: Stats)
    ensures out == CleanCustomers(rows, today, fallback)
    ensures forall i :: 0 <= i < |out| ==> ValidCustomer(out[i])
    ensures stats.processed == |rows|
    ensures stats.duplicatesRemoved == |rows| - |KeepFirst(rows, Email)|
    ensures stats.missingHandled == MissingHandled(rows, fallback)
  {
    stats := Stats(|rows|, 0, 0);

    var dedup := DropDuplicates(rows, Email);
    var df := dedup.0;
    stats := stats.(duplicatesRemoved := stats.duplicatesRemoved + dedup.1);
    ghost var kept := df;

    var before := |df|;
    df := Filter(df, HasEmail);
    stats := stats.(missingHandled := stats.missingHandled + (before - |df|));
    ghost var withEmail := df;

    var phonesMissing, datesMissing;
    df, phonesMissing, datesMissing := StandardiseContacts(df, today, fallback);
    stats := stats.(missingHandled := stats.missingHandled + phonesMissing + datesMissing);

    var dropped;
    df, dropped := DropIncomplete(df);
    stats := stats.(missingHandled := stats.missingHandled + dropped);

    RequiredChecks(kept, today, fallback);
    assert |df| == |Filter(kept, Complete)|;
    assert stats.missingHandled == (|kept| - |df|) + phonesMissing + datesMissing;
    out := Map(df, Trim);
    TrimAfterRewrite(Filter(kept, Complete), today, fallback);
    CleanCustomersValid(rows, today, fallback);
  }

  /** Lines 268-280: normalise the phones and count the unusable ones, parse
      the dates, count the unreadable ones and give them today's date. */
  method StandardiseContacts(rows: seq<RawCustomer>, today: CalendarDate,
                             fallback: string -> Option<CalendarDate>)
    returns (df: seq<RawCustomer>, phonesMissing: nat, datesMissing: nat)
    ensures df == Map(rows, Rewrite(today, fallback))
    ensures phonesMissing == Count(rows, PhoneUnusable)
    ensures datesMissing == Count(rows, DateUnusable(fallback))
  {
    var emptyDates;
    df, phonesMissing, emptyDates := StandardiseCells(rows, fallback);
    df, datesMissing := FillDates(df, FormatIso(today), emptyDates);
    RewriteInTwoSteps(today, fallback);
    MapMap(rows, Standardiser(fallback), DateDefaulter(FormatIso(today)), Rewrite(today, fallback));
  }

  /** Lines 269-277: the phone and date columns rewritten by their
      normalisers, with the cells each one gave up on counted. */
  method StandardiseCells(rows: seq<RawCustomer>, fallback: string -> Option<CalendarDate>)
    returns (df: seq<RawCustomer>, phonesMissing: nat, emptyDates: nat)
    ensures df == Map(rows, Standardiser(fallback))
    ensures phonesMissing == Count(rows, PhoneUnusable)
    ensures emptyDates == Count(df, DateEmpty) == Count(rows, DateUnusable(fallback))
  {
    var standardise := Standardiser(fallback);
    df := Map(rows, standardise);
    StandardisedCounts(fallback);
    CountMap(rows, standardise, PhoneEmpty, PhoneUnusable);
    phonesMissing := Count(df, PhoneEmpty);
    CountMap(rows, standardise, DateEmpty, DateUnusable(fallback));
    emptyDates := Count(df, DateEmpty);
  }

  /** Lines 277-280: the empty dates, when there are any, become today's. */
  method FillDates(rows: seq<RawCustomer>, today: string, emptyDates: nat)
    returns (df: seq<RawCustomer>, datesMissing: nat)
    requires emptyDates == Count(rows, DateEmpty)
    ensures df == Map(rows, DateDefaulter(today))
    ensures datesMissing == emptyDates
  {
    df := rows;
    datesMissing := 0;
    if emptyDates > 0 {
      df := Map(df, DateDefaulter(today));
      datesMissing := emptyDates;
    } else {
      CountZero(df, DateEmpty);
      MapUnchanged(df, DateDefaulter(today));
    }
  }

  /** A standardised row has an empty phone or date exactly when the
      normaliser gave up on it. */
  lemma StandardisedCounts(fallback: string -> Option<CalendarDate>)
    ensures forall x :: PhoneEmpty(Standardiser(fallback)(x)) == PhoneUnusable(x)
    ensures forall x :: DateEmpty(Standardiser(fallback)(x)) == DateUnusable(fallback)(x)
  {}

  lemma RewriteInTwoSteps(today: CalendarDate, fallback: string -> Option<CalendarDate>)
    ensures forall x :: Rewrite(today, fallback)(x) == DateDefaulter(FormatIso(today))(Standardiser(fallback)(x))
  {}

  /** Lines 282-287: drop the rows with a blank first name, last name or
      email, in that order, and count them. */
  method DropIncomplete(rows: seq<RawCustomer>) returns (df: seq<RawCustomer>, dropped: nat)
    ensures df == Filter(Filter(Filter(rows, HasFirstName), HasLastName), HasEmail)
    ensures dropped == |rows| - |df|
  {
    df := rows;
    dropped := 0;
    var before := |df|;
    df := Filter(df, HasFirstName);
    dropped := dropped + (before - |df|);
    before := |df|;
    df := Filter(df, HasLastName);
    dropped := dropped + (before - |df|);
    before := |df|;
    df := Filter(df, HasEmail);
    dropped := dropped + (before - |df|);
  }

  /** Every row of the cleaned table is fit for the customers table. */
  lemma CleanCustomersValid(rows: seq<RawCustomer>, today: CalendarDate,
                            fallback: string -> Option<CalendarDate>)
    ensures forall i :: 0 <= i < |CleanCustomers(rows, today, fallback)| ==>
      ValidCustomer(CleanCustomers(rows, today, fallback)[i])
  {
    var complete := Filter(KeepFirst(rows, Email), Complete);
    forall i | 0 <= i < |complete| ensures ValidCustomer(Clean(complete[i], today, fallback)) {
      CleanValid(complete[i], today, fallback);
    }
  }

  /** The three required-field checks, applied after the phone and date
      rewrites, keep the complete rows: the rewrites do not touch the checked
      columns, and the email check was already made. */
  lemma RequiredChecks(kept: seq<RawCustomer>, today: CalendarDate, fallback: string -> Option<CalendarDate>)
    ensures Filter(Filter(Filter(Map(Filter(kept, HasEmail), Rewrite(today, fallback)),
                                 HasFirstName), HasLastName), HasEmail)
         == Map(Filter(kept, Complete), Rewrite(today, fallback))
  {
    var rewrite := Rewrite(today, fallback);
    RewriteKeepsRequired(today, fallback);
    var w := Filter(kept, HasEmail);
    FilterMap(w, rewrite, HasFirstName, HasFirstName);
    FilterMap(Filter(w, HasFirstName), rewrite, HasLastName, HasLastName);
    FilterMap(Filter(Filter(w, HasFirstName), HasLastName), rewrite, HasEmail, HasEmail);
    RequiredTogether(kept);
  }

  lemma RewriteKeepsRequired(today: CalendarDate, fallback: string -> Option<CalendarDate>)
    ensures forall x :: Rewrite(today, fallback)(x).firstName == x.firstName
    ensures forall x :: Rewrite(today, fallback)(x).lastName == x.lastName
    ensures forall x :: Rewrite(today, fallback)(x).email == x.email
  {
    forall x ensures Rewrite(today, fallback)(x) == FillDate(Standardise(x, fallback), FormatIso(today)) {}
    forall x ensures FillDate(Standardise(x, fallback), FormatIso(today)).firstName == x.firstName
                  && FillDate(Standardise(x, fallback), FormatIso(today)).lastName == x.lastName
                  && FillDate(Standardise(x, fallback), FormatIso(today)).email == x.email {
      KeepsNames(Standardise(x, fallback), x, FormatIso(today));
    }
  }

  lemma KeepsNames(y: RawCustomer, x: RawCustomer, today: string)
    requires y.firstName == x.firstName && y.lastName == x.lastName && y.email == x.email
    ensures FillDate(y, today).firstName == x.firstName
    ensures FillDate(y, today).lastName == x.lastName
    ensures FillDate(y, today).email == x.email
  {}

  /** The email check followed by the three required-field checks keeps the
      complete rows. */
  lemma RequiredTogether(kept: seq<RawCustomer>)
    ensures Filter(Filter(Filter(Filter(kept, HasEmail), HasFirstName), HasLastName), HasEmail)
         == Filter(kept, Complete)
  {
    var p1 := (x: RawCustomer) => HasEmail(x) && HasFirstName(x);
    var p2 := (x: RawCustomer) => p1(x) && HasLastName(x);
    FilterFilter(kept, HasEmail, HasFirstName, p1);
    FilterFilter(kept, p1, HasLastName, p2);
    FilterFilter(kept, p2, HasEmail, Complete);
  }

  /** A normalised phone has no white space to trim. */
  lemma PhoneStripped(raw: Option<string>)
    ensures Strip(NormalizePhone(raw)) == NormalizePhone(raw)
  {
    var p := NormalizePhone(raw);
    if p != "" {
      assert p[0] == '+' && IsDigit(p[|p| - 1]);
      StripNoop(p);
    }
  }

  /** Trimming a rewritten row is cleaning the raw one. */
  lemma CleanIsTrim(x: RawCustomer, today: CalendarDate, fallback: string -> Option<CalendarDate>)
    ensures Clean(x, today, fallback) == Trim(FillDate(Standardise(x, fallback), FormatIso(today)))
  {
    PhoneStripped(x.phone);
  }

  lemma TrimAfterRewrite(s: seq<RawCustomer>, today: CalendarDate, fallback: string -> Option<CalendarDate>)
    ensures Map(Map(s, Rewrite(today, fallback)), Trim) == Map(s, Cleaner(today, fallback))
  {
    forall x ensures Cleaner(today, fallback)(x) == Trim(Rewrite(today, fallback)(x)) {
      CleanIsTrim(x, today, fallback);
    }
    MapMap(s, Rewrite(today, fallback), Trim, Cleaner(today, fallback));
  }

  /** Every row transform_customers returns is fit for the customers table. */
  lemma CleanValid(r: RawCustomer, today: CalendarDate, fallback: string -> Option<CalendarDate>)
    requires Complete(r)
    ensures ValidCustomer(Clean(r, today, fallback))
  {
    var c := Clean(r, today, fallback);
    StripIdempotent(r.firstName.value);
    StripIdempotent(r.lastName.value);
    StripIdempotent(r.email.value);
    assert c.firstName != "" && c.lastName != "" && c.email != "";
    assert Strip(c.firstName) == c.firstName && Strip(c.lastName) == c.lastName;
    assert Strip(c.email) == c.email;
    assert c.phone == "" || IsIndianPhone(c.phone);
    assert IsIsoShaped(c.registrationDate);
  }

  /** The cleaned table holds exactly the cleaned complete rows that are the
      first of their email. */
  lemma CleanCustomersRows(rows: seq<RawCustomer>, today: CalendarDate,
                           fallback: string -> Option<CalendarDate>, c: Customer)
    ensures c in CleanCustomers(rows, today, fallback) <==>
      exists i :: 0 <= i < |rows| && IsFirst(rows, Email, i) && Complete(rows[i])
                  && c == Clean(rows[i], today, fallback)
  {
    KeepFirstFilterMap(rows, Email, Complete, Cleaner(today, fallback), c);
  }
}
