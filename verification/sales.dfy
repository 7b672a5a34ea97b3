/** transform_sales (part1-database-etl/etl_pipeline.py): schema detection,
    de-duplication, date normalisation, then one of three ways to get priced
    line items (numeric ids, coded ids translated to names, or names), the
    price and subtotal of every item, its order key, and the orders. */
module Sales {
  import opened Wrappers
  import opened Text
  import opened Seqs
  import opened Numbers
  import opened Dates
  import opened Orders
  import opened SalesData
  import opened Report

  /** Why transform_sales gives up (a KeyError in the source). */
  datatype SalesError =
    | MissingKeyColumns(found: set<Column>)  // line 345: neither key pair, lists the columns found
    | MissingDedupColumns                     // line 353: drop_duplicates on a subset column that is absent
    | NoTranslatedRows                        // line 511: the translated table is empty and has no columns

  /** The schema transform_sales works with: true for ids, false for names. */
  function ById(columns: set<Column>): (r: Result<bool, SalesError>)
    ensures r.Err? <==> !({CustomerEmailColumn, ProductNameColumn} <= columns)
                        && !({CustomerIdColumn, ProductIdColumn} <= columns)
    ensures r.Err? ==> r.error == MissingKeyColumns(columns)
    ensures r.Ok? ==> (r.value <==> {CustomerIdColumn, ProductIdColumn} <= columns)
  {
    var hasNames := {CustomerEmailColumn, ProductNameColumn} <= columns;
    var hasIds := {CustomerIdColumn, ProductIdColumn} <= columns;
    if !(hasNames || hasIds) then Err(MissingKeyColumns(columns)) else Ok(hasIds)
  }

  /** The columns drop_duplicates compares, as one value. */
  type SaleKey = (Option<string>, Option<string>, Option<string>, Option<string>, Option<string>)

  function IdKey(r: RawSale): SaleKey {
    (r.customerId, r.productId, r.orderDate, r.quantity, r.unitPrice)
  }

  function NameKey(r: RawSale): SaleKey {
    (r.customerEmail, r.productName, r.orderDate, r.quantity, r.unitPrice)
  }

  function DedupKey(byId: bool): RawSale -> SaleKey {
    if byId then IdKey else NameKey
  }

  function NormaliseDate(r: RawSale, fallback: string -> Option<CalendarDate>): RawSale {
    r.(orderDate := Some(ParseDateToIso(r.orderDate, fallback)))
  }

  function DateNormaliser(fallback: string -> Option<CalendarDate>): RawSale -> RawSale {
    (r: RawSale) => NormaliseDate(r, fallback)
  }

  predicate HasDate(r: RawSale) { Strip(r.orderDate.GetOr("")) != "" }

  // ---------------------------------------------------------------------
  // The code-translation path (lines 374-416).

  /** `is_series_numeric`: some cell is present and every present cell reads
      as an integer. */
  predicate AllNumeric(cells: seq<Option<string>>) {
    (exists i :: 0 <= i < |cells| && cells[i].Some?)
    && forall i :: 0 <= i < |cells| && cells[i].Some? ==> SafeToInt(cells[i], None).Some?
  }

  function CustomerIdCell(r: RawSale): Option<string> { r.customerId }
  function ProductIdCell(r: RawSale): Option<string> { r.productId }

  /** Lines 377-379: customer_email replaced by the email of the customer id. */
  function EmailTranslator(d: map<string, string>): RawSale -> RawSale {
    (r: RawSale) => r.(customerEmail := Lookup(d, r.customerId))
  }

  /** Lines 381-383: product_name replaced by the name of the product id. */
  function NameTranslator(d: map<string, string>): RawSale -> RawSale {
    (r: RawSale) => r.(productName := Lookup(d, r.productId))
  }

  /** Lines 393-398: a row is kept when it has an email, a product name and
      a positive quantity (None and "" are both falsy; nothing is stripped). */
  predicate Usable(r: RawSale) {
    && r.customerEmail.Some? && r.customerEmail.value != ""
    && r.productName.Some? && r.productName.value != ""
    && SafeToInt(r.quantity, None).Some? && SafeToInt(r.quantity, None).value > 0
  }

  /** Lines 399-410: the line a kept row gives. The price is the explicit one
      when float() accepts it, else the catalogue price of the product name. */
  function TranslateRow(r: RawSale, prices: map<string, string>): PendingLine {
    var unit := SafeToDecimal(r.unitPrice);
    PendingLine(
      r.orderId,
      r.orderDate.GetOr(""),
      CustomerEmail(r.customerEmail.GetOr("")),
      ProductName(r.productName.GetOr("")),
      SafeToInt(r.quantity, None).GetOr(0),
      if unit.None? then Lookup(prices, r.productName) else unit,
      r.status)
  }

  function Translator(prices: map<string, string>): RawSale -> PendingLine {
    (r: RawSale) => TranslateRow(r, prices)
  }

  /** new_rows after the loop has seen the given rows. */
  function Translated(rows: seq<RawSale>, prices: map<string, string>): (r: seq<PendingLine>)
    ensures |r| <= |rows|
  {
    if rows == [] then []
    else
      var last := rows[|rows| - 1];
      Translated(rows[..|rows| - 1], prices) + if Usable(last) then [TranslateRow(last, prices)] else []
  }

  /** One pass of the loop body (lines 393-409): whether the row is kept,
      and the line it gives. */
  method TranslateOne(r: RawSale, prices: map<string, string>) returns (keep: bool, line: PendingLine)
    ensures keep <==> Usable(r)
    ensures keep ==> line == TranslateRow(r, prices)
  {
    var email := r.customerEmail;
    var name := r.productName;
    var qty := SafeToInt(r.quantity, None);
    keep := !(email.None? || email.value == "" || name.None? || name.value == "" || qty.None? || qty.value <= 0);
    line := PendingLine(r.orderId, r.orderDate.GetOr(""), CustomerEmail(email.GetOr("")),
                        ProductName(name.GetOr("")), qty.GetOr(0), None, r.status);
    if keep {
      var unit := SafeToDecimal(r.unitPrice);
      if unit.None? {
        unit := Lookup(prices, name);
      }
      line := line.(unitPrice := unit);
    }
  }

  /** The loop of lines 392-410. */
  method TranslateRows(rows: seq<RawSale>, prices: map<string, string>) returns (newRows: seq<PendingLine>)
    ensures newRows == Translated(rows, prices)
  {
    newRows := [];
    var i := 0;
    while i < |rows|
      invariant 0 <= i <= |rows|
      invariant newRows == Translated(rows[..i], prices)
    {
      var keep, line := TranslateOne(rows[i], prices);
      if keep {
        newRows := newRows + [line];
      }
      TranslatedSnoc(rows, i, prices);
      i := i + 1;
    }
    assert rows[..|rows|] == rows;
  }

  lemma TranslatedSnoc(rows: seq<RawSale>, i: nat, prices: map<string, string>)
    requires i < |rows|
    ensures Translated(rows[..i + 1], prices) ==
      Translated(rows[..i], prices) + if Usable(rows[i]) then [TranslateRow(rows[i], prices)] else []
  {
    assert rows[..i + 1][..i] == rows[..i];
  }

  /** new_rows is the table of the kept rows, rewritten. */
  lemma {:induction false} TranslatedIsMap(rows: seq<RawSale>, prices: map<string, string>)
    ensures Translated(rows, prices) == Map(Filter(rows, Usable), Translator(prices))
  {
    if rows != [] {
      TranslatedIsMap(rows[..|rows| - 1], prices);
      MapFilterSnoc(rows, Usable, Translator(prices));
    }
  }

  /** The translated table holds exactly the lines of the kept rows, and
      every such line has an email, a product name and a positive quantity,
      with the explicit price winning over the catalogue price. */
  lemma TranslatedMember(rows: seq<RawSale>, prices: map<string, string>, l: PendingLine)
    ensures l in Translated(rows, prices) <==>
      exists r :: r in rows && Usable(r) && l == TranslateRow(r, prices)
    ensures l in Translated(rows, prices) ==>
      && l.customer.CustomerEmail? && l.customer.email != ""
      && l.product.ProductName? && l.product.name != ""
      && l.quantity > 0
  {
    TranslatedIsMap(rows, prices);
    MapMember(Filter(rows, Usable), Translator(prices), l);
    forall r | r in Filter(rows, Usable) ensures r in rows && Usable(r) {
      FilterMember(rows, Usable, r);
    }
    forall r | r in rows && Usable(r) ensures r in Filter(rows, Usable) {
      FilterMember(rows, Usable, r);
    }
  }

  /** The price rule of lines 399-401. */
  lemma TranslatedPrice(r: RawSale, prices: map<string, string>)
    requires Usable(r)
    ensures ParseCents(r.unitPrice).Some? ==>
      TranslateRow(r, prices).unitPrice == Some(FormatCents(ParseCents(r.unitPrice).value))
    ensures ParseCents(r.unitPrice).None? ==>
      TranslateRow(r, prices).unitPrice == Lookup(prices, r.productName)
    ensures TranslateRow(r, prices).quantity == SafeToInt(r.quantity, None).value
  {}

  // ---------------------------------------------------------------------
  // The numeric-id path (lines 418-457).

  /** Lines 420-423: both ids read as integers. */
  predicate IdsPresent(r: RawSale) {
    SafeToInt(r.customerId, None).Some? && SafeToInt(r.productId, None).Some?
  }

  /** Lines 427-429 and 470-473: the quantity reads as a positive integer. */
  predicate QuantityPositive(r: RawSale) {
    SafeToInt(r.quantity, None).Some? && SafeToInt(r.quantity, None).value > 0
  }

  /** The catalogue prices the merge on product_id pairs with a row. */
  function IdMatcher(products: ProductCatalogue): RawSale -> seq<string> {
    (r: RawSale) => PricesById(products, SafeToInt(r.productId, None).GetOr(0))
  }

  /** A merged row as a line: numeric ids, the quantity, and the price chosen
      by compute_unit_price_id (lines 446-453). */
  function NumericLine(m: (RawSale, Option<string>)): PendingLine {
    var r := m.0;
    PendingLine(
      r.orderId,
      r.orderDate.GetOr(""),
      CustomerNumber(SafeToInt(r.customerId, None).GetOr(0)),
      ProductNumber(SafeToInt(r.productId, None).GetOr(0)),
      SafeToInt(r.quantity, None).GetOr(0),
      UnitPrice(SafeToDecimal(r.unitPrice), m.1),
      r.status)
  }

  predicate Priced(p: PendingLine) { p.unitPrice.Some? }

  /** The rows that survive the id and quantity filters. */
  function NumericRows(rows: seq<RawSale>): seq<RawSale> {
    Filter(Filter(rows, IdsPresent), QuantityPositive)
  }

  function NumericMerged(rows: seq<RawSale>, products: ProductCatalogue): seq<(RawSale, Option<string>)> {
    LeftMerge(NumericRows(rows), IdMatcher(products))
  }

  /** The priced lines of the numeric-id path. */
  function NumericLines(rows: seq<RawSale>, products: ProductCatalogue): seq<PendingLine> {
    Filter(Map(NumericMerged(rows, products), NumericLine), Priced)
  }

  /** What the numeric-id path adds to missing_handled: every row its
      filters drop. */
  function NumericDropped(rows: seq<RawSale>, products: ProductCatalogue): nat {
    (|rows| - |NumericRows(rows)|) + (|NumericMerged(rows, products)| - |NumericLines(rows, products)|)
  }

  /** Lines 418-457: the three filters each add what they drop to
      missing_handled. */
  method NumericPath(rows: seq<RawSale>, products: ProductCatalogue) returns (lines: seq<PendingLine>, dropped: nat)
    ensures lines == NumericLines(rows, products)
    ensures dropped == NumericDropped(rows, products)
  {
    var df := Filter(rows, IdsPresent);
    dropped := |rows| - |df|;
    var before := |df|;
    df := Filter(df, QuantityPositive);
    dropped := dropped + (before - |df|);
    var merged := LeftMerge(df, IdMatcher(products));
    var priced := Map(merged, NumericLine);
    lines := Filter(priced, Priced);
    dropped := dropped + (|priced| - |lines|);
  }

  /** l is what the numeric-id path makes of row r: both ids and a positive
      quantity are read from it; the price is the row's own when float()
      accepts it, else the price of a catalogue product whose id reads as
      the same number. */
  predicate NumericLineOf(r: RawSale, products: ProductCatalogue, l: PendingLine) {
    && IdsPresent(r) && QuantityPositive(r)
    && l.customer == CustomerNumber(SafeToInt(r.customerId, None).value)
    && l.product == ProductNumber(SafeToInt(r.productId, None).value)
    && l.quantity == SafeToInt(r.quantity, None).value > 0
    && l.unitPrice.Some?
    && (ParseCents(r.unitPrice).Some? ==> l.unitPrice == SafeToDecimal(r.unitPrice))
    && (ParseCents(r.unitPrice).None? ==>
          l.unitPrice.value in PricesById(products, SafeToInt(r.productId, None).value))
  }

  /** Every line of the numeric-id path comes from one of its rows. */
  lemma NumericLineFrom(rows: seq<RawSale>, products: ProductCatalogue, l: PendingLine)
    requires l in NumericLines(rows, products)
    ensures exists r :: r in rows && NumericLineOf(r, products, l)
  {
    var merged := NumericMerged(rows, products);
    FilterMember(Map(merged, NumericLine), Priced, l);
    MapMember(merged, NumericLine, l);
    var m :| m in merged && l == NumericLine(m);
    LeftMergeMember(NumericRows(rows), IdMatcher(products), m);
    var r := m.0;
    FilterMember(Filter(rows, IdsPresent), QuantityPositive, r);
    FilterMember(rows, IdsPresent, r);
    NumericLineOfMerged(products, m);
  }

  /** A kept row, merged with a catalogue price of its id, gives a line of
      that row. */
  lemma NumericLineOfMerged(products: ProductCatalogue, m: (RawSale, Option<string>))
    requires IdsPresent(m.0) && QuantityPositive(m.0) && Priced(NumericLine(m))
    requires m.1.Some? ==> m.1.value in IdMatcher(products)(m.0)
    ensures NumericLineOf(m.0, products, NumericLine(m))
  {
    UnitPriceExplicit(m.0.unitPrice, m.1);
  }

  /** A row the numeric-id path keeps: both ids and the quantity read as
      integers, the quantity is positive, and a price comes from the row
      itself or from a catalogue product with its id. */
  predicate NumericKeeps(r: RawSale, products: ProductCatalogue) {
    && IdsPresent(r) && QuantityPositive(r)
    && (ParseCents(r.unitPrice).Some? || PricesById(products, SafeToInt(r.productId, None).value) != [])
  }

  /** A row of the input gives a numeric-id line exactly when the path
      keeps it. */
  lemma NumericLineTo(rows: seq<RawSale>, products: ProductCatalogue, r: RawSale)
    requires r in rows
    ensures (exists l :: l in NumericLines(rows, products) && NumericLineOf(r, products, l))
        <==> NumericKeeps(r, products)
  {
    if NumericKeeps(r, products) {
      var matches := IdMatcher(products)(r);
      var m := (r, if matches == [] then None else Some(matches[0]));
      var merged := NumericMerged(rows, products);
      FilterMember(rows, IdsPresent, r);
      FilterMember(Filter(rows, IdsPresent), QuantityPositive, r);
      LeftMergeCovers(NumericRows(rows), IdMatcher(products), r);
      assert m in merged;
      MapMember(merged, NumericLine, NumericLine(m));
      UnitPriceExplicit(r.unitPrice, m.1);
      FilterMember(Map(merged, NumericLine), Priced, NumericLine(m));
      NumericLineOfMerged(products, m);
    }
  }

  // ---------------------------------------------------------------------
  // The name path (lines 459-503).

  /** `fillna("").astype(str).str.strip()` on a cell. */
  function StrippedCell(c: Option<string>): string { Strip(c.GetOr("")) }

  function StripEmail(r: RawSale): RawSale { r.(customerEmail := Some(StrippedCell(r.customerEmail))) }
  function StripName(r: RawSale): RawSale { r.(productName := Some(StrippedCell(r.productName))) }
  predicate HasEmailCell(r: RawSale) { r.customerEmail != Some("") }
  predicate HasNameCell(r: RawSale) { r.productName != Some("") }

  /** The catalogue prices the merge on product_name pairs with a row. */
  function NameMatcher(products: ProductCatalogue): RawSale -> seq<string> {
    (r: RawSale) => PricesByName(products.rows, r.productName.GetOr(""))
  }

  /** A merged row as a line: email, product name, quantity, and the price
      chosen by compute_unit_price (lines 487-495). */
  function NameLine(m: (RawSale, Option<string>)): PendingLine {
    var r := m.0;
    PendingLine(
      r.orderId,
      r.orderDate.GetOr(""),
      CustomerEmail(r.customerEmail.GetOr("")),
      ProductName(r.productName.GetOr("")),
      SafeToInt(r.quantity, None).GetOr(0),
      UnitPrice(SafeToDecimal(r.unitPrice), m.1),
      r.status)
  }

  /** Lines 461-464: emails stripped, rows without one dropped. */
  function WithEmail(rows: seq<RawSale>): seq<RawSale> {
    Filter(Map(rows, StripEmail), HasEmailCell)
  }

  /** Lines 467-470: product names stripped, rows without one dropped. */
  function WithName(rows: seq<RawSale>): seq<RawSale> {
    Filter(Map(rows, StripName), HasNameCell)
  }

  /** The rows that survive the email, name and quantity filters. */
  function NameRows(rows: seq<RawSale>): seq<RawSale> {
    Filter(WithName(WithEmail(rows)), QuantityPositive)
  }

  function NameMerged(rows: seq<RawSale>, products: ProductCatalogue): seq<(RawSale, Option<string>)> {
    LeftMerge(NameRows(rows), NameMatcher(products))
  }

  /** The priced lines of the name path. */
  function NameLines(rows: seq<RawSale>, products: ProductCatalogue): seq<PendingLine> {
    Filter(Map(NameMerged(rows, products), NameLine), Priced)
  }

  /** What the name path adds to missing_handled: every row its filters
      drop. */
  function NameDropped(rows: seq<RawSale>, products: ProductCatalogue): nat {
    (|rows| - |NameRows(rows)|) + (|NameMerged(rows, products)| - |NameLines(rows, products)|)
  }

  /** Lines 459-503: the four filters each add what they drop to
      missing_handled. */
  method NamePath(rows: seq<RawSale>, products: ProductCatalogue) returns (lines: seq<PendingLine>, dropped: nat)
    ensures lines == NameLines(rows, products)
    ensures dropped == NameDropped(rows, products)
  {
    var df := Map(rows, StripEmail);
    df := Filter(df, HasEmailCell);
    dropped := |rows| - |df|;
    var before := |df|;
    df := Map(df, StripName);
    df := Filter(df, HasNameCell);
    dropped := dropped + (before - |df|);
    before := |df|;
    df := Filter(df, QuantityPositive);
    dropped := dropped + (before - |df|);
    var merged := LeftMerge(df, NameMatcher(products));
    var priced := Map(merged, NameLine);
    lines := Filter(priced, Priced);
    dropped := dropped + (|priced| - |lines|);
  }

  /** l is what the name path makes of row r: its stripped email and product
      name are not empty and its quantity is positive; the price is the
      row's own when float() accepts it, else the price of a catalogue
      product with that name. */
  predicate NameLineOf(r: RawSale, products: ProductCatalogue, l: PendingLine) {
    && StrippedCell(r.customerEmail) != "" && StrippedCell(r.productName) != "" && QuantityPositive(r)
    && l.customer == CustomerEmail(StrippedCell(r.customerEmail))
    && l.product == ProductName(StrippedCell(r.productName))
    && l.quantity == SafeToInt(r.quantity, None).value > 0
    && l.unitPrice.Some?
    && (ParseCents(r.unitPrice).Some? ==> l.unitPrice == SafeToDecimal(r.unitPrice))
    && (ParseCents(r.unitPrice).None? ==>
          l.unitPrice.value in PricesByName(products.rows, StrippedCell(r.productName)))
  }

  lemma WithEmailFrom(rows: seq<RawSale>, x: RawSale)
    requires x in WithEmail(rows)
    ensures exists r :: r in rows && x == StripEmail(r) && StrippedCell(r.customerEmail) != ""
  {
    FilterMember(Map(rows, StripEmail), HasEmailCell, x);
    MapMember(rows, StripEmail, x);
  }

  lemma WithNameFrom(rows: seq<RawSale>, x: RawSale)
    requires x in WithName(rows)
    ensures exists r :: r in rows && x == StripName(r) && StrippedCell(r.productName) != ""
  {
    FilterMember(Map(rows, StripName), HasNameCell, x);
    MapMember(rows, StripName, x);
  }

  /** x is row r with its email and product name stripped, and it passes
      the name-path filters. */
  predicate NameRowOf(r: RawSale, x: RawSale) {
    && x == StripName(StripEmail(r))
    && StrippedCell(r.customerEmail) != "" && StrippedCell(r.productName) != "" && QuantityPositive(r)
  }

  /** Every row that survives the name-path filters is a stripped row of
      the input with an email, a product name and a positive quantity. */
  lemma NameRowFrom(rows: seq<RawSale>, x: RawSale)
    requires x in NameRows(rows)
    ensures exists r :: r in rows && NameRowOf(r, x)
  {
    FilterMember(WithName(WithEmail(rows)), QuantityPositive, x);
    WithNameFrom(WithEmail(rows), x);
    var y :| y in WithEmail(rows) && x == StripName(y) && StrippedCell(y.productName) != "";
    WithEmailFrom(rows, y);
    var r :| r in rows && y == StripEmail(r) && StrippedCell(r.customerEmail) != "";
    StripIdempotent(r.customerEmail.GetOr(""));
  }

  /** Every line of the name path comes from one of its rows. */
  lemma NameLineFrom(rows: seq<RawSale>, products: ProductCatalogue, l: PendingLine)
    requires l in NameLines(rows, products)
    ensures exists r :: r in rows && NameLineOf(r, products, l)
  {
    var merged := NameMerged(rows, products);
    FilterMember(Map(merged, NameLine), Priced, l);
    MapMember(merged, NameLine, l);
    var m :| m in merged && l == NameLine(m);
    LeftMergeMember(NameRows(rows), NameMatcher(products), m);
    NameRowFrom(rows, m.0);
    var r :| r in rows && NameRowOf(r, m.0);
    UnitPriceExplicit(r.unitPrice, m.1);
    assert NameLineOf(r, products, l);
  }

  /** A row the name path keeps: its stripped email and product name are
      not empty, its quantity is positive, and a price comes from the row
      itself or from a catalogue product with that name. */
  predicate NameKeeps(r: RawSale, products: ProductCatalogue) {
    && StrippedCell(r.customerEmail) != "" && StrippedCell(r.productName) != "" && QuantityPositive(r)
    && (ParseCents(r.unitPrice).Some? || PricesByName(products.rows, StrippedCell(r.productName)) != [])
  }

  /** A stripped row with an email, a name and a positive quantity survives
      the name-path filters. */
  lemma NameRowTo(rows: seq<RawSale>, r: RawSale)
    requires r in rows
    requires StrippedCell(r.customerEmail) != "" && StrippedCell(r.productName) != "" && QuantityPositive(r)
    ensures StripName(StripEmail(r)) in NameRows(rows)
  {
    var y := StripEmail(r);
    var x := StripName(y);
    MapMember(rows, StripEmail, y);
    FilterMember(Map(rows, StripEmail), HasEmailCell, y);
    MapMember(WithEmail(rows), StripName, x);
    FilterMember(Map(WithEmail(rows), StripName), HasNameCell, x);
    FilterMember(WithName(WithEmail(rows)), QuantityPositive, x);
  }

  /** A row of the input gives a name-path line exactly when the path keeps
      it. */
  lemma NameLineTo(rows: seq<RawSale>, products: ProductCatalogue, r: RawSale)
    requires r in rows
    ensures (exists l :: l in NameLines(rows, products) && NameLineOf(r, products, l))
        <==> NameKeeps(r, products)
  {
    if NameKeeps(r, products) {
      var x := StripName(StripEmail(r));
      NameRowTo(rows, r);
      var matches := NameMatcher(products)(x);
      var m := (x, if matches == [] then None else Some(matches[0]));
      var merged := NameMerged(rows, products);
      LeftMergeCovers(NameRows(rows), NameMatcher(products), x);
      assert m in merged;
      MapMember(merged, NameLine, NameLine(m));
      UnitPriceExplicit(r.unitPrice, m.1);
      FilterMember(Map(merged, NameLine), Priced, NameLine(m));
      assert NameLineOf(r, products, NameLine(m));
    }
  }

  // ---------------------------------------------------------------------
  // Prices, subtotals and order keys (lines 505-538).

  /** normalize_price (lines 505-510): the price re-written with two
      decimals, None when float() rejects it (or there is none). */
  function NormalisePrice(p: PendingLine): PendingLine {
    p.(unitPrice := SafeToDecimal(p.unitPrice))
  }

  /** Lines 511-512: the lines whose normalised price is usable. */
  function PricedLines(pending: seq<PendingLine>): seq<PendingLine> {
    Filter(Map(pending, NormalisePrice), Priced)
  }

  /** The customer reference of a composite order key: str(customer_id) or
      the email. */
  function PartyText(c: Party): string {
    match c
    case CustomerNumber(id) => IntToString(id)
    case CustomerEmail(e) => e
  }

  /** A priced line in cents, with its subtotal (line 515) and its order key
      (lines 527-538): the stripped order id, else customer and date. */
  function ToLine(p: PendingLine): Line {
    var cents := ParseCents(p.unitPrice).GetOr(0);
    Line(OrderKey(p.orderId, PartyText(p.customer), p.orderDate),
         p.customer, p.orderDate, p.product, p.quantity, cents, p.quantity * cents, p.status)
  }

  /** Lines 521-525: the key when the table has no order id at all. */
  function CompositeLine(p: PendingLine): Line {
    var cents := ParseCents(p.unitPrice).GetOr(0);
    Line(PartyText(p.customer) + "|" + p.orderDate,
         p.customer, p.orderDate, p.product, p.quantity, cents, p.quantity * cents, p.status)
  }

  predicate NoOrderIds(ps: seq<PendingLine>) {
    forall i :: 0 <= i < |ps| ==> ps[i].orderId.None?
  }

  /** Lines 521-538: the two ways of building the key agree, so every line
      gets the key OrderKey describes. */
  method KeyLines(priced: seq<PendingLine>) returns (lines: seq<Line>)
    ensures lines == Map(priced, ToLine)
  {
    if NoOrderIds(priced) {
      lines := Map(priced, CompositeLine);
      forall i | 0 <= i < |priced| ensures CompositeLine(priced[i]) == ToLine(priced[i]) {
        CompositeIsKeyed(priced[i]);
      }
    } else {
      lines := Map(priced, ToLine);
    }
  }

  lemma CompositeIsKeyed(p: PendingLine)
    requires p.orderId.None?
    ensures CompositeLine(p) == ToLine(p)
  {
    StripNoop("");
  }

  /** Lines 505-538 after one of the paths: normalise the prices, drop the
      unusable ones, key the lines. */
  method PriceAndKey(pending: seq<PendingLine>) returns (lines: seq<Line>, dropped: nat)
    ensures lines == Map(PricedLines(pending), ToLine)
    ensures dropped == |pending| - |PricedLines(pending)|
  {
    var df := Map(pending, NormalisePrice);
    var before := |df|;
    df := Filter(df, Priced);
    dropped := before - |df|;
    lines := KeyLines(df);
  }

  /** A line whose subtotal is its quantity times its unit price. */
  predicate SoundLine(l: Line) {
    l.quantity > 0 && l.subtotalCents == l.quantity * l.unitCents
  }

  /** Every keyed line of a path that only yields positive quantities is
      sound, and its unit price is the normalised price, read back. */
  lemma PricedLinesSound(pending: seq<PendingLine>)
    requires forall p :: p in pending ==> p.quantity > 0
    ensures forall l :: l in Map(PricedLines(pending), ToLine) ==> SoundLine(l)
    ensures forall p :: p in PricedLines(pending) ==>
      p.unitPrice.Some? && p.unitPrice.value == FormatCents(ToLine(p).unitCents)
  {
    var normalised := Map(pending, NormalisePrice);
    forall p | p in PricedLines(pending)
      ensures p.quantity > 0 && p.unitPrice.Some? && p.unitPrice.value == FormatCents(ToLine(p).unitCents)
    {
      FilterMember(normalised, Priced, p);
      MapMember(pending, NormalisePrice, p);
      var q :| q in pending && p == NormalisePrice(q);
      CentsRoundTrip(ParseCents(q.unitPrice).value);
    }
    forall l | l in Map(PricedLines(pending), ToLine) ensures SoundLine(l) {
      MapMember(PricedLines(pending), ToLine, l);
    }
  }

  // ---------------------------------------------------------------------
  // Orders and order items (lines 540-586).

  /** A row of order_items: key, product, quantity, unit price, subtotal. */
  datatype Item = Item(orderKey: string, product: Goods, quantity: int, unitPrice: string, subtotal: string)

  /** Lines 576-584: the item a line gives, money written with two decimals. */
  function ItemOf(l: Line): Item {
    Item(l.orderKey, l.product, l.quantity, FormatCents(l.unitCents), FormatCents(l.subtotalCents))
  }

  /** The subtotal of an item, read back. */
  function ItemCents(it: Item): int {
    ParseCents(Some(it.subtotal)).GetOr(0)
  }

  /** A positive quantity, a unit price with two decimals, and a subtotal
      that reads back as quantity times unit price. */
  predicate ValidItem(it: Item) {
    && it.quantity > 0
    && ParseCents(Some(it.unitPrice)).Some?
    && it.unitPrice == FormatCents(ParseCents(Some(it.unitPrice)).value)
    && ParseCents(Some(it.subtotal)) == Some(it.quantity * ParseCents(Some(it.unitPrice)).value)
  }

  /** The status an order ends with (lines 570-574): stripped, and
      DEFAULT_ORDER_STATUS when nothing is left. */
  function FinalStatus(s: Option<string>): (r: string)
    ensures r != "" && Strip(r) == r
    ensures Strip(s.GetOr("")) != "" ==> r == Strip(s.GetOr(""))
  {
    var t := Strip(s.GetOr(""));
    StripIdempotent(s.GetOr(""));
    if t == "" then
      StripNoop(DefaultOrderStatus);
      DefaultOrderStatus
    else t
  }

  function WithStatus(o: Order): Order {
    o.(status := Some(FinalStatus(o.status)))
  }

  predicate StatusMissing(o: Order) { Strip(o.status.GetOr("")) == "" }

  function StripStatus(o: Order): Order { o.(status := Some(Strip(o.status.GetOr("")))) }
  predicate EmptyStatus(o: Order) { o.status == Some("") }
  function DefaultStatus(o: Order): Order {
    if EmptyStatus(o) then o.(status := Some(DefaultOrderStatus)) else o
  }

  /** Lines 570-574: strip every status, count the empty ones and give them
      the default status. */
  method DefaultStatuses(orders: seq<Order>) returns (out: seq<Order>, filled: nat)
    ensures out == Map(orders, WithStatus)
    ensures filled == Count(orders, StatusMissing)
  {
    var df := Map(orders, StripStatus);
    filled := Count(df, EmptyStatus);
    out := Map(df, DefaultStatus);
    forall o: Order ensures WithStatus(o) == DefaultStatus(StripStatus(o)) {
      StripIdempotent(o.status.GetOr(""));
    }
    MapMap(orders, StripStatus, DefaultStatus, WithStatus);
    CountMap(orders, StripStatus, EmptyStatus, StatusMissing);
  }

  /** The order table is sorted by key with one order per key, its keys are
      the items' keys, and the totals add up to the items' subtotals. */
  predicate OrdersSorted(orders: seq<Order>) {
    forall i, j :: 0 <= i < j < |orders| ==> LexLess(orders[i].orderKey, orders[j].orderKey)
  }

  function OrderKeyOf(o: Order): string { o.orderKey }
  function ItemKeyOf(it: Item): string { it.orderKey }

  predicate SameKeys(orders: seq<Order>, items: seq<Item>) {
    KeysOf(orders, OrderKeyOf) == KeysOf(items, ItemKeyOf)
  }

  predicate TotalsAgree(orders: seq<Order>, items: seq<Item>) {
    Sum(Map(orders, OrderTotalCents)) == Sum(Map(items, ItemCents))
  }

  predicate StatusesFilled(orders: seq<Order>) {
    forall o :: o in orders ==> o.status.Some? && o.status.value != "" && Strip(o.status.value) == o.status.value
  }

  lemma ItemValid(l: Line)
    requires SoundLine(l)
    ensures ValidItem(ItemOf(l))
    ensures ItemCents(ItemOf(l)) == l.subtotalCents
  {
    CentsRoundTrip(l.unitCents);
    CentsRoundTrip(l.subtotalCents);
  }

  /** Every item of sound lines is valid. */
  lemma ItemsValid(lines: seq<Line>)
    requires forall l :: l in lines ==> SoundLine(l)
    ensures forall it :: it in Map(lines, ItemOf) ==> ValidItem(it)
  {
    forall it | it in Map(lines, ItemOf) ensures ValidItem(it) {
      MapMember(lines, ItemOf, it);
      var l :| l in lines && it == ItemOf(l);
      ItemValid(l);
    }
  }

  /** One order per key, in ascending key order; setting the status keeps
      the keys. */
  lemma OrdersSortedByKey(lines: seq<Line>)
    ensures OrdersSorted(Map(GroupOrders(lines), WithStatus))
  {
    GroupOrdersKeys(lines);
  }

  /** The grouped orders and the lines have the same keys. */
  lemma GroupedKeys(lines: seq<Line>)
    ensures KeysOf(GroupOrders(lines), OrderKeyOf) == KeysOf(lines, KeyOf)
  {
    var grouped := GroupOrders(lines);
    GroupOrdersKeys(lines);
    forall k ensures k in KeysOf(grouped, OrderKeyOf) <==> k in KeysOf(lines, KeyOf) {
      KeysOfMember(grouped, OrderKeyOf, k);
    }
  }

  /** Every order has items and every item has its order. */
  lemma OrdersMatchItems(lines: seq<Line>)
    ensures SameKeys(Map(GroupOrders(lines), WithStatus), Map(lines, ItemOf))
  {
    GroupedKeys(lines);
    KeysOfMap(GroupOrders(lines), WithStatus, OrderKeyOf, OrderKeyOf);
    KeysOfMap(lines, ItemOf, KeyOf, ItemKeyOf);
  }

  /** The order totals add up to the item subtotals. */
  lemma OrderTotalsMatchItems(lines: seq<Line>)
    ensures TotalsAgree(Map(GroupOrders(lines), WithStatus), Map(lines, ItemOf))
  {
    forall x: Line | true ensures SubtotalOf(x) == ItemCents(ItemOf(x)) {
      CentsRoundTrip(x.subtotalCents);
    }
    MapMap(lines, ItemOf, ItemCents, SubtotalOf);
    MapMap(GroupOrders(lines), WithStatus, OrderTotalCents, OrderTotalCents);
    OrdersAddUp(lines);
  }

  /** Every order ends with a non-empty, stripped status. */
  lemma StatusesAreFilled(orders: seq<Order>)
    ensures StatusesFilled(Map(orders, WithStatus))
  {
    forall o | o in Map(orders, WithStatus) ensures o.status.Some? && o.status.value != "" && Strip(o.status.value) == o.status.value {
      MapMember(orders, WithStatus, o);
    }
  }

  // ---------------------------------------------------------------------
  // transform_sales as a whole.

  /** Besides a key pair, drop_duplicates (lines 350-353) and the date step
      (line 356) need these columns. */
  const DedupColumns: set<Column> := {OrderDateColumn, QuantityColumn, UnitPriceColumn}

  function Projected(table: SalesTable): seq<RawSale> {
    Map(table.rows, Projector(table.columns))
  }

  /** Lines 350-354: the first row of each key. */
  function Deduplicated(table: SalesTable, byId: bool): (r: seq<RawSale>)
    ensures |r| <= |table.rows|
  {
    KeepFirst(Projected(table), DedupKey(byId))
  }

  /** Lines 356-361: dates normalised, rows without one dropped. */
  function Dated(table: SalesTable, byId: bool, fallback: string -> Option<CalendarDate>): (r: seq<RawSale>)
    ensures |r| <= |Deduplicated(table, byId)|
  {
    Filter(Map(Deduplicated(table, byId), DateNormaliser(fallback)), HasDate)
  }

  /** Lines 348-361: the rows every path starts from. */
  method Prepare(table: SalesTable, byId: bool, fallback: string -> Option<CalendarDate>)
    returns (df: seq<RawSale>, duplicates: nat, undated: nat)
    ensures df == Dated(table, byId, fallback)
    ensures duplicates == |table.rows| - |Deduplicated(table, byId)|
    ensures undated == |Deduplicated(table, byId)| - |df|
  {
    var dedup := DropDuplicates(Map(table.rows, Projector(table.columns)), DedupKey(byId));
    df := dedup.0;
    duplicates := dedup.1;
    df := Map(df, DateNormaliser(fallback));
    var before := |df|;
    df := Filter(df, HasDate);
    undated := before - |df|;
  }

  /** After preparation no two rows share the de-duplication key and every
      row has a date in ISO form. */
  lemma PreparedRows(table: SalesTable, byId: bool, fallback: string -> Option<CalendarDate>)
    ensures DistinctKeys(Deduplicated(table, byId), DedupKey(byId))
    ensures forall r :: r in Dated(table, byId, fallback) ==> r.orderDate.Some? && IsIsoShaped(r.orderDate.value)
  {
    KeepFirstDistinct(Projected(table), DedupKey(byId), |Projected(table)|);
    var normalised := Map(Deduplicated(table, byId), DateNormaliser(fallback));
    forall r | r in Dated(table, byId, fallback) ensures r.orderDate.Some? && IsIsoShaped(r.orderDate.value) {
      FilterMember(normalised, HasDate, r);
      MapMember(Deduplicated(table, byId), DateNormaliser(fallback), r);
    }
  }

  /** Lines 374-375 and 385: codes are translated when the ids are not all
      numeric and a catalogue can translate them. */
  predicate Translates(df: seq<RawSale>, customers: CustomerCatalogue, products: ProductCatalogue) {
    && !(AllNumeric(Map(df, CustomerIdCell)) && AllNumeric(Map(df, ProductIdCell)))
    && (customers.hasId || products.hasId)
  }

  /** Lines 376-383: the ids replaced by the email and the product name they
      stand for, as far as a catalogue has an id column. */
  function Relabelled(df: seq<RawSale>, customers: CustomerCatalogue, products: ProductCatalogue): (r: seq<RawSale>)
    ensures |r| == |df|
  {
    var withEmails := if customers.hasId then Map(df, EmailTranslator(EmailById(customers.rows))) else df;
    if products.hasId then Map(withEmails, NameTranslator(NameById(products.rows))) else withEmails
  }

  /** Lines 385-416: the translated lines; missing_handled grows by every
      row processed that did not become one (duplicates and undated rows
      included). An empty table has no unit_price column to normalise. */
  function TranslationLines(processed: nat, df: seq<RawSale>, customers: CustomerCatalogue,
                            products: ProductCatalogue): Result<(seq<PendingLine>, nat), SalesError>
    requires |df| <= processed
  {
    var lines := Translated(Relabelled(df, customers, products), PriceByName(products.rows));
    if lines == [] then Err(NoTranslatedRows) else Ok((lines, processed - |lines|))
  }

  /** Lines 376-383: the two column rewrites, each when its catalogue has an
      id column. */
  method Relabel(df: seq<RawSale>, customers: CustomerCatalogue, products: ProductCatalogue)
    returns (relabelled: seq<RawSale>)
    ensures relabelled == Relabelled(df, customers, products)
  {
    relabelled := df;
    if customers.hasId {
      relabelled := Map(relabelled, EmailTranslator(EmailById(customers.rows)));
    }
    if products.hasId {
      relabelled := Map(relabelled, NameTranslator(NameById(products.rows)));
    }
  }

  /** Lines 374-416 once the codes are to be translated. */
  method TranslatePath(processed: nat, df: seq<RawSale>, customers: CustomerCatalogue, products: ProductCatalogue)
    returns (r: Result<(seq<PendingLine>, nat), SalesError>)
    requires |df| <= processed
    ensures r == TranslationLines(processed, df, customers, products)
  {
    var relabelled := Relabel(df, customers, products);
    var newRows := TranslateRows(relabelled, PriceByName(products.rows));
    if newRows == [] {
      return Err(NoTranslatedRows);
    }
    return Ok((newRows, processed - |newRows|));
  }

  /** The translation fails exactly when no relabelled row is usable. */
  lemma TranslationFails(processed: nat, df: seq<RawSale>, customers: CustomerCatalogue, products: ProductCatalogue)
    requires |df| <= processed
    ensures TranslationLines(processed, df, customers, products).Err? <==>
      forall x :: x in Relabelled(df, customers, products) ==> !Usable(x)
  {
    var rows := Relabelled(df, customers, products);
    var kept := Filter(rows, Usable);
    TranslatedIsMap(rows, PriceByName(products.rows));
    if exists x :: x in rows && Usable(x) {
      var x :| x in rows && Usable(x);
      FilterMember(rows, Usable, x);
    }
    if kept != [] {
      FilterMember(rows, Usable, kept[0]);
    }
  }

  /** The lines the path chosen at lines 363-503 yields and what it adds to
      missing_handled, or the failure of an empty translated table. */
  function PathLines(processed: nat, df: seq<RawSale>, byId: bool,
                     customers: CustomerCatalogue, products: ProductCatalogue)
    : (r: Result<(seq<PendingLine>, nat), SalesError>)
    requires |df| <= processed
    ensures r.Err? ==> byId && Translates(df, customers, products) && r.error == NoTranslatedRows
  {
    if !byId then Ok((NameLines(df, products), NameDropped(df, products)))
    else if Translates(df, customers, products) then TranslationLines(processed, df, customers, products)
    else Ok((NumericLines(df, products), NumericDropped(df, products)))
  }

  /** Lines 363-503: the numeric-id, translation or name path. */
  method ChoosePath(processed: nat, df: seq<RawSale>, byId: bool,
                    customers: CustomerCatalogue, products: ProductCatalogue)
    returns (r: Result<(seq<PendingLine>, nat), SalesError>)
    requires |df| <= processed
    ensures r == PathLines(processed, df, byId, customers, products)
  {
    if !byId {
      var lines, dropped := NamePath(df, products);
      return Ok((lines, dropped));
    }
    var numeric := AllNumeric(Map(df, CustomerIdCell)) && AllNumeric(Map(df, ProductIdCell));
    if !numeric && (customers.hasId || products.hasId) {
      r := TranslatePath(processed, df, customers, products);
      return;
    }
    var lines, dropped := NumericPath(df, products);
    return Ok((lines, dropped));
  }

  /** Every path yields positive quantities only. */
  lemma PathPositive(processed: nat, df: seq<RawSale>, byId: bool,
                     customers: CustomerCatalogue, products: ProductCatalogue)
    requires |df| <= processed
    requires PathLines(processed, df, byId, customers, products).Ok?
    ensures forall p :: p in PathLines(processed, df, byId, customers, products).value.0 ==> p.quantity > 0
  {
    var pending := PathLines(processed, df, byId, customers, products).value.0;
    forall p | p in pending ensures p.quantity > 0 {
      if !byId {
        NameLineFrom(df, products, p);
      } else if Translates(df, customers, products) {
        TranslatedMember(Relabelled(df, customers, products), PriceByName(products.rows), p);
      } else {
        NumericLineFrom(df, products, p);
      }
    }
  }

  /** The keyed lines of transform_sales and how many rows it removed as
      duplicates and as unusable on the way. */
  datatype Keyed = Keyed(lines: seq<Line>, duplicates: nat, missing: nat)

  /** Lines 328-538: the lines transform_sales keys, or why it stops. */
  function SalesLines(table: SalesTable, customers: CustomerCatalogue, products: ProductCatalogue,
                      fallback: string -> Option<CalendarDate>): (r: Result<Keyed, SalesError>)
    ensures ById(table.columns).Err? ==> r == Err(MissingKeyColumns(table.columns))
    ensures ById(table.columns).Ok? && !(DedupColumns <= table.columns) ==> r == Err(MissingDedupColumns)
    ensures r == Err(NoTranslatedRows) ==>
      ById(table.columns) == Ok(true) && (customers.hasId || products.hasId)
    ensures r.Ok? ==> ById(table.columns).Ok? && DedupColumns <= table.columns
  {
    match ById(table.columns)
    case Err(e) => Err(e)
    case Ok(byId) =>
      if !(DedupColumns <= table.columns) then Err(MissingDedupColumns)
      else
        var dedup := Deduplicated(table, byId);
        var df := Dated(table, byId, fallback);
        match PathLines(|table.rows|, df, byId, customers, products)
        case Err(e) => Err(e)
        case Ok(path) =>
          var priced := PricedLines(path.0);
          Ok(Keyed(Map(priced, ToLine), |table.rows| - |dedup|, (|dedup| - |df|) + path.1 + (|path.0| - |priced|)))
  }

  /** Every keyed line has a positive quantity and a subtotal of quantity
      times unit price. */
  lemma SalesLinesSound(table: SalesTable, customers: CustomerCatalogue, products: ProductCatalogue,
                        fallback: string -> Option<CalendarDate>)
    requires SalesLines(table, customers, products, fallback).Ok?
    ensures forall l :: l in SalesLines(table, customers, products, fallback).value.lines ==> SoundLine(l)
  {
    var byId := ById(table.columns).value;
    var df := Dated(table, byId, fallback);
    PathPositive(|table.rows|, df, byId, customers, products);
    PricedLinesSound(PathLines(|table.rows|, df, byId, customers, products).value.0);
  }

  /** What transform_sales returns: the orders table, the order_items table
      and the counters. */
  datatype SalesOutput = SalesOutput(orders: seq<Order>, items: seq<Item>, stats: Stats)

  /** transform_sales (lines 328-586). */
  method TransformSales(table: SalesTable, customers: CustomerCatalogue, products: ProductCatalogue,
                        fallback: string -> Option<CalendarDate>)
    returns (r: Result<SalesOutput, SalesError>)
    ensures r.Err? <==> SalesLines(table, customers, products, fallback).Err?
    ensures r.Err? ==> r.error == SalesLines(table, customers, products, fallback).error
    ensures r.Ok? ==>
      var keyed := SalesLines(table, customers, products, fallback).value;
      && r.value.items == Map(keyed.lines, ItemOf)
      && r.value.orders == Map(GroupOrders(keyed.lines), WithStatus)
      && r.value.stats.processed == |table.rows|
      && r.value.stats.duplicatesRemoved == keyed.duplicates
      && r.value.stats.missingHandled == keyed.missing + Count(GroupOrders(keyed.lines), StatusMissing)
    ensures r.Ok? ==> forall it :: it in r.value.items ==> ValidItem(it)
    ensures r.Ok? ==> OrdersSorted(r.value.orders) && StatusesFilled(r.value.orders)
    ensures r.Ok? ==> SameKeys(r.value.orders, r.value.items) && TotalsAgree(r.value.orders, r.value.items)
  {
    var byId := ById(table.columns);
    if byId.Err? {
      return Err(byId.error);
    }
    if !(DedupColumns <= table.columns) {
      return Err(MissingDedupColumns);
    }
    var stats := Stats(|table.rows|, 0, 0);
    var df, duplicates, undated := Prepare(table, byId.value, fallback);
    stats := stats.(duplicatesRemoved := duplicates, missingHandled := undated);

    var path := ChoosePath(|table.rows|, df, byId.value, customers, products);
    if path.Err? {
      return Err(path.error);
    }
    var pending := path.value.0;
    stats := stats.(missingHandled := stats.missingHandled + path.value.1);

    var lines, unpriced := PriceAndKey(pending);
    stats := stats.(missingHandled := stats.missingHandled + unpriced);
    ghost var keyed := SalesLines(table, customers, products, fallback).value;
    assert lines == keyed.lines;

    var orders, filled := DefaultStatuses(GroupOrders(lines));
    stats := stats.(missingHandled := stats.missingHandled + filled);
    var items := Map(lines, ItemOf);

    SalesLinesSound(table, customers, products, fallback);
    ItemsValid(lines);
    OrdersSortedByKey(lines);
    OrdersMatchItems(lines);
    OrderTotalsMatchItems(lines);
    StatusesAreFilled(GroupOrders(lines));
    r := Ok(SalesOutput(orders, items, stats));
  }
}
