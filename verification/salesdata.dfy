/** The tables transform_sales reads (part1-database-etl/etl_pipeline.py):
    the raw sales rows with the columns the file actually has, and the
    cleaned customer and product catalogues with the lookups built on them. */
module SalesData {
  import opened Wrappers
  import opened Text
  import opened Seqs
  import opened Numbers
  import opened Orders
  import Customers
  import Products

  /** The sales columns transform_sales looks at, after SALES_COLUMNS renamed
      transaction_id to order_id and transaction_date to order_date. */
  datatype Column =
    | OrderIdColumn | OrderDateColumn | CustomerEmailColumn | ProductNameColumn
    | CustomerIdColumn | ProductIdColumn | QuantityColumn | UnitPriceColumn | StatusColumn

  /** A row of sales_raw.csv; every cell may be missing. */
  datatype RawSale = RawSale(
    orderId: Option<string>,
    orderDate: Option<string>,
    customerEmail: Option<string>,
    productName: Option<string>,
    customerId: Option<string>,
    productId: Option<string>,
    quantity: Option<string>,
    unitPrice: Option<string>,
    status: Option<string>)

  /** The sales file: the columns it has and its rows. */
  datatype SalesTable = SalesTable(columns: set<Column>, rows: seq<RawSale>)

  /** A row as transform_sales sees it: the cells of absent columns read as
      missing, and an absent status column as "" (r.get("status", "") on the
      translation path, and `df["status"] = ""` at line 541 otherwise). */
  function Project(columns: set<Column>, r: RawSale): RawSale {
    RawSale(
      if OrderIdColumn in columns then r.orderId else None,
      if OrderDateColumn in columns then r.orderDate else None,
      if CustomerEmailColumn in columns then r.customerEmail else None,
      if ProductNameColumn in columns then r.productName else None,
      if CustomerIdColumn in columns then r.customerId else None,
      if ProductIdColumn in columns then r.productId else None,
      if QuantityColumn in columns then r.quantity else None,
      if UnitPriceColumn in columns then r.unitPrice else None,
      if StatusColumn in columns then r.status else Some(""))
  }

  function Projector(columns: set<Column>): RawSale -> RawSale {
    (r: RawSale) => Project(columns, r)
  }

  /** The cleaned customers table, and whether it has a customer_id column
      (it keeps the columns of customers_raw.csv). */
  datatype CustomerCatalogue = CustomerCatalogue(rows: seq<Customers.Customer>, hasId: bool)

  /** The cleaned products table, and whether it has a product_id column. */
  datatype ProductCatalogue = ProductCatalogue(rows: seq<Products.Product>, hasId: bool)

  /** `set_index(k)[v].to_dict()`: a later row with the same key overwrites an
      earlier one; a missing key is left out. */
  function ToDict<T>(s: seq<T>, key: T -> Option<string>, val: T -> string): map<string, string> {
    if s == [] then map[]
    else
      var m := ToDict(s[..|s| - 1], key, val);
      var k := key(s[|s| - 1]);
      if k.Some? then m[k.value := val(s[|s| - 1])] else m
  }

  /** A key is in the dict when some row has it, and maps to the value of
      the last such row. */
  lemma {:induction false} ToDictLast<T>(s: seq<T>, key: T -> Option<string>, val: T -> string, k: string)
    ensures k in ToDict(s, key, val) <==> exists i :: 0 <= i < |s| && key(s[i]) == Some(k)
    ensures k in ToDict(s, key, val) ==>
      exists i :: 0 <= i < |s| && key(s[i]) == Some(k) && ToDict(s, key, val)[k] == val(s[i])
                  && forall j :: i < j < |s| ==> key(s[j]) != Some(k)
  {
    if s != [] {
      var init := s[..|s| - 1];
      var n := |s| - 1;
      ToDictLast(init, key, val, k);
      assert forall i :: 0 <= i < n ==> s[i] == init[i];
      if key(s[n]) != Some(k) && k in ToDict(init, key, val) {
        var i :| 0 <= i < n && key(init[i]) == Some(k) && ToDict(init, key, val)[k] == val(init[i])
                 && forall j :: i < j < n ==> key(init[j]) != Some(k);
        assert key(s[i]) == Some(k) && forall j :: i < j < |s| ==> key(s[j]) != Some(k);
      }
    }
  }

  /** `series.astype(str).map(d)`: a missing cell finds nothing. */
  function Lookup(d: map<string, string>, k: Option<string>): Option<string> {
    if k.Some? && k.value in d then Some(d[k.value]) else None
  }

  function CustomerIdOf(c: Customers.Customer): Option<string> { c.customerId }
  function EmailOf(c: Customers.Customer): string { c.email }
  function ProductIdOf(p: Products.Product): Option<string> { p.productId }
  function NameKeyOf(p: Products.Product): Option<string> { Some(p.productName) }
  function NameOf(p: Products.Product): string { p.productName }
  function PriceOf(p: Products.Product): string { p.price }

  /** cust_map: customer_id to email. */
  function EmailById(customers: seq<Customers.Customer>): map<string, string> {
    ToDict(customers, CustomerIdOf, EmailOf)
  }

  /** prod_map: product_id to product_name. */
  function NameById(products: seq<Products.Product>): map<string, string> {
    ToDict(products, ProductIdOf, NameOf)
  }

  /** prod_price_map: product_name to price. */
  function PriceByName(products: seq<Products.Product>): map<string, string> {
    ToDict(products, NameKeyOf, PriceOf)
  }

  /** `df.merge(lookup, on=..., how="left")`: every row is paired with the
      price of each catalogue row that matches it, in catalogue order, or
      with a missing price when none does. */
  function LeftMerge<T>(rows: seq<T>, matches: T -> seq<string>): (r: seq<(T, Option<string>)>)
    ensures |r| >= |rows|
  {
    if rows == [] then []
    else LeftMerge(rows[..|rows| - 1], matches) + MergeOne(rows[|rows| - 1], matches(rows[|rows| - 1]))
  }

  function MergeOne<T>(row: T, prices: seq<string>): (r: seq<(T, Option<string>)>)
    ensures |r| >= 1
    ensures forall i :: 0 <= i < |r| ==> r[i].0 == row
  {
    if prices == [] then [(row, None)]
    else Map(prices, (p: string) => (row, Some(p)))
  }

  /** With at most one match per row the merge adds the matching price as a
      column and changes nothing else. */
  lemma {:induction false} LeftMergeUnique<T>(rows: seq<T>, matches: T -> seq<string>)
    requires forall i :: 0 <= i < |rows| ==> |matches(rows[i])| <= 1
    ensures LeftMerge(rows, matches)
         == Map(rows, (r: T) => (r, if matches(r) == [] then None else Some(matches(r)[0])))
  {
    if rows != [] {
      var init := rows[..|rows| - 1];
      assert forall i :: 0 <= i < |init| ==> init[i] == rows[i];
      LeftMergeUnique(init, matches);
      var m := Map(rows, (r: T) => (r, if matches(r) == [] then None else Some(matches(r)[0])));
      assert m[..|m| - 1] == Map(init, (r: T) => (r, if matches(r) == [] then None else Some(matches(r)[0])));
    }
  }

  /** Every merged row comes from an input row. */
  lemma {:induction false} LeftMergeRows<T>(rows: seq<T>, matches: T -> seq<string>, i: nat)
    requires i < |LeftMerge(rows, matches)|
    ensures LeftMerge(rows, matches)[i].0 in rows
  {
    var init := rows[..|rows| - 1];
    var front := LeftMerge(init, matches);
    if i < |front| {
      LeftMergeRows(init, matches, i);
    } else {
      assert LeftMerge(rows, matches)[i] == MergeOne(rows[|rows| - 1], matches(rows[|rows| - 1]))[i - |front|];
    }
  }

  /** A merged row pairs an input row with one of its matches, or with a
      missing price when it has none. */
  lemma {:induction false} LeftMergeMember<T>(rows: seq<T>, matches: T -> seq<string>, m: (T, Option<string>))
    requires m in LeftMerge(rows, matches)
    ensures m.0 in rows
    ensures m.1.None? ==> matches(m.0) == []
    ensures m.1.Some? ==> m.1.value in matches(m.0)
  {
    var init := rows[..|rows| - 1];
    var last := rows[|rows| - 1];
    if m in LeftMerge(init, matches) {
      LeftMergeMember(init, matches, m);
    } else {
      var one := MergeOne(last, matches(last));
      assert m in one;
      if matches(last) != [] {
        MapMember(matches(last), (p: string) => (last, Some(p)), m);
      }
    }
  }

  /** Every input row is in the merge: paired with each of its matches, or
      with a missing price when it has none. */
  lemma {:induction false} LeftMergeCovers<T>(rows: seq<T>, matches: T -> seq<string>, r: T)
    requires r in rows
    ensures matches(r) == [] ==> (r, None) in LeftMerge(rows, matches)
    ensures forall p :: p in matches(r) ==> (r, Some(p)) in LeftMerge(rows, matches)
  {
    var init := rows[..|rows| - 1];
    var last := rows[|rows| - 1];
    assert LeftMerge(rows, matches) == LeftMerge(init, matches) + MergeOne(last, matches(last));
    if r in init {
      LeftMergeCovers(init, matches, r);
    } else {
      assert r == last;
      forall p | p in matches(r)
        ensures (r, Some(p)) in MergeOne(last, matches(last))
      {
        MapMember(matches(r), (q: string) => (r, Some(q)), (r, Some(p)));
      }
    }
  }

  /** The catalogue prices of the products with this name (the name-schema
      merge on product_name). */
  function PricesByName(products: seq<Products.Product>, name: string): seq<string> {
    Map(Filter(products, (p: Products.Product) => p.productName == name), PriceOf)
  }

  /** The catalogue prices of the products whose id reads as this number (the
      id-schema merge on product_id); none when the catalogue has no
      product_id column. */
  function PricesById(catalogue: ProductCatalogue, id: int): seq<string> {
    if catalogue.hasId
    then Map(Filter(catalogue.rows, (p: Products.Product) => SafeToInt(p.productId, None) == Some(id)), PriceOf)
    else []
  }

  /** compute_unit_price: the explicit price when the row has one, else the
      catalogue price. */
  function UnitPrice(explicit: Option<string>, catalogue: Option<string>): Option<string> {
    if explicit.None? then catalogue
    else match SafeToDecimal(explicit)
      case Some(v) => Some(v)
      case None => catalogue
  }

  /** An explicit price that float() accepts wins; the formatted explicit
      price is its own re-formatting. */
  lemma UnitPriceExplicit(raw: Option<string>, catalogue: Option<string>)
    ensures SafeToDecimal(raw).Some? ==> UnitPrice(SafeToDecimal(raw), catalogue) == SafeToDecimal(raw)
    ensures SafeToDecimal(raw).None? ==> UnitPrice(SafeToDecimal(raw), catalogue) == catalogue
  {
    SafeToDecimalIdempotent(raw);
  }

  /** A line item before its price is normalised and its order key is set. */
  datatype PendingLine = PendingLine(
    orderId: Option<string>,
    orderDate: string,
    customer: Party,
    product: Goods,
    quantity: int,
    unitPrice: Option<string>,
    status: Option<string>)
}
