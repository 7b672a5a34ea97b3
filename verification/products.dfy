/** transform_products (part1-database-etl/etl_pipeline.py): de-duplicate on
    name and category, title-case the category, re-format the price and drop
    rows without one, default a missing stock to 0, trim. */
module Products {
  import opened Wrappers
  import opened Text
  import opened Seqs
  import opened Normalize
  import opened Numbers
  import opened Report

  /** DEFAULT_STOCK. */
  const DefaultStock: int := 0

  /** A row of products_raw.csv; every cell may be missing. */
  datatype RawProduct = RawProduct(
    productId: Option<string>,
    productName: Option<string>,
    category: Option<string>,
    price: Option<string>,
    stockQuantity: Option<string>)

  /** A cleaned row, ready for the products table; the price is the text
      written with two decimals. */
  datatype Product = Product(
    productId: Option<string>,
    productName: string,
    category: string,
    price: string,
    stockQuantity: int)

  /** The de-duplication key: name and category exactly as read. */
  function NameAndCategory(r: RawProduct): (Option<string>, Option<string>) {
    (r.productName, r.category)
  }

  /** The rows whose price float() accepts. */
  predicate HasPrice(r: RawProduct) { ParseCents(r.price).Some? }

  /** What transform_products makes of a row it keeps. */
  function Clean(r: RawProduct): Product {
    Product(
      r.productId,
      Strip(r.productName.GetOr("")),
      TitleCase(r.category),
      SafeToDecimal(r.price).GetOr(""),
      SafeToInt(r.stockQuantity, Some(DefaultStock)).GetOr(DefaultStock))
  }

  /** The table transform_products returns, in one pass: the first row of
      each name and category, those with a price, cleaned. */
  function CleanProducts(rows: seq<RawProduct>): (r: seq<Product>)
    ensures |r| <= |rows|
  {
    Map(Filter(KeepFirst(rows, NameAndCategory), HasPrice), Clean)
  }

  /** A row fit for the products table: trimmed name, title-cased category,
      a price that reads back as the amount it was written from. */
  predicate ValidProduct(p: Product) {
    && Strip(p.productName) == p.productName
    && Strip(p.category) == p.category
    && TitleCase(Some(p.category)) == p.category
    && ParseCents(Some(p.price)).Some?
    && FormatCents(ParseCents(Some(p.price)).value) == p.price
  }

  // The steps of transform_products, one column rewrite at a time.

  function TitleCategory(r: RawProduct): RawProduct {
    r.(category := Some(TitleCase(r.category)))
  }

  function FormatPrice(r: RawProduct): RawProduct {
    r.(price := SafeToDecimal(r.price))
  }

  predicate PriceKept(r: RawProduct) { r.price.Some? }

  /** The stock cells that safe_to_int(x, default=DEFAULT_STOCK) leaves
      missing. */
  predicate StockMissing(r: RawProduct) {
    SafeToInt(r.stockQuantity, Some(DefaultStock)).None?
  }

  function Trim(r: RawProduct): Product {
    Product(
      r.productId,
      Strip(r.productName.GetOr("")),
      Strip(r.category.GetOr("")),
      r.price.GetOr(""),
      SafeToInt(r.stockQuantity, Some(DefaultStock)).GetOr(DefaultStock))
  }

  /** transform_products, step by step as the script does it. */
  method TransformProducts(rows: seq<RawProduct>) returns (out: seq<Product>, stats: Stats)
    ensures out == CleanProducts(rows)
    ensures forall i :: 0 <= i < |out| ==> ValidProduct(out[i])
    ensures stats.processed == |rows|
    ensures stats.duplicatesRemoved == |rows| - |KeepFirst(rows, NameAndCategory)|
    ensures stats.missingHandled
         == |KeepFirst(rows, NameAndCategory)| - |Filter(KeepFirst(rows, NameAndCategory), HasPrice)|
  {
    stats := Stats(|rows|, 0, 0);

    var dedup := DropDuplicates(rows, NameAndCategory);
    var df := dedup.0;
    stats := stats.(duplicatesRemoved := stats.duplicatesRemoved + dedup.1);
    ghost var kept := df;

    df := Map(df, TitleCategory);
    df := Map(df, FormatPrice);
    var before := |df|;
    df := Filter(df, PriceKept);
    stats := stats.(missingHandled := stats.missingHandled + (before - |df|));

    var stockMissing := Count(df, StockMissing);
    stats := stats.(missingHandled := stats.missingHandled + stockMissing);

    out := Map(df, Trim);
    ProductSteps(kept);
    StockNeverMissing(df);
    CleanProductsValid(rows);
  }

  /** The column rewrites, the price mask and the final trim are the one-pass
      cleaning: the rewrites do not touch the price the mask reads, except
      to re-format it, which keeps exactly the readable ones. */
  lemma ProductSteps(kept: seq<RawProduct>)
    ensures Map(Filter(Map(Map(kept, TitleCategory), FormatPrice), PriceKept), Trim)
         == Map(Filter(kept, HasPrice), Clean)
  {
    RewriteFacts();
    MapMap(kept, TitleCategory, FormatPrice, Rewrite);
    FilterMap(kept, Rewrite, PriceKept, HasPrice);
    MapMap(Filter(kept, HasPrice), Rewrite, Trim, Clean);
  }

  /** Lines 307 and 310 together. */
  function Rewrite(r: RawProduct): RawProduct {
    FormatPrice(TitleCategory(r))
  }

  /** The re-formatted price is present exactly when the raw one reads as a
      number, and trimming a rewritten row is cleaning the raw one. */
  lemma RewriteFacts()
    ensures forall x :: Rewrite(x) == FormatPrice(TitleCategory(x))
    ensures forall x :: PriceKept(Rewrite(x)) == HasPrice(x)
    ensures forall x :: Clean(x) == Trim(Rewrite(x))
  {
    forall x ensures Clean(x) == Trim(Rewrite(x)) {
      CleanIsTrim(x);
    }
  }

  /** Trimming a rewritten row is cleaning the raw one. */
  lemma CleanIsTrim(x: RawProduct)
    ensures Clean(x) == Trim(FormatPrice(TitleCategory(x)))
  {
    CategoryStripped(x.category);
  }

  /** A title-cased category has no white space to trim. */
  lemma CategoryStripped(raw: Option<string>)
    ensures Strip(TitleCase(raw)) == TitleCase(raw)
  {
    if raw.Some? {
      StripIdempotent(raw.value);
      TitleKeepsStripped(TitleCase(raw), Strip(raw.value));
    }
  }

  /** safe_to_int with a default never gives a missing value, so the stock
      counter of transform_products always adds 0. */
  lemma {:induction false} StockNeverMissing(rows: seq<RawProduct>)
    ensures Count(rows, StockMissing) == 0
  {
    if rows != [] {
      StockNeverMissing(rows[..|rows| - 1]);
    }
  }

  /** Every row of the cleaned table is fit for the products table. */
  lemma CleanProductsValid(rows: seq<RawProduct>)
    ensures forall i :: 0 <= i < |CleanProducts(rows)| ==> ValidProduct(CleanProducts(rows)[i])
  {
    var priced := Filter(KeepFirst(rows, NameAndCategory), HasPrice);
    forall i | 0 <= i < |priced| ensures ValidProduct(Clean(priced[i])) {
      CleanValid(priced[i]);
    }
  }

  lemma CleanValid(r: RawProduct)
    requires HasPrice(r)
    ensures ValidProduct(Clean(r))
  {
    var p := Clean(r);
    CategoryStripped(r.category);
    TitleCaseIdempotent(r.category);
    StripIdempotent(r.productName.GetOr(""));
    CentsRoundTrip(ParseCents(r.price).value);
  }

  /** The cleaned table holds exactly the cleaned priced rows that are the
      first of their name and category. */
  lemma CleanProductsRows(rows: seq<RawProduct>, p: Product)
    ensures p in CleanProducts(rows) <==>
      exists i :: 0 <= i < |rows| && IsFirst(rows, NameAndCategory, i) && HasPrice(rows[i])
                  && p == Clean(rows[i])
  {
    KeepFirstFilterMap(rows, NameAndCategory, HasPrice, Clean, p);
  }
}
