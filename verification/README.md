# Sales ETL transform layer, modelled in Dafny

This project models the transform layer of the retail ETL script
`part1-database-etl/etl_pipeline.py` (lines 151-586). The layer takes three
raw tables (customers, products, sales) and returns cleaned tables. It also
returns a `{processed, duplicates_removed, missing_handled}` counter record
for each table. It never reads a file or talks to the database.

The model has three layers, one Dafny module per concern.

- **Field normalisers.**
  - `Normalize`: `normalize_phone_to_india` and `to_title_case`.
  - `Dates`: `parse_date_to_iso`, with its five `strptime` patterns and a
    Gregorian calendar.
  - `Numbers`: `safe_to_decimal` and `safe_to_int`. Decimal text is read
    exactly, and money is kept as integer cents.
- **Entity cleaners.**
  - `Seqs.DropDuplicates`: `drop_duplicates`, keeping the first occurrence.
  - `Customers.TransformCustomers` and `Products.TransformProducts`. Each is a
    method that reassigns the table through the same filters and column
    rewrites as the script, and updates the `Report.Stats` counters in the
    same order. Each is proved equal to a one-pass specification
    (`CleanCustomers`, `CleanProducts`), and properties are proved about that
    specification.
- **The sales reconciler.**
  - `Sales.TransformSales` follows `transform_sales`:
    - schema detection;
    - deduplication on the raw key columns;
    - date normalisation;
    - one of three paths (code translation, numeric ids, or names) with
      catalogue price backfill;
    - price normalisation and subtotals;
    - order keys;
    - grouping into orders (`Orders.GroupOrders`, a pure fold);
    - default statuses.
  - The raised `KeyError`s become a `Result` error.
  - `SalesData` holds the table and catalogue types and the pandas
    merge/dict helpers.

Inputs the script takes from its environment are parameters:

- `datetime.today()` is a `today: CalendarDate` argument.
- pandas' general date parser (`pd.to_datetime`) is a `fallback` function
  argument.

## Model

| member | source | states |
|---|---|---|
| Normalize.NormalizePhone | part1-database-etl/etl_pipeline.py:151-173 | the result is "" or "+91-" followed by ten digits; a null cell gives ""; otherwise it is "+91-" plus the last ten digits of the cell's digits when there are at least ten, else "" |
| Normalize.PhoneIdempotent | part1-database-etl/etl_pipeline.py:151-173 | normalising an already normalised phone returns it unchanged |
| Normalize.PhoneTooShort | part1-database-etl/etl_pipeline.py:163-173 | fewer than ten digits gives "" |
| Normalize.PhoneTenDigits | part1-database-etl/etl_pipeline.py:163-164 | exactly ten digits get the "+91-" prefix |
| Normalize.PhoneCountryCode | part1-database-etl/etl_pipeline.py:165-166 | twelve digits starting with 91 lose the country code |
| Normalize.TitleCase | part1-database-etl/etl_pipeline.py:176-180 | null gives ""; otherwise the result is str.title() of the stripped text, character by character (upper case after a non-letter, lower case after a letter) |
| Normalize.TitleCaseIdempotent | part1-database-etl/etl_pipeline.py:176-180 | title-casing twice is the same as once |
| Normalize.TitleSameLower | part1-database-etl/etl_pipeline.py:176-180 | title-casing changes only letter case |
| Dates.ParseDateToIso | part1-database-etl/etl_pipeline.py:183-202 | null or blank gives ""; every other result is "" or zero-padded YYYY-MM-DD; when an explicit pattern matches, the result is the first match's date in ISO form |
| Dates.FirstMatchSpec | part1-database-etl/etl_pipeline.py:189-196 | the patterns are tried in order: a result exists iff some pattern matches, and it is the date of the first pattern that matches |
| Dates.StrpTimeMatches | part1-database-etl/etl_pipeline.py:189-196 | a pattern matches only when the text splits into year, month and day fields of the right widths that form a valid calendar date |
| Dates.IsoRoundTrip | part1-database-etl/etl_pipeline.py:183-196 | a valid date written as YYYY-MM-DD parses back to itself |
| Dates.ParseDateIdempotent | part1-database-etl/etl_pipeline.py:183-202 | parsing the function's own output returns it unchanged |
| Dates.DayFirstDashes | part1-database-etl/etl_pipeline.py:189-196 | DD-MM-YYYY gives the same date in ISO form ("30-12-2025" gives "2025-12-30") |
| Dates.DayFirstSlashes | part1-database-etl/etl_pipeline.py:189-196 | DD/MM/YYYY gives the same date in ISO form |
| Dates.MonthFirstDashes | part1-database-etl/etl_pipeline.py:189-196 | MM-DD-YYYY with a day above 12 reads month first ("12-30-2025" gives "2025-12-30") |
| Dates.MonthFirstAmbiguous | part1-database-etl/etl_pipeline.py:189-196 | MM-DD-YYYY with a day of 12 or less is read day first, so day and month swap |
| Dates.NoSeparatorFallsBack | part1-database-etl/etl_pipeline.py:197-202 | text with no "-" or "/" ("invalid") matches no explicit pattern and gives whatever the fallback parser gives, or "" |
| Dates.ParseDateNoMatch | part1-database-etl/etl_pipeline.py:197-202 | when no explicit pattern matches, the result is the fallback parser's date in ISO form, or "" |
| Numbers.SafeToDecimal | part1-database-etl/etl_pipeline.py:205-213 | the result is present exactly when the cell reads as a number, and is then that amount written with two decimals |
| Numbers.CentsRoundTrip | part1-database-etl/etl_pipeline.py:205-213 | a two-decimal amount reads back as the same number of cents |
| Numbers.SafeToDecimalIdempotent | part1-database-etl/etl_pipeline.py:205-213 | re-formatting a formatted price changes nothing |
| Numbers.SafeToIntDefault | part1-database-etl/etl_pipeline.py:216-223 | the default is returned when the cell does not read as a number; otherwise a number is returned |
| Numbers.IntRoundTrip | part1-database-etl/etl_pipeline.py:216-223 | safe_to_int reads back str(n) as n |
| Numbers.SafeToIntTruncates | part1-database-etl/etl_pipeline.py:216-223 | int(float(s)) truncates toward zero: an integer followed by a point and any digits reads as that integer ("2.9" gives 2, "-2.9" gives -2, "0.5" gives 0) |
| Seqs.DropDuplicates | part1-database-etl/etl_pipeline.py:226-231 | kept rows plus removed count equal the input length; the kept rows are a subsequence of the input with distinct keys and the same key set |
| Seqs.KeepFirstRows | part1-database-etl/etl_pipeline.py:226-231 | a row is kept iff it is the first row of the input with its key |
| Seqs.KeepFirstSubseq | part1-database-etl/etl_pipeline.py:226-231 | the kept rows are a subsequence of the input |
| Seqs.KeepFirstDistinct | part1-database-etl/etl_pipeline.py:226-231 | no two kept rows share a key |
| Customers.TransformCustomers | part1-database-etl/etl_pipeline.py:253-294 | the output is the one-pass cleaned table and every row is valid; processed is the input length; duplicates_removed is the number of repeated raw emails; missing_handled is the sum of required-field drops, empty phones and defaulted dates |
| Customers.StandardiseContacts | part1-database-etl/etl_pipeline.py:268-280 | every row gets a normalised phone and an ISO date (today's when unreadable); the counts are the unusable phones and dates |
| Customers.StandardiseCells | part1-database-etl/etl_pipeline.py:268-277 | every row gets its phone and date normalised; the counts are the phones and dates the normalisers gave up on |
| Customers.FillDates | part1-database-etl/etl_pipeline.py:277-280 | every empty date becomes today's date, and the count is the number of empty dates |
| Customers.DropIncomplete | part1-database-etl/etl_pipeline.py:283-287 | rows with a blank first name, last name or email are dropped and counted |
| Customers.CleanCustomersRows | part1-database-etl/etl_pipeline.py:253-294 | a customer is in the output iff it is the cleaned form of the first row with its raw email, and that row has an email, a first name and a last name |
| Customers.CleanCustomers | part1-database-etl/etl_pipeline.py:253-294 | the one-pass cleaned customer table (first row per raw email, complete rows only, cleaned) never has more rows than the input |
| Customers.CleanCustomersValid | part1-database-etl/etl_pipeline.py:263-292 | every output row has non-empty trimmed names and email, a "+91-" phone or "", and an ISO registration date |
| Customers.RequiredTogether | part1-database-etl/etl_pipeline.py:263-287 | the blank-email drop followed by the name and email drops keeps exactly the complete rows |
| Products.TransformProducts | part1-database-etl/etl_pipeline.py:297-325 | the output is the one-pass cleaned table and every row is valid; processed is the input length; duplicates_removed counts repeated raw (name, category) pairs; missing_handled counts the rows dropped for an unreadable price |
| Products.CleanProductsRows | part1-database-etl/etl_pipeline.py:297-325 | a product is in the output iff it is the cleaned form of the first row with its raw (name, category) pair, and that row has a readable price |
| Products.CleanProducts | part1-database-etl/etl_pipeline.py:297-325 | the one-pass cleaned product table (first row per raw name and category, priced rows only, cleaned) never has more rows than the input |
| Products.CleanProductsValid | part1-database-etl/etl_pipeline.py:306-323 | every output row has a trimmed name, a title-cased category and a two-decimal price that reads back as itself |
| Products.StockNeverMissing | part1-database-etl/etl_pipeline.py:315-319 | after defaulting to 0, no stock cell is missing, so the stock count adds nothing |
| SalesData.ToDictLast | part1-database-etl/etl_pipeline.py:378-388 | set_index(...).to_dict(): a key is present iff some row has it, and a repeated key maps to its last row's value |
| SalesData.LeftMergeMember | part1-database-etl/etl_pipeline.py:478-485 | every row of a left merge comes from an input row, and carries a catalogue value exactly when the catalogue matched |
| SalesData.LeftMergeCovers | part1-database-etl/etl_pipeline.py:478-485 | every input row is in a left merge: paired with each catalogue value that matches it, or with a missing value when none does |
| SalesData.LeftMergeUnique | part1-database-etl/etl_pipeline.py:437-443 | with unique catalogue keys, a left merge keeps one row per input row |
| SalesData.UnitPriceExplicit | part1-database-etl/etl_pipeline.py:487-497 | a readable explicit price wins; otherwise the catalogue price is used |
| Sales.ById | part1-database-etl/etl_pipeline.py:341-346 | an error listing the found columns iff neither the name pair nor the id pair is present; otherwise the id schema is chosen iff the id pair is present |
| Sales.Prepare | part1-database-etl/etl_pipeline.py:348-361 | keeps the first row per raw key, then drops rows whose date does not normalise; returns both counts |
| Sales.PreparedRows | part1-database-etl/etl_pipeline.py:348-361 | the deduplicated rows have distinct keys, and every surviving row has an ISO order date |
| Sales.TranslateRows | part1-database-etl/etl_pipeline.py:392-410 | the appending loop builds exactly the translated rows of the usable input rows, in order |
| Sales.TranslateOne | part1-database-etl/etl_pipeline.py:393-409 | a row is kept iff it has an email, a product name and a positive quantity, and a kept row gives its translated line |
| Sales.TranslatedIsMap | part1-database-etl/etl_pipeline.py:392-410 | the translated rows are the usable rows filtered, then translated |
| Sales.TranslatedMember | part1-database-etl/etl_pipeline.py:392-410 | a line is produced iff some usable row translates to it; every line has an email, a product name and a positive quantity |
| Sales.TranslatedPrice | part1-database-etl/etl_pipeline.py:399-401 | a readable explicit price is kept in two-decimal form; otherwise the catalogue price of the product name is used |
| Sales.Relabel | part1-database-etl/etl_pipeline.py:376-383 | the email and product name columns are replaced by the catalogue values of the ids, each only when its catalogue has an id column |
| Sales.TranslatePath | part1-database-etl/etl_pipeline.py:374-416 | the code-translation path relabels ids through the catalogues and adds processed minus the surviving rows to missing_handled |
| Sales.TranslationFails | part1-database-etl/etl_pipeline.py:411-415 | the translation path fails iff no relabelled row is usable |
| Sales.NumericPath | part1-database-etl/etl_pipeline.py:418-457 | drops rows with unreadable ids or a non-positive quantity, merges catalogue prices by id and drops unpriced rows; dropped is the sum of those drops |
| Sales.NumericLineFrom | part1-database-etl/etl_pipeline.py:418-457 | every numeric-path line comes from an input row with numeric ids and a positive quantity; its price is the explicit price, else a catalogue price of that product id |
| Sales.NumericLineTo | part1-database-etl/etl_pipeline.py:418-457 | an input row gives a numeric-path line iff both ids read as integers, the quantity is positive, and the row has a readable price or the catalogue has a price for its product id |
| Sales.NamePath | part1-database-etl/etl_pipeline.py:459-503 | strips and requires email and product name, requires a positive quantity, merges catalogue prices by name and drops unpriced rows; dropped is the sum of those drops |
| Sales.NameLineFrom | part1-database-etl/etl_pipeline.py:459-503 | every name-path line comes from an input row with an email, a name and a positive quantity; its price is the explicit price, else a catalogue price of that name |
| Sales.NameLineTo | part1-database-etl/etl_pipeline.py:459-503 | an input row gives a name-path line iff its stripped email and product name are non-empty, the quantity is positive, and the row has a readable price or the catalogue has a price for that name |
| Sales.ChoosePath | part1-database-etl/etl_pipeline.py:363-503 | runs the path the script picks: translation when ids are not all numeric and a catalogue has ids, numeric ids otherwise on the id schema, names on the name schema |
| Sales.PathPositive | part1-database-etl/etl_pipeline.py:363-503 | every line any path produces has a positive quantity |
| Sales.PriceAndKey | part1-database-etl/etl_pipeline.py:505-538 | re-formats prices, drops rows without one and counts them, then keys every row |
| Sales.KeyLines | part1-database-etl/etl_pipeline.py:521-538 | every line gets the key OrderKey describes, whichever branch the script takes |
| Sales.PricedLinesSound | part1-database-etl/etl_pipeline.py:505-517 | every kept line has a positive quantity and subtotal = quantity x unit price; its unit price is the two-decimal form of its cents |
| Orders.OrderKey | part1-database-etl/etl_pipeline.py:521-538 | the stripped order id when non-blank, else customer + "\|" + order date |
| Sales.FinalStatus | part1-database-etl/etl_pipeline.py:570-574 | the status is non-empty and stripped; it is the stripped status when that is non-blank, else "Pending" |
| Sales.DefaultStatuses | part1-database-etl/etl_pipeline.py:570-574 | every order gets its final status; the count is the number of blank statuses |
| Orders.FirstPresentSpec | part1-database-etl/etl_pipeline.py:546-567 | groupby "first" picks the first non-null value in the group, and "" counts as non-null |
| Orders.AggregateFirst | part1-database-etl/etl_pipeline.py:546-567 | an order's customer and date come from the first line with its key |
| Orders.GroupKeysMember | part1-database-etl/etl_pipeline.py:546-567 | the grouped keys are exactly the keys of the lines |
| Orders.GroupOrders | part1-database-etl/etl_pipeline.py:546-567 | groupby("order_key").agg: one order per entry of the ascending key index, each order carrying its key |
| Orders.GroupOrdersKeys | part1-database-etl/etl_pipeline.py:546-567 | one order per distinct key, in strictly ascending key order |
| Orders.OrdersAddUp | part1-database-etl/etl_pipeline.py:546-567 | the order totals add up to the sum of all line subtotals |
| Orders.OrderTotals | part1-database-etl/etl_pipeline.py:546-567 | each order's total reads back as the sum of the subtotals of its own lines |
| Orders.TotalsConserved | part1-database-etl/etl_pipeline.py:546-567 | summing per-key group totals over a key list that covers every line gives the sum of all subtotals |
| Sales.ItemsValid | part1-database-etl/etl_pipeline.py:576-586 | every order item has a positive quantity, a two-decimal unit price and a subtotal that reads back as quantity x unit price |
| Sales.OrdersMatchItems | part1-database-etl/etl_pipeline.py:544-586 | orders and items have the same set of order keys |
| Sales.OrderTotalsMatchItems | part1-database-etl/etl_pipeline.py:544-586 | the order totals add up to the items' subtotals |
| Sales.SalesLines | part1-database-etl/etl_pipeline.py:328-538 | missing key columns give the columns error; missing dedup columns give their error; no translated rows is possible only on the id schema with a catalogue id column |
| Sales.SalesLinesSound | part1-database-etl/etl_pipeline.py:328-538 | every keyed line has a positive quantity and subtotal = quantity x unit price |
| Sales.TransformSales | part1-database-etl/etl_pipeline.py:328-586 | fails exactly when the line computation fails, with its error; otherwise the items are the keyed lines, the orders are those lines grouped with final statuses, processed is the input length, and missing_handled adds the blank statuses; items are valid, orders are sorted with filled statuses, and orders and items share keys and totals |

## Left out

- Loading and storing: `extract`, `read_csv_safe`, `get_db_engine`,
  `ensure_schema`, all `load_*` and `resolve_*` functions,
  `write_quality_report`, `main` and all logging. These are file, database
  and environment I/O.
- The MongoDB scripts under `part2-nosql`: they only send queries and print.
- Binary floating point. Prices and subtotals are exact integer cents read
  from the decimal text and rounded half away from zero at the third
  decimal. The model does not reproduce:
  - the rounding of the binary value that `f"{x:.2f}"` performs. Any amount
    whose third decimal is 5 may round the other way in the script:
    "0.125" gives "0.12" there and "0.13" here; "1.005" and "2.675" give
    "1.00" and "2.67" there and "1.01" and "2.68" here. Long fractions can
    differ in the same way;
  - exponent, `inf`, `nan` and underscore literals, which float() accepts;
  - the "-0.00" that Python prints for a tiny negative amount.
- Numbers.SafeToInt: `int(float(s))` is modelled as truncating the exact
  decimal, so very large values that a float would round differ.
- Dates.ParseDateToIso: pandas' general parser (`pd.to_datetime`, lines
  197-202) is an arbitrary `fallback` parameter rather than pandas' own
  rules. So "2025/12/30" is specified only through that parameter.
- `datetime.today()` in `transform_customers` is the `today` parameter.
- Characters beyond ASCII. Title case and lower case treat only ASCII
  letters as cased, and `\D` treats only ASCII digits as digits.
- pandas' `drop_duplicates` treats two missing cells as equal. The model
  agrees (`None == None`), so nothing is lost, but pandas' NaN-versus-None
  distinctions are not modelled.
- dtype effects:
  - `astype(str)` of a float-typed id column (`"1.0"`);
  - the numeric-id merge at line 443. The sales `product_id` column has
    been converted by `safe_to_int`, while the catalogue's `product_id`
    keeps the strings it was read with (`dtype=str`, line 140). For a
    non-empty catalogue pandas refuses to merge a numeric column with a
    string column and raises `ValueError` there. The model does not raise:
    `SalesData.PricesById` matches a catalogue row whose `product_id` reads
    as the same number, which is what the script does only when the
    catalogue ids are integer-typed.

  Ids are strings throughout.
- SalesData.LeftMergeUnique states one row per input row only when
  catalogue keys are unique. With repeated keys the merge duplicates rows;
  `LeftMerge` models that duplication, but no output property is stated
  for it.
- `prod_price_map` in the translation path is always built, because the
  cleaned product catalogue always has name and price columns. The
  `None` branch at line 400 is therefore not modelled.
- Sales.TransformSales: when the translation path yields no rows, the script
  fails with a `KeyError` on the empty frame (line 511). The model returns
  `NoTranslatedRows`; it does not reproduce the message.
- Sales.TransformSales: the counters are stated through `SalesLines`, the
  functional specification of everything before grouping. The
  translation-path count is `processed` minus the surviving rows, so rows
  already counted as duplicates or bad dates are counted again, as in the
  script.
- Products.TransformProducts: the stock-default count at line 318 is
  modelled as written. `Products.StockNeverMissing` proves that it always
  adds 0.
