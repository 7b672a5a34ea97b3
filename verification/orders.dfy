/** The order grouping at the end of transform_sales
    (part1-database-etl/etl_pipeline.py): every priced line item carries an
    order key; pandas' groupby lists the keys in ascending order and builds
    one order per key, with the first customer, date and status of the group
    and the sum of its subtotals. */
module Orders {
  import opened Wrappers
  import opened Text
  import opened Seqs
  import opened Numbers

  /** DEFAULT_ORDER_STATUS. */
  const DefaultOrderStatus: string := "Pending"

  /** Who placed the order: a numeric customer id (id schema) or an email. */
  datatype Party = CustomerNumber(id: int) | CustomerEmail(email: string)

  /** What was ordered: a numeric product id (id schema) or a product name. */
  datatype Goods = ProductNumber(id: int) | ProductName(name: string)

  /** A priced line item, with the order-level cells it carries; money is in
      cents. */
  datatype Line = Line(
    orderKey: string,
    customer: Party,
    orderDate: string,
    product: Goods,
    quantity: int,
    unitCents: int,
    subtotalCents: int,
    status: Option<string>)

  /** A row of the orders table as groupby builds it; the total is written
      with two decimals. */
  datatype Order = Order(
    orderKey: string,
    customer: Party,
    orderDate: string,
    total: string,
    status: Option<string>)

  function KeyOf(l: Line): string { l.orderKey }

  function SubtotalOf(l: Line): int { l.subtotalCents }

  function StatusOf(l: Line): Option<string> { l.status }

  /** The order key of a line: the trimmed order id when there is one,
      otherwise the customer reference, "|" and the order date. */
  function OrderKey(orderId: Option<string>, customer: string, orderDate: string): (k: string)
    ensures Strip(orderId.GetOr("")) != "" ==> k == Strip(orderId.GetOr(""))
    ensures Strip(orderId.GetOr("")) == "" ==> k == customer + "|" + orderDate
  {
    var id := Strip(orderId.GetOr(""));
    if id != "" then id else customer + "|" + orderDate
  }

  /** No two keys are equal and they go up in Python's string order. */
  predicate Ascending(keys: seq<string>) {
    forall i, j :: 0 <= i < j < |keys| ==> LexLess(keys[i], keys[j])
  }

  /** One step of building the sorted key list: k goes in its place, once. */
  function Insert(keys: seq<string>, k: string): (r: seq<string>)
    requires Ascending(keys)
    ensures Ascending(r)
    ensures forall x :: x in r <==> x in keys || x == k
  {
    if keys == [] then [k]
    else if keys[0] == k then keys
    else if LexLess(k, keys[0]) then
      var r := [k] + keys;
      forall i, j | 0 <= i < j < |r| ensures LexLess(r[i], r[j]) {
        if i == 0 && j > 1 { LexLessTransitive(k, keys[0], keys[j - 1]); }
      }
      r
    else
      LexLessTotal(k, keys[0]);
      var rest := Insert(keys[1..], k);
      assert forall x :: x in keys[1..] ==> LexLess(keys[0], x);
      [keys[0]] + rest
  }

  /** groupby's key index: the distinct keys of the lines, in ascending
      order. */
  function GroupKeys(lines: seq<Line>): (keys: seq<string>)
    ensures Ascending(keys)
  {
    if lines == [] then [] else Insert(GroupKeys(lines[..|lines| - 1]), lines[|lines| - 1].orderKey)
  }

  /** The lines of one order, in their original order. */
  function Group(lines: seq<Line>, k: string): seq<Line> {
    Filter(lines, (l: Line) => l.orderKey == k)
  }

  /** The "first" aggregation: the first value of the group that is not
      missing. */
  function FirstPresent(s: seq<Option<string>>): Option<string> {
    if s == [] then None
    else if s[0].Some? then s[0]
    else FirstPresent(s[1..])
  }

  /** "first" finds a value exactly when the group has one, and it is the
      value of the earliest line that has one. */
  lemma {:induction false} FirstPresentSpec(s: seq<Option<string>>)
    ensures FirstPresent(s).Some? <==> exists i :: 0 <= i < |s| && s[i].Some?
    ensures FirstPresent(s).Some? ==>
      exists i :: 0 <= i < |s| && s[i] == FirstPresent(s) && forall j :: 0 <= j < i ==> s[j].None?
  {
    if s != [] && s[0].None? {
      var t := s[1..];
      FirstPresentSpec(t);
      assert forall i :: 0 < i < |s| ==> s[i] == t[i - 1];
      if FirstPresent(t).Some? {
        var i :| 0 <= i < |t| && t[i] == FirstPresent(t) && forall j :: 0 <= j < i ==> t[j].None?;
        assert s[i + 1] == FirstPresent(s);
      }
    }
  }

  /** The order groupby builds for key k. The customer and date cells are
      never missing, so "first" takes them from the first line. */
  function Aggregate(lines: seq<Line>, k: string): (o: Order)
    requires k in KeysOf(lines, KeyOf)
    ensures o.orderKey == k
  {
    var group := Group(lines, k);
    GroupNonEmpty(lines, k);
    Order(
      k,
      group[0].customer,
      group[0].orderDate,
      FormatCents(Sum(Map(group, SubtotalOf))),
      FirstPresent(Map(group, StatusOf)))
  }

  /** An order takes its customer and date from the first line with its
      key. */
  lemma AggregateFirst(lines: seq<Line>, k: string)
    requires k in KeysOf(lines, KeyOf)
    ensures exists i :: 0 <= i < |lines| && lines[i].orderKey == k
                        && (forall j :: 0 <= j < i ==> lines[j].orderKey != k)
                        && Aggregate(lines, k).customer == lines[i].customer
                        && Aggregate(lines, k).orderDate == lines[i].orderDate
  {
    GroupNonEmpty(lines, k);
    FilterFirst(lines, (l: Line) => l.orderKey == k);
  }

  lemma GroupNonEmpty(lines: seq<Line>, k: string)
    requires k in KeysOf(lines, KeyOf)
    ensures Group(lines, k) != []
  {
    KeysOfMember(lines, KeyOf, k);
    var i :| 0 <= i < |lines| && KeyOf(lines[i]) == k;
    FilterMember(lines, (l: Line) => l.orderKey == k, lines[i]);
  }

  /** df.groupby("order_key").agg(...): one order per key, keys ascending. */
  function GroupOrders(lines: seq<Line>): (orders: seq<Order>)
    ensures |orders| == |GroupKeys(lines)|
    ensures forall i :: 0 <= i < |orders| ==> orders[i].orderKey == GroupKeys(lines)[i]
  {
    var keys := GroupKeys(lines);
    GroupKeysMember(lines);
    seq(|keys|, i requires 0 <= i < |keys| => Aggregate(lines, keys[i]))
  }

  /** The key index holds exactly the keys of the lines. */
  lemma {:induction false} GroupKeysMember(lines: seq<Line>)
    ensures forall k :: k in GroupKeys(lines) <==> k in KeysOf(lines, KeyOf)
  {
    if lines != [] {
      GroupKeysMember(lines[..|lines| - 1]);
    }
  }

  /** The orders come in ascending key order, one per key, and their keys
      are exactly the keys of the lines: the keys partition the items. */
  lemma GroupOrdersKeys(lines: seq<Line>)
    ensures forall i :: 0 <= i < |GroupOrders(lines)| ==>
      GroupOrders(lines)[i].orderKey == GroupKeys(lines)[i]
    ensures forall i, j :: 0 <= i < j < |GroupOrders(lines)| ==>
      LexLess(GroupOrders(lines)[i].orderKey, GroupOrders(lines)[j].orderKey)
    ensures forall k :: k in KeysOf(lines, KeyOf) <==>
      exists i :: 0 <= i < |GroupOrders(lines)| && GroupOrders(lines)[i].orderKey == k
  {
    var orders := GroupOrders(lines);
    var keys := GroupKeys(lines);
    GroupKeysMember(lines);
    forall k ensures k in KeysOf(lines, KeyOf) <==> exists i :: 0 <= i < |orders| && orders[i].orderKey == k {
      if k in KeysOf(lines, KeyOf) {
        var i :| 0 <= i < |keys| && keys[i] == k;
        assert orders[i].orderKey == k;
      }
    }
  }

  /** The sum of the subtotals of the order with key k, in cents. */
  function GroupTotal(lines: seq<Line>, k: string): int {
    Sum(Map(Group(lines, k), SubtotalOf))
  }

  function GroupTotals(lines: seq<Line>, keys: seq<string>): (r: seq<int>)
    ensures |r| == |keys|
  {
    if keys == [] then []
    else GroupTotals(lines, keys[..|keys| - 1]) + [GroupTotal(lines, keys[|keys| - 1])]
  }

  function OrderTotalCents(o: Order): int {
    ParseCents(Some(o.total)).GetOr(0)
  }

  /** Each order's total reads back as the sum of its lines' subtotals. */
  lemma OrderTotals(lines: seq<Line>)
    ensures Map(GroupOrders(lines), OrderTotalCents) == GroupTotals(lines, GroupKeys(lines))
  {
    var orders := GroupOrders(lines);
    var keys := GroupKeys(lines);
    GroupKeysMember(lines);
    forall i | 0 <= i < |keys|
      ensures OrderTotalCents(orders[i]) == GroupTotals(lines, keys)[i]
    {
      CentsRoundTrip(GroupTotal(lines, keys[i]));
      GroupTotalsAt(lines, keys, i);
    }
  }

  lemma {:induction false} GroupTotalsAt(lines: seq<Line>, keys: seq<string>, i: nat)
    requires i < |keys|
    ensures GroupTotals(lines, keys)[i] == GroupTotal(lines, keys[i])
  {
    if i < |keys| - 1 {
      GroupTotalsAt(lines, keys[..|keys| - 1], i);
    }
  }

  /** A new line adds its subtotal to the total of its own key only. */
  lemma GroupTotalSnoc(lines: seq<Line>, l: Line, k: string)
    ensures GroupTotal(lines + [l], k)
         == GroupTotal(lines, k) + (if l.orderKey == k then l.subtotalCents else 0)
  {
    var all := lines + [l];
    assert all[..|all| - 1] == lines;
    var g := Group(all, k);
    if l.orderKey == k {
      assert g == Group(lines, k) + [l];
      assert Map(g, SubtotalOf)[..|g| - 1] == Map(Group(lines, k), SubtotalOf);
    } else {
      assert g == Group(lines, k);
    }
  }

  lemma {:induction false} TotalsSnoc(lines: seq<Line>, l: Line, keys: seq<string>)
    requires Ascending(keys)
    ensures Sum(GroupTotals(lines + [l], keys))
         == Sum(GroupTotals(lines, keys)) + (if l.orderKey in keys then l.subtotalCents else 0)
  {
    if keys != [] {
      var init := keys[..|keys| - 1];
      var last := keys[|keys| - 1];
      TotalsSnoc(lines, l, init);
      GroupTotalSnoc(lines, l, last);
      if l.orderKey == last && l.orderKey in init {
        var i :| 0 <= i < |init| && init[i] == last;
        assert LexLess(keys[i], keys[|keys| - 1]);
        LexLessIrreflexive(last);
      }
      assert keys == init + [last];
    }
  }

  lemma {:induction false} TotalsOfNothing(keys: seq<string>)
    ensures Sum(GroupTotals([], keys)) == 0
  {
    if keys != [] {
      TotalsOfNothing(keys[..|keys| - 1]);
    }
  }

  /** Summing per key over a list of distinct keys that covers every line
      adds up all the subtotals once. */
  lemma {:induction false} TotalsConserved(lines: seq<Line>, keys: seq<string>)
    requires Ascending(keys)
    requires forall i :: 0 <= i < |lines| ==> lines[i].orderKey in keys
    ensures Sum(GroupTotals(lines, keys)) == Sum(Map(lines, SubtotalOf))
  {
    if lines == [] {
      TotalsOfNothing(keys);
    } else {
      var init := lines[..|lines| - 1];
      var l := lines[|lines| - 1];
      assert forall i :: 0 <= i < |init| ==> init[i] == lines[i];
      TotalsConserved(init, keys);
      TotalsSnoc(init, l, keys);
      SnocLast(lines);
      SumMapSnoc(lines, SubtotalOf);
    }
  }

  /** The order totals add up to the sum of all item subtotals. */
  lemma OrdersAddUp(lines: seq<Line>)
    ensures Sum(Map(GroupOrders(lines), OrderTotalCents)) == Sum(Map(lines, SubtotalOf))
  {
    OrderTotals(lines);
    GroupKeysMember(lines);
    forall i | 0 <= i < |lines| ensures lines[i].orderKey in GroupKeys(lines) {
      KeysOfMember(lines, KeyOf, lines[i].orderKey);
    }
    TotalsConserved(lines, GroupKeys(lines));
  }
}
