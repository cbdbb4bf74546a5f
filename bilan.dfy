/** The sales report page: from the sale records of a period it derives the
    number of orders, the revenue, the average order value and per-product-name
    quantity and revenue, lists each sale with its number of units, and lists
    the products by decreasing revenue with their average price.
    Money is in integer cents; averages are exact quotients. */
module Bilan {

  /** One line of a sale record. */
  datatype SaleItem = SaleItem(productId: int, productName: string, quantity: int,
                               unitPrice: int, totalPrice: int)

  /** A sale record as the sales endpoints return it (its timestamp and date are
      not used by the aggregation). */
  datatype Sale = Sale(id: int, items: seq<SaleItem>, totalAmount: int)

  /** What the report accumulates for one product name. */
  datatype Stat = Stat(quantity: int, revenue: int)

  datatype Summary = Summary(totalSales: int, totalRevenue: int, averageOrderValue: real,
                             productStats: map<string, Stat>)

  // ---------------------------------------------------------------------------
  // Orders, revenue, average
  // ---------------------------------------------------------------------------

  /** `sales.reduce((sum, sale) => sum + sale.totalAmount, 0)`. */
  function Revenue(sales: seq<Sale>): int
  {
    if |sales| == 0 then 0
    else Revenue(sales[..|sales| - 1]) + sales[|sales| - 1].totalAmount
  }

  /** Revenue is additive: the revenue of two periods together is the sum of
      their revenues. */
  lemma {:induction false} RevenueAppend(a: seq<Sale>, b: seq<Sale>)
    ensures Revenue(a + b) == Revenue(a) + Revenue(b)
    decreases |b|
  {
    if |b| > 0 {
      assert (a + b)[..|a + b| - 1] == a + b[..|b| - 1];
      RevenueAppend(a, b[..|b| - 1]);
    } else {
      assert a + b == a;
    }
  }

  /** The average order value: revenue over the number of orders, 0 without orders. */
  function AverageOrderValue(sales: seq<Sale>): (avg: real)
    ensures |sales| > 0 ==> avg * (|sales| as real) == Revenue(sales) as real
    ensures |sales| == 0 ==> avg == 0.0
  {
    if |sales| > 0 then (Revenue(sales) as real) / (|sales| as real) else 0.0
  }

  // ---------------------------------------------------------------------------
  // Units per sale
  // ---------------------------------------------------------------------------

  /** `items.reduce((sum, item) => sum + item.quantity, 0)`. */
  function ItemsQuantity(items: seq<SaleItem>): int
  {
    if |items| == 0 then 0
    else ItemsQuantity(items[..|items| - 1]) + items[|items| - 1].quantity
  }

  /** The units shown in a sale's row of the sales table. */
  function SaleQuantity(sale: Sale): int
  {
    ItemsQuantity(sale.items)
  }

  /** The sum of the units column over a list of sales. */
  function SalesQuantity(sales: seq<Sale>): int
  {
    if |sales| == 0 then 0
    else SalesQuantity(sales[..|sales| - 1]) + SaleQuantity(sales[|sales| - 1])
  }

  /** Every item of every sale, sale after sale. */
  function AllItems(sales: seq<Sale>): seq<SaleItem>
  {
    if |sales| == 0 then []
    else AllItems(sales[..|sales| - 1]) + sales[|sales| - 1].items
  }

  lemma {:induction false} ItemsQuantityAppend(a: seq<SaleItem>, b: seq<SaleItem>)
    ensures ItemsQuantity(a + b) == ItemsQuantity(a) + ItemsQuantity(b)
    decreases |b|
  {
    if |b| > 0 {
      assert (a + b)[..|a + b| - 1] == a + b[..|b| - 1];
      ItemsQuantityAppend(a, b[..|b| - 1]);
    } else {
      assert a + b == a;
    }
  }

  /** The units column of the sales table adds up to the units of all items sold. */
  lemma {:induction false} SalesQuantityCountsEveryItem(sales: seq<Sale>)
    ensures SalesQuantity(sales) == ItemsQuantity(AllItems(sales))
  {
    if |sales| > 0 {
      SalesQuantityCountsEveryItem(sales[..|sales| - 1]);
      ItemsQuantityAppend(AllItems(sales[..|sales| - 1]), sales[|sales| - 1].items);
    }
  }

  // ---------------------------------------------------------------------------
  // Per-product statistics
  // ---------------------------------------------------------------------------

  /** One pass of the inner `forEach`: the item's name gets an entry (0, 0) if
      it has none, then the item's quantity and price are added to it. */
  function Record(stats: map<string, Stat>, item: SaleItem): map<string, Stat>
  {
    var s := if item.productName in stats then stats[item.productName] else Stat(0, 0);
    stats[item.productName := Stat(s.quantity + item.quantity, s.revenue + item.totalPrice)]
  }

  /** The statistics after recording the items one after another. */
  function Tally(items: seq<SaleItem>): map<string, Stat>
  {
    if |items| == 0 then map[] else Record(Tally(items[..|items| - 1]), items[|items| - 1])
  }

  /** The names that occur in some item. */
  function Names(items: seq<SaleItem>): set<string>
  {
    set item | item in items :: item.productName
  }

  /** The units sold under a name, over all items carrying it. */
  function QuantityOf(items: seq<SaleItem>, name: string): int
  {
    if |items| == 0 then 0
    else QuantityOf(items[..|items| - 1], name)
         + (if items[|items| - 1].productName == name then items[|items| - 1].quantity else 0)
  }

  /** The revenue made under a name, over all items carrying it. */
  function RevenueOf(items: seq<SaleItem>, name: string): int
  {
    if |items| == 0 then 0
    else RevenueOf(items[..|items| - 1], name)
         + (if items[|items| - 1].productName == name then items[|items| - 1].totalPrice else 0)
  }

  /** A name no item carries has sold nothing. */
  lemma {:induction false} AbsentName(items: seq<SaleItem>, name: string)
    requires name !in Names(items)
    ensures QuantityOf(items, name) == 0 && RevenueOf(items, name) == 0
  {
    if |items| > 0 {
      var init := items[..|items| - 1];
      assert forall item :: item in init ==> item in items;
      assert Names(init) <= Names(items);
      assert items[|items| - 1] in items;
      AbsentName(init, name);
    }
  }

  lemma NamesOfLast(items: seq<SaleItem>)
    requires |items| > 0
    ensures Names(items) == Names(items[..|items| - 1]) + {items[|items| - 1].productName}
  {
    assert items == items[..|items| - 1] + [items[|items| - 1]];
  }

  /** The statistics have an entry for exactly the names that occur, and each
      entry holds the units and the revenue of every item with that name,
      whatever the product id: products sharing a name are merged. */
  lemma {:induction false} TallyCounts(items: seq<SaleItem>)
    ensures Tally(items).Keys == Names(items)
    ensures forall name :: name in Tally(items) ==>
      Tally(items)[name] == Stat(QuantityOf(items, name), RevenueOf(items, name))
  {
    if |items| > 0 {
      var init, last := items[..|items| - 1], items[|items| - 1];
      TallyCounts(init);
      NamesOfLast(items);
      var before := Tally(init);
      assert Tally(items) == Record(before, last);
      forall name | name in Tally(items)
        ensures Tally(items)[name] == Stat(QuantityOf(items, name), RevenueOf(items, name))
      {
        if name !in before {
          AbsentName(init, name);
        }
      }
    }
  }

  /** The statistics as the page builds them, with two nested loops over the sales
      and their items. */
  method ProductStats(sales: seq<Sale>) returns (stats: map<string, Stat>)
    ensures stats == Tally(AllItems(sales))
  {
    stats := map[];
    for i := 0 to |sales|
      invariant stats == Tally(AllItems(sales[..i]))
    {
      var items := sales[i].items;
      ghost var before := AllItems(sales[..i]);
      assert before + items[..0] == before;
      for j := 0 to |items|
        invariant stats == Tally(before + items[..j])
      {
        var item := items[j];
        ghost var previous := stats;
        if item.productName !in stats {
          stats := stats[item.productName := Stat(0, 0)];
        }
        var s := stats[item.productName];
        stats := stats[item.productName := Stat(s.quantity + item.quantity, s.revenue + item.totalPrice)];
        assert stats == Record(previous, item);
        TallyStep(before, items, j);
      }
      ItemsStep(sales, i);
    }
    assert sales[..|sales|] == sales;
  }

  lemma TallyStep(before: seq<SaleItem>, items: seq<SaleItem>, j: nat)
    requires j < |items|
    ensures Tally(before + items[..j + 1]) == Record(Tally(before + items[..j]), items[j])
  {
    assert (before + items[..j + 1])[..|before + items[..j + 1]| - 1] == before + items[..j];
  }

  lemma ItemsStep(sales: seq<Sale>, i: nat)
    requires i < |sales|
    ensures AllItems(sales[..i + 1]) == AllItems(sales[..i]) + sales[i].items[..|sales[i].items|]
  {
    assert sales[..i + 1][..i] == sales[..i];
    assert sales[i].items[..|sales[i].items|] == sales[i].items;
  }

  /** displayBilanFromSales: the report of a list of sales. */
  method Summarize(sales: seq<Sale>) returns (s: Summary)
    ensures s.totalSales == |sales|
    ensures s.totalRevenue == Revenue(sales)
    ensures |sales| > 0 ==> s.averageOrderValue * (|sales| as real) == Revenue(sales) as real
    ensures |sales| == 0 ==> s.averageOrderValue == 0.0
    ensures s.productStats.Keys == Names(AllItems(sales))
    ensures forall name :: name in s.productStats ==>
      s.productStats[name] == Stat(QuantityOf(AllItems(sales), name), RevenueOf(AllItems(sales), name))
  {
    var totalSales := |sales|;
    var totalRevenue := Revenue(sales);
    var averageOrderValue := AverageOrderValue(sales);
    var productStats := ProductStats(sales);
    TallyCounts(AllItems(sales));
    s := Summary(totalSales, totalRevenue, averageOrderValue, productStats);
  }

  // ---------------------------------------------------------------------------
  // The product table
  // ---------------------------------------------------------------------------

  /** One row of the product table: `[productName, stats]`. */
  datatype Row = Row(name: string, stat: Stat)

  /** Rows in non-increasing revenue order. */
  predicate ByRevenueDesc(rows: seq<Row>)
  {
    forall i, j :: 0 <= i < j < |rows| ==> rows[i].stat.revenue >= rows[j].stat.revenue
  }

  /** Places a row in front of the first row whose revenue it reaches. */
  function Insert(row: Row, rows: seq<Row>): (r: seq<Row>)
    requires ByRevenueDesc(rows)
    ensures ByRevenueDesc(r)
    ensures multiset(r) == multiset(rows) + multiset{row}
  {
    if |rows| == 0 then [row]
    else if row.stat.revenue >= rows[0].stat.revenue then
      LeadSorted(row, rows);
      [row] + rows
    else
      var rest := Insert(row, rows[1..]);
      InsertBehind(row, rows, rest);
      [rows[0]] + rest
  }

  /** When the row goes behind the head, the head stays in front of the rest. */
  lemma InsertBehind(row: Row, rows: seq<Row>, rest: seq<Row>)
    requires ByRevenueDesc(rows) && |rows| > 0 && row.stat.revenue < rows[0].stat.revenue
    requires ByRevenueDesc(rest) && multiset(rest) == multiset(rows[1..]) + multiset{row}
    ensures ByRevenueDesc([rows[0]] + rest)
    ensures multiset([rows[0]] + rest) == multiset(rows) + multiset{row}
  {
    assert rows == [rows[0]] + rows[1..];
    RevenueAtMost(rest, multiset(rows[1..]) + multiset{row}, rows[0].stat.revenue);
    LeadSorted(rows[0], rest);
  }

  /** Every row of `rows` whose rows all come from `pool` is bounded as the pool is. */
  lemma RevenueAtMost(rows: seq<Row>, pool: multiset<Row>, bound: int)
    requires multiset(rows) == pool
    requires forall x :: x in pool ==> x.stat.revenue <= bound
    ensures forall k :: 0 <= k < |rows| ==> rows[k].stat.revenue <= bound
  {
    forall k | 0 <= k < |rows| ensures rows[k].stat.revenue <= bound {
      assert rows[k] in multiset(rows);
    }
  }

  lemma LeadSorted(lead: Row, rest: seq<Row>)
    requires ByRevenueDesc(rest)
    requires forall k :: 0 <= k < |rest| ==> rest[k].stat.revenue <= lead.stat.revenue
    ensures ByRevenueDesc([lead] + rest)
  {
  }

  /** `.sort(([, a], [, b]) => b.revenue - a.revenue)`: the same rows, largest
      revenue first. */
  function SortByRevenue(rows: seq<Row>): (r: seq<Row>)
    ensures ByRevenueDesc(r)
    ensures multiset(r) == multiset(rows)
  {
    if |rows| == 0 then []
    else
      assert rows == [rows[0]] + rows[1..];
      Insert(rows[0], SortByRevenue(rows[1..]))
  }

  /** The average price of a row: revenue over units, 0 when no unit was sold. */
  function AveragePrice(stat: Stat): (avg: real)
    ensures stat.quantity > 0 ==> avg * (stat.quantity as real) == stat.revenue as real
    ensures stat.quantity <= 0 ==> avg == 0.0
  {
    if stat.quantity > 0 then (stat.revenue as real) / (stat.quantity as real) else 0.0
  }
}
