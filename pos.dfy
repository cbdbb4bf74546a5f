/** The point-of-sale terminal: the products offered for sale, the quantity
    stepper that builds the current order, the order total, the change owed
    and its breakdown into notes and coins, and the validate button.
    Money is in integer cents. */
module Pos {
  import opened Products

  // ---------------------------------------------------------------------------
  // Products offered for sale
  // ---------------------------------------------------------------------------

  /** Shown for sale: not explicitly hidden (`isVisible !== false`) and in stock. */
  predicate OnOffer(p: Product)
  {
    p.isVisible != Some(false) && p.stock > 0
  }

  /** The product list filtered down to what the terminal offers, in list order. */
  function OnSale(ps: seq<Product>): (r: seq<Product>)
    ensures |r| <= |ps|
    ensures forall p :: p in r ==> p in ps && OnOffer(p)
    ensures forall p :: p in ps && OnOffer(p) ==> p in r
  {
    if |ps| == 0 then []
    else if OnOffer(ps[0]) then [ps[0]] + OnSale(ps[1..])
    else OnSale(ps[1..])
  }

  /** The filter keeps list order: offering a concatenation offers each part in turn. */
  lemma {:induction false} OnSaleKeepsOrder(a: seq<Product>, b: seq<Product>)
    ensures OnSale(a + b) == OnSale(a) + OnSale(b)
  {
    if |a| > 0 {
      var ab := a + b;
      assert ab[0] == a[0] && ab[1..] == a[1..] + b;
      OnSaleKeepsOrder(a[1..], b);
      if OnOffer(a[0]) {
        assert OnSale(ab) == [a[0]] + OnSale(a[1..] + b);
        assert [a[0]] + (OnSale(a[1..]) + OnSale(b)) == ([a[0]] + OnSale(a[1..])) + OnSale(b);
      } else {
        assert OnSale(ab) == OnSale(a[1..] + b);
      }
    } else {
      assert a + b == b;
    }
  }

  // ---------------------------------------------------------------------------
  // The quantity stepper
  // ---------------------------------------------------------------------------

  datatype Action = Increase | Decrease

  /** `currentOrder[id] || 0`. */
  function Quantity(order: map<int, int>, id: int): int
  {
    if id in order then order[id] else 0
  }

  /** The order after a click on a product's + or - button. A click on a product
      the terminal does not know changes nothing; + counts up only below the
      stock, - counts down only above zero; a quantity of 0 removes the entry. */
  function Stepped(ps: seq<Product>, order: map<int, int>, id: int, action: Action): map<int, int>
  {
    match Find(ps, id)
    case None => order
    case Some(p) =>
      var q := Quantity(order, id);
      var next := if action == Increase && q < p.stock then q + 1
                  else if action == Decrease && q > 0 then q - 1
                  else q;
      if next == 0 then order - {id} else order[id := next]
  }

  /** No entry of the order holds a zero or a negative quantity. */
  predicate AllPositive(order: map<int, int>)
  {
    forall id :: id in order ==> order[id] > 0
  }

  /** Every entry names a product the terminal knows and asks for at least one
      and at most its stock. */
  predicate WithinStock(ps: seq<Product>, order: map<int, int>)
  {
    forall id :: id in order ==>
      Find(ps, id).Some? && 0 < order[id] <= Find(ps, id).value.stock
  }

  /** What one click does: only the clicked product's entry may change; it goes
      up by one exactly when + is clicked below the stock, down by one exactly
      when - is clicked above zero, and it is present exactly when non-zero. */
  lemma StepEffect(ps: seq<Product>, order: map<int, int>, id: int, action: Action)
    requires AllPositive(order)
    ensures var r := Stepped(ps, order, id, action);
      && (forall k :: k != id ==> (k in r <==> k in order) && (k in r ==> r[k] == order[k]))
      && (Find(ps, id).None? ==> r == order)
      && (Find(ps, id).Some? ==>
            var q, stock := Quantity(order, id), Find(ps, id).value.stock;
            && Quantity(r, id) == (if action == Increase && q < stock then q + 1
                                   else if action == Decrease && q > 0 then q - 1 else q)
            && (id in r <==> Quantity(r, id) != 0))
  {
  }

  /** Clicks never put a zero (or negative) entry into an order that had none. */
  lemma StepKeepsPositive(ps: seq<Product>, order: map<int, int>, id: int, action: Action)
    requires AllPositive(order)
    ensures AllPositive(Stepped(ps, order, id, action))
  {
  }

  /** A quantity that starts between 0 and the stock stays there. */
  lemma StepKeepsWithinStock(ps: seq<Product>, order: map<int, int>, id: int, action: Action)
    requires WithinStock(ps, order)
    ensures WithinStock(ps, Stepped(ps, order, id, action))
  {
  }

  /** - undoes a + that was accepted, and + undoes a - that was accepted on an
      order within stock. */
  lemma StepUndo(ps: seq<Product>, order: map<int, int>, id: int)
    requires WithinStock(ps, order)
    ensures Find(ps, id).Some? && Quantity(order, id) < Find(ps, id).value.stock ==>
      Stepped(ps, Stepped(ps, order, id, Increase), id, Decrease) == order
    ensures Quantity(order, id) > 0 ==>
      Stepped(ps, Stepped(ps, order, id, Decrease), id, Increase) == order
  {
    if Find(ps, id).Some? && Quantity(order, id) < Find(ps, id).value.stock {
      var up := Stepped(ps, order, id, Increase);
      if id !in order {
        assert up - {id} == order;
      } else {
        assert up[id := order[id]] == order;
      }
    }
    if Quantity(order, id) > 0 {
      var down := Stepped(ps, order, id, Decrease);
      if order[id] == 1 {
        assert down[id := 1] == order;
      } else {
        assert down[id := order[id]] == order;
      }
    }
  }

  // ---------------------------------------------------------------------------
  // The order total
  // ---------------------------------------------------------------------------

  /** What one entry adds to the total: price times quantity when the quantity
      is positive and the product is still in the list, otherwise nothing. */
  function LineTotal(ps: seq<Product>, order: map<int, int>, id: int): int
  {
    if id in order && order[id] > 0 then
      match Find(ps, id)
      case None => 0
      case Some(p) => p.price * order[id]
    else 0
  }

  /** The sum of the lines of the given keys, in no particular order. */
  ghost function SumLines(ps: seq<Product>, order: map<int, int>, keys: set<int>): int
    decreases keys
  {
    if keys == {} then 0
    else
      HasSomeKey(keys);
      var k :| k in keys;
      LineTotal(ps, order, k) + SumLines(ps, order, keys - {k})
  }

  /** The total of the whole order. */
  ghost function Total(ps: seq<Product>, order: map<int, int>): int
  {
    SumLines(ps, order, order.Keys)
  }

  /** Any key can be taken out first: the sum does not depend on visiting order. */
  lemma {:induction false} SumLinesRemove(ps: seq<Product>, order: map<int, int>, keys: set<int>, k: int)
    requires k in keys
    ensures SumLines(ps, order, keys) == LineTotal(ps, order, k) + SumLines(ps, order, keys - {k})
    decreases keys
  {
    HasSomeKey(keys);
    var j :| j in keys && SumLines(ps, order, keys) == LineTotal(ps, order, j) + SumLines(ps, order, keys - {j});
    if j != k {
      SumLinesRemove(ps, order, keys - {j}, k);
      SumLinesRemove(ps, order, keys - {k}, j);
      assert keys - {j} - {k} == keys - {k} - {j};
    }
  }

  /** The sum over keys reads the order only at those keys. */
  lemma {:induction false} SumLinesFrame(ps: seq<Product>, a: map<int, int>, b: map<int, int>, keys: set<int>)
    requires forall k :: k in keys ==> LineTotal(ps, a, k) == LineTotal(ps, b, k)
    ensures SumLines(ps, a, keys) == SumLines(ps, b, keys)
    decreases keys
  {
    if keys != {} {
      HasSomeKey(keys);
      var k :| k in keys;
      SumLinesRemove(ps, a, keys, k);
      SumLinesRemove(ps, b, keys, k);
      SumLinesFrame(ps, a, b, keys - {k});
    }
  }

  /** The total splits into one entry's line and the lines of all the others,
      whether or not the order holds that entry. */
  lemma TotalSplit(ps: seq<Product>, order: map<int, int>, id: int)
    ensures Total(ps, order) == LineTotal(ps, order, id) + SumLines(ps, order, order.Keys - {id})
  {
    if id in order {
      SumLinesRemove(ps, order, order.Keys, id);
    } else {
      assert order.Keys - {id} == order.Keys;
    }
  }

  /** Entries whose product has left the list, and entries with a quantity of
      zero or less, do not count towards the total. */
  lemma TotalSkipsEmptyLines(ps: seq<Product>, order: map<int, int>, id: int)
    requires id in order && (order[id] <= 0 || Find(ps, id).None?)
    ensures Total(ps, order) == Total(ps, order - {id})
  {
    var rest := order - {id};
    SumLinesRemove(ps, order, order.Keys, id);
    assert order.Keys - {id} == rest.Keys;
    SumLinesFrame(ps, order, rest, rest.Keys);
  }

  /** With prices of zero or more the total is never negative. */
  lemma {:induction false} SumLinesNonNegative(ps: seq<Product>, order: map<int, int>, keys: set<int>)
    requires forall p :: p in ps ==> p.price >= 0
    ensures SumLines(ps, order, keys) >= 0
    decreases keys
  {
    if keys != {} {
      HasSomeKey(keys);
      var k :| k in keys;
      SumLinesRemove(ps, order, keys, k);
      SumLinesNonNegative(ps, order, keys - {k});
      if k in order && order[k] > 0 && Find(ps, k).Some? {
        var p := Find(ps, k).value;
        assert p in ps;
      }
    }
  }

  /** A click moves the total by the clicked product's price times the change
      in its quantity: one price up for an accepted +, one price down for an
      accepted -, nothing otherwise. */
  lemma StepChangesTotal(ps: seq<Product>, order: map<int, int>, id: int, action: Action)
    requires AllPositive(order)
    ensures var r := Stepped(ps, order, id, action);
      Find(ps, id).Some? ==>
        Total(ps, r) == Total(ps, order) + Find(ps, id).value.price * (Quantity(r, id) - Quantity(order, id))
  {
    var r := Stepped(ps, order, id, action);
    if Find(ps, id).Some? {
      var price := Find(ps, id).value.price;
      StepKeepsOtherLines(ps, order, id, action);
      SumLinesFrame(ps, order, r, order.Keys - {id});
      StepKeepsPositive(ps, order, id, action);
      PositiveLine(ps, order, id);
      PositiveLine(ps, r, id);
      TotalSplit(ps, order, id);
      TotalSplit(ps, r, id);
      Distribute(price, Quantity(r, id), Quantity(order, id));
    }
  }

  /** A click leaves the set of other entries and each of their lines as they were. */
  lemma StepKeepsOtherLines(ps: seq<Product>, order: map<int, int>, id: int, action: Action)
    ensures var r := Stepped(ps, order, id, action);
      && r.Keys - {id} == order.Keys - {id}
      && forall k :: k in order.Keys - {id} ==> LineTotal(ps, r, k) == LineTotal(ps, order, k)
  {
    var r := Stepped(ps, order, id, action);
    assert r.Keys - {id} == order.Keys - {id};
  }

  /** In an order without zero entries, a known product's line is its price
      times its quantity. */
  lemma PositiveLine(ps: seq<Product>, order: map<int, int>, id: int)
    requires AllPositive(order) && Find(ps, id).Some?
    ensures LineTotal(ps, order, id) == Find(ps, id).value.price * Quantity(order, id)
  {
  }

  lemma Distribute(price: int, after: int, before: int)
    ensures price * (after - before) == price * after - price * before
  {
  }

  // ---------------------------------------------------------------------------
  // Change owed and its breakdown
  // ---------------------------------------------------------------------------

  /** Notes and coins, largest first, in cents (50 euros down to 1 cent). */
  const Denominations: seq<int> := [5000, 2000, 1000, 500, 200, 100, 50, 20, 10, 5, 2, 1]

  /** A list of denominations the greedy breakdown can use: positive, strictly
      decreasing, and ending with the unit so that every amount can be given. */
  predicate CoinSystem(ds: seq<int>)
  {
    && |ds| > 0 && ds[|ds| - 1] == 1
    && (forall i :: 0 <= i < |ds| ==> ds[i] > 0)
    && (forall i, j :: 0 <= i < j < |ds| ==> ds[i] > ds[j])
  }

  lemma DenominationsAreACoinSystem()
    ensures CoinSystem(Denominations)
  {
  }

  /** One listed line of the breakdown: `count × denomination`. */
  datatype ChangeLine = ChangeLine(count: int, denomination: int)

  /** The value of the first n denominations of `ds` taken `counts` times each. */
  function PrefixValue(ds: seq<int>, counts: seq<int>, n: nat): int
    requires n <= |counts| <= |ds|
  {
    if n == 0 then 0 else PrefixValue(ds, counts, n - 1) + counts[n - 1] * ds[n - 1]
  }

  /** The value of listed lines. */
  function LinesValue(lines: seq<ChangeLine>): int
  {
    if |lines| == 0 then 0
    else LinesValue(lines[..|lines| - 1]) + lines[|lines| - 1].count * lines[|lines| - 1].denomination
  }

  /** `counts` is the greedy breakdown of `cents` over `ds`: one count per
      denomination, adding up to `cents`, and after each denomination what is
      left to give is at least zero and less than that denomination. */
  predicate Greedy(ds: seq<int>, cents: int, counts: seq<int>)
  {
    && |counts| == |ds|
    && (forall i :: 0 <= i < |counts| ==> counts[i] >= 0)
    && PrefixValue(ds, counts, |counts|) == cents
    && (forall i :: 0 <= i < |counts| ==> 0 <= cents - PrefixValue(ds, counts, i + 1) < ds[i])
  }

  /** The lines shown for the first n counts: one per positive count, in order. */
  function Listed(ds: seq<int>, counts: seq<int>, n: nat): seq<ChangeLine>
    requires n <= |counts| <= |ds|
  {
    if n == 0 then []
    else if counts[n - 1] > 0 then Listed(ds, counts, n - 1) + [ChangeLine(counts[n - 1], ds[n - 1])]
    else Listed(ds, counts, n - 1)
  }

  /** Only positive counts are listed, each with its own denomination. */
  lemma {:induction false} ListedPositive(ds: seq<int>, counts: seq<int>, n: nat)
    requires n <= |counts| <= |ds|
    ensures forall line :: line in Listed(ds, counts, n) ==>
      line.count > 0 && exists i :: 0 <= i < n && line == ChangeLine(counts[i], ds[i])
  {
    if n > 0 {
      ListedPositive(ds, counts, n - 1);
    }
  }

  /** Every positive count is listed. */
  lemma {:induction false} ListedComplete(ds: seq<int>, counts: seq<int>, n: nat)
    requires n <= |counts| <= |ds|
    ensures forall i :: 0 <= i < n && counts[i] > 0 ==> ChangeLine(counts[i], ds[i]) in Listed(ds, counts, n)
  {
    if n > 0 {
      ListedComplete(ds, counts, n - 1);
    }
  }

  /** The listed denominations come largest first, each larger than ds[n - 1]
      except possibly the last one, which is at least ds[n - 1]. */
  lemma {:induction false} ListedLargestFirst(ds: seq<int>, counts: seq<int>, n: nat)
    requires n <= |counts| <= |ds| && CoinSystem(ds)
    ensures forall j, k :: 0 <= j < k < |Listed(ds, counts, n)| ==>
      Listed(ds, counts, n)[j].denomination > Listed(ds, counts, n)[k].denomination
    ensures forall j :: 0 <= j < |Listed(ds, counts, n)| ==>
      n > 0 && Listed(ds, counts, n)[j].denomination >= ds[n - 1]
  {
    if n > 0 {
      ListedLargestFirst(ds, counts, n - 1);
      var earlier := Listed(ds, counts, n - 1);
      if |earlier| > 0 {
        forall j | 0 <= j < |earlier|
          ensures earlier[j].denomination > ds[n - 1]
        {
          assert earlier[j].denomination >= ds[n - 2];
        }
      }
      if counts[n - 1] > 0 {
        var lines := earlier + [ChangeLine(counts[n - 1], ds[n - 1])];
        assert Listed(ds, counts, n) == lines;
        assert forall j :: 0 <= j < |earlier| ==> lines[j] == earlier[j];
      } else {
        assert Listed(ds, counts, n) == earlier;
      }
    } else {
      assert Listed(ds, counts, n) == [];
    }
  }

  /** The listed lines add up to the value of the counts: leaving out the zero
      counts loses nothing. */
  lemma {:induction false} ListedValue(ds: seq<int>, counts: seq<int>, n: nat)
    requires n <= |counts| <= |ds|
    requires forall i :: 0 <= i < |counts| ==> counts[i] >= 0
    ensures LinesValue(Listed(ds, counts, n)) == PrefixValue(ds, counts, n)
  {
    if n > 0 {
      ListedValue(ds, counts, n - 1);
      var earlier, line := Listed(ds, counts, n - 1), ChangeLine(counts[n - 1], ds[n - 1]);
      if counts[n - 1] > 0 {
        var lines := earlier + [line];
        assert lines[..|lines| - 1] == earlier;
      } else {
        assert counts[n - 1] * ds[n - 1] == 0;
      }
    }
  }

  /** Extending the counts leaves the value of a prefix alone. */
  lemma {:induction false} PrefixValueStable(ds: seq<int>, counts: seq<int>, x: int, n: nat)
    requires n <= |counts| < |ds|
    ensures PrefixValue(ds, counts + [x], n) == PrefixValue(ds, counts, n)
  {
    if n > 0 {
      PrefixValueStable(ds, counts, x, n - 1);
    }
  }

  /** Extending the counts leaves the lines of a prefix alone. */
  lemma {:induction false} ListedStable(ds: seq<int>, counts: seq<int>, x: int, n: nat)
    requires n <= |counts| < |ds|
    ensures Listed(ds, counts + [x], n) == Listed(ds, counts, n)
  {
    if n > 0 {
      ListedStable(ds, counts, x, n - 1);
    }
  }

  /** Division leaves one quotient: two counts that both leave a remainder
      in [0, d) are the same count. */
  lemma QuotientUnique(r: int, d: int, x: int, y: int)
    requires d > 0
    requires 0 <= r - x * d < d && 0 <= r - y * d < d
    ensures x == y
  {
    if x < y {
      MultipleAtLeast(y - x, d);
    } else if y < x {
      MultipleAtLeast(x - y, d);
    }
  }

  lemma MultipleAtLeast(k: int, d: int)
    requires k >= 1 && d > 0
    ensures k * d >= d
  {
    assert k * d == (k - 1) * d + d;
  }

  /** The greedy breakdown of an amount is unique: any breakdown that adds up
      and leaves less than each denomination after it is the one listed. */
  lemma GreedyUnique(ds: seq<int>, cents: int, a: seq<int>, b: seq<int>)
    requires CoinSystem(ds)
    requires Greedy(ds, cents, a) && Greedy(ds, cents, b)
    ensures a == b
  {
    var i := 0;
    while i < |a|
      invariant 0 <= i <= |a|
      invariant a[..i] == b[..i]
      invariant PrefixValue(ds, a, i) == PrefixValue(ds, b, i)
    {
      var rest := cents - PrefixValue(ds, a, i);
      assert cents - PrefixValue(ds, a, i + 1) == rest - a[i] * ds[i];
      assert cents - PrefixValue(ds, b, i + 1) == rest - b[i] * ds[i];
      QuotientUnique(rest, ds[i], a[i], b[i]);
      assert a[..i + 1] == a[..i] + [a[i]] && b[..i + 1] == b[..i] + [b[i]];
      i := i + 1;
    }
    assert a == a[..|a|] && b == b[..|b|];
  }

  /** The loop's invariant after the first |counts| denominations: the counts
      so far and what is left add up to `cents`, and each step left less than
      its denomination. */
  predicate GreedySoFar(ds: seq<int>, cents: int, counts: seq<int>, remaining: int)
  {
    && |counts| <= |ds|
    && (forall j :: 0 <= j < |counts| ==> counts[j] >= 0)
    && remaining == cents - PrefixValue(ds, counts, |counts|) && remaining >= 0
    && (forall j :: 0 <= j < |counts| ==> 0 <= cents - PrefixValue(ds, counts, j + 1) < ds[j])
  }

  /** One greedy step: as many of the next denomination as fit, taken off what
      is left when there is at least one. */
  lemma GreedyStep(ds: seq<int>, cents: int, counts: seq<int>, remaining: int, count: int)
    requires CoinSystem(ds)
    requires GreedySoFar(ds, cents, counts, remaining) && |counts| < |ds|
    requires count == remaining / ds[|counts|]
    ensures GreedySoFar(ds, cents, counts + [count],
                        if count > 0 then remaining - count * ds[|counts|] else remaining)
  {
    var d := ds[|counts|];
    var next := counts + [count];
    DivisionFacts(remaining, d);
    forall j | 0 <= j <= |counts|
      ensures PrefixValue(ds, next, j) == PrefixValue(ds, counts, j)
    {
      PrefixValueStable(ds, counts, count, j);
    }
    assert PrefixValue(ds, next, |next|) == PrefixValue(ds, counts, |counts|) + count * d;
  }

  /** One step of the listing: the new count is listed at the end when positive. */
  lemma ListedStep(ds: seq<int>, counts: seq<int>, count: int)
    requires |counts| < |ds|
    ensures Listed(ds, counts + [count], |counts| + 1)
      == if count > 0 then Listed(ds, counts, |counts|) + [ChangeLine(count, ds[|counts|])]
         else Listed(ds, counts, |counts|)
  {
    ListedStable(ds, counts, count, |counts|);
  }

  lemma DivisionFacts(r: int, d: int)
    requires r >= 0 && d > 0
    ensures r / d >= 0 && 0 <= r - r / d * d < d
  {
  }

  /** Once every denomination is processed nothing is left, since the last one
      is the unit: the invariant is then the greedy breakdown. */
  lemma GreedyDone(ds: seq<int>, cents: int, counts: seq<int>, remaining: int)
    requires CoinSystem(ds)
    requires GreedySoFar(ds, cents, counts, remaining) && |counts| == |ds|
    ensures Greedy(ds, cents, counts)
  {
    var n := |counts|;
    assert 0 <= cents - PrefixValue(ds, counts, n) < ds[n - 1] == 1;
  }

  /** The greedy breakdown over any coin system: for each denomination, largest
      first, as many as fit in what is left; only the denominations used are
      listed, and what is left goes down only when some are used. */
  method GreedyBreakdown(ds: seq<int>, cents: nat) returns (counts: seq<int>, lines: seq<ChangeLine>)
    requires CoinSystem(ds)
    ensures Greedy(ds, cents, counts)
    ensures lines == Listed(ds, counts, |counts|)
    ensures LinesValue(lines) == cents
  {
    counts, lines := [], [];
    var remaining := cents;
    var i := 0;
    while i < |ds|
      invariant 0 <= i <= |ds| && |counts| == i
      invariant GreedySoFar(ds, cents, counts, remaining)
      invariant lines == Listed(ds, counts, i)
    {
      var denomCents := ds[i];
      var count := remaining / denomCents;
      ghost var counts0, remaining0, lines0 := counts, remaining, lines;
      if count > 0 {
        lines := lines + [ChangeLine(count, denomCents)];
        remaining := remaining - count * denomCents;
      }
      counts := counts + [count];
      assert GreedySoFar(ds, cents, counts, remaining) by {
        GreedyStep(ds, cents, counts0, remaining0, count);
      }
      assert lines == Listed(ds, counts, i + 1) by {
        ListedStep(ds, counts0, count);
      }
      i := i + 1;
    }
    GreedyDone(ds, cents, counts, remaining);
    ListedValue(ds, counts, |counts|);
  }

  /** renderChangeDetail: the breakdown over the euro notes and coins. */
  method ChangeBreakdown(cents: nat) returns (counts: seq<int>, lines: seq<ChangeLine>)
    ensures Greedy(Denominations, cents, counts)
    ensures lines == Listed(Denominations, counts, |counts|)
    ensures LinesValue(lines) == cents
  {
    DenominationsAreACoinSystem();
    counts, lines := GreedyBreakdown(Denominations, cents);
  }

  /** calculateChange: the change shown is what was given minus the total when
      that covers it, otherwise 0 with no breakdown; the breakdown lists
      denominations that add up to the change shown. */
  method CalculateChange(total: int, given: int) returns (change: int, counts: seq<int>, lines: seq<ChangeLine>)
    ensures change >= 0
    ensures given >= total ==> total + change == given && Greedy(Denominations, change, counts)
                               && lines == Listed(Denominations, counts, |counts|)
                               && LinesValue(lines) == change
    ensures given < total ==> change == 0 && lines == []
  {
    if given >= total {
      change := given - total;
      counts, lines := ChangeBreakdown(change);
    } else {
      change, counts, lines := 0, [], [];
    }
  }

  // ---------------------------------------------------------------------------
  // The terminal
  // ---------------------------------------------------------------------------

  class Terminal {
    var products: seq<Product>
    var currentOrder: map<int, int>

    /** The terminal's invariant: the current order never holds an entry of zero
        or less, because a click that reaches 0 deletes the entry. */
    predicate Valid()
      reads this
    {
      AllPositive(currentOrder)
    }

    constructor ()
      ensures Valid()
      ensures products == [] && currentOrder == map[]
    {
      products, currentOrder := [], map[];
    }

    /** The products-updated notification: the list is replaced; the order is
        kept as it is, even for products that have left or shrunk. */
    method ProductsUpdated(updated: seq<Product>)
      requires Valid()
      modifies this
      ensures Valid()
      ensures products == updated && currentOrder == old(currentOrder)
    {
      products := updated;
    }

    /** A click on a + or - button of the product `id`. */
    method Click(id: int, action: Action)
      requires Valid()
      modifies this
      ensures Valid()
      ensures products == old(products)
      ensures currentOrder == Stepped(old(products), old(currentOrder), id, action)
    {
      var product := Find(products, id);
      if product.None? {
        return;
      }
      var currentQuantity := Quantity(currentOrder, id);
      if action == Increase && currentQuantity < product.value.stock {
        currentQuantity := currentQuantity + 1;
      } else if action == Decrease && currentQuantity > 0 {
        currentQuantity := currentQuantity - 1;
      }
      if currentQuantity == 0 {
        currentOrder := currentOrder - {id};
      } else {
        currentOrder := currentOrder[id := currentQuantity];
      }
    }

    /** The total shown in the order summary. */
    method OrderTotal() returns (total: int)
      ensures total == Total(products, currentOrder)
    {
      total := 0;
      var pending := currentOrder.Keys;
      while pending != {}
        invariant pending <= currentOrder.Keys
        invariant total == SumLines(products, currentOrder, currentOrder.Keys - pending)
        decreases pending
      {
        var productId := AnyKey(pending);
        ghost var done := currentOrder.Keys - pending;
        var quantity := currentOrder[productId];
        if quantity > 0 {
          var product := Find(products, productId);
          if product.Some? {
            total := total + product.value.price * quantity;
          }
        }
        pending := pending - {productId};
        SumLinesRemove(products, currentOrder, currentOrder.Keys - pending, productId);
        assert currentOrder.Keys - pending - {productId} == done;
      }
      assert currentOrder.Keys - pending == currentOrder.Keys;
    }

    /** The validate button: an empty order is refused and kept; otherwise the
        order is sent (None: refused, Some: what is sent) and the terminal
        starts a new, empty one. */
    method Validate() returns (sent: Option<map<int, int>>)
      requires Valid()
      modifies this
      ensures Valid()
      ensures products == old(products)
      ensures old(currentOrder) == map[] ==> sent == None && currentOrder == old(currentOrder)
      ensures old(currentOrder) != map[] ==> sent == Some(old(currentOrder)) && currentOrder == map[]
    {
      if |currentOrder| == 0 {
        return None;
      }
      sent := Some(currentOrder);
      currentOrder := map[];
    }
  }
}
