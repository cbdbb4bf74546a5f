/** The product store behind the HTTP server: append a product, patch one by id,
    and take a validated order off the stocks. Each handler reads the whole list,
    changes it and writes it back; here the list is the field of an `Inventory`
    and every handler is one sequential step on it. */
module Server {
  import opened Products

  // ---------------------------------------------------------------------------
  // Partial update (PUT /api/products/:id)
  // ---------------------------------------------------------------------------

  /** The fields a request body may carry; None is a field the body leaves out. */
  datatype Patch = Patch(id: Option<int>, name: Option<string>, price: Option<int>,
                         stock: Option<int>, isVisible: Option<bool>)

  const EmptyPatch := Patch(None, None, None, None, None)

  function Pick<T>(patched: Option<T>, kept: T): T
  {
    if patched.Some? then patched.value else kept
  }

  /** `{ ...p, ...patch }`: every field the patch carries overwrites the stored one,
      every other field is kept. */
  function Merge(p: Product, patch: Patch): (r: Product)
    ensures r.id == (if patch.id.Some? then patch.id.value else p.id)
    ensures r.name == (if patch.name.Some? then patch.name.value else p.name)
    ensures r.price == (if patch.price.Some? then patch.price.value else p.price)
    ensures r.stock == (if patch.stock.Some? then patch.stock.value else p.stock)
    ensures r.isVisible == (if patch.isVisible.Some? then patch.isVisible else p.isVisible)
  {
    Product(Pick(patch.id, p.id), Pick(patch.name, p.name), Pick(patch.price, p.price),
            Pick(patch.stock, p.stock),
            if patch.isVisible.Some? then patch.isVisible else p.isVisible)
  }

  /** Two spreads in a row: the later patch wins field by field. */
  function Then(first: Patch, second: Patch): Patch
  {
    Patch(if second.id.Some? then second.id else first.id,
          if second.name.Some? then second.name else first.name,
          if second.price.Some? then second.price else first.price,
          if second.stock.Some? then second.stock else first.stock,
          if second.isVisible.Some? then second.isVisible else first.isVisible)
  }

  /** Sending the same patch twice leaves the record as the first send left it,
      an empty body changes nothing, and two successive patches act as one
      combined patch. */
  lemma MergeLaws(p: Product, a: Patch, b: Patch)
    ensures Merge(Merge(p, a), a) == Merge(p, a)
    ensures Merge(p, EmptyPatch) == p
    ensures Merge(Merge(p, a), b) == Merge(p, Then(a, b))
  {
  }

  /** The list after PUT /api/products/:id with this body: the first product
      carrying `id` is replaced by the merge; with none the list is unchanged. */
  function Updated(ps: seq<Product>, id: int, patch: Patch): seq<Product>
  {
    match FirstIndex(ps, id)
    case None => ps
    case Some(i) => ps[i := Merge(ps[i], patch)]
  }

  /** Two PUT requests on the same id, the first of which leaves the id as it
      is, act as one request with the combined body; so sending such a body
      twice is sending it once. */
  lemma {:induction false} UpdatedTwice(ps: seq<Product>, id: int, a: Patch, b: Patch)
    requires a.id.None? || a.id == Some(id)
    ensures Updated(Updated(ps, id, a), id, b) == Updated(ps, id, Then(a, b))
    ensures Updated(Updated(ps, id, a), id, a) == Updated(ps, id, a)
  {
    var once := Updated(ps, id, a);
    assert SameIds(once, ps);
    FirstIndexSameIds(once, ps, id);
    if FirstIndex(ps, id).Some? {
      MergeLaws(ps[FirstIndex(ps, id).value], a, b);
    }
  }

  /** A first body that changes the id breaks both: the second request looks up
      the old id and finds another product or none. */
  lemma IdChangeBreaksCombining()
    ensures var a := Product(5, "A", 100, 1, None);
            var b := Product(5, "B", 200, 1, None);
            var toSeven := Patch(Some(7), None, None, None, None);
            var price := Patch(None, None, Some(3), None, None);
            && Updated(Updated([a], 5, toSeven), 5, price) != Updated([a], 5, Then(toSeven, price))
            && Updated(Updated([a, b], 5, toSeven), 5, toSeven) != Updated([a, b], 5, toSeven)
  {
    var a := Product(5, "A", 100, 1, None);
    var b := Product(5, "B", 200, 1, None);
    var toSeven := Patch(Some(7), None, None, None, None);
    var price := Patch(None, None, Some(3), None, None);
    assert Updated(Updated([a], 5, toSeven), 5, price)[0].price == 100;
    assert Updated([a], 5, Then(toSeven, price))[0].price == 3;
    assert Updated(Updated([a, b], 5, toSeven), 5, toSeven)[1].id == 7;
    assert Updated([a, b], 5, toSeven)[1].id == 5;
  }

  // ---------------------------------------------------------------------------
  // Order application (POST /api/order)
  // ---------------------------------------------------------------------------

  /** One pass of the order loop: a positive quantity is taken off the stock of
      the first product carrying `id`; a non-positive quantity or an id no
      product carries changes nothing. There is no floor at zero. */
  function Decrement(ps: seq<Product>, id: int, quantity: int): seq<Product>
  {
    if quantity > 0 then
      match FirstIndex(ps, id)
      case None => ps
      case Some(i) => ps[i := ps[i].(stock := ps[i].stock - quantity)]
    else ps
  }

  /** The quantity the order takes off position i: the order's quantity for the
      product's id when it is positive and i is the first position with that id. */
  function Ordered(ps: seq<Product>, order: map<int, int>, i: nat): int
    requires i < |ps|
  {
    var id := ps[i].id;
    if id in order && order[id] > 0 && FirstIndex(ps, id) == Some(i) then order[id] else 0
  }

  /** The product list once the whole order has been applied, position by position. */
  function OrderApplied(ps: seq<Product>, order: map<int, int>): seq<Product>
  {
    seq(|ps|, i requires 0 <= i < |ps| => ps[i].(stock := ps[i].stock - Ordered(ps, order, i)))
  }

  /** Applying one more entry, after the others, is one `Decrement`: so running
      the loop over the order's keys in any order reaches `OrderApplied`. */
  lemma {:induction false} DecrementExtendsOrder(ps: seq<Product>, order: map<int, int>, id: int, quantity: int)
    requires id !in order
    ensures OrderApplied(ps, order[id := quantity]) == Decrement(OrderApplied(ps, order), id, quantity)
  {
    var before := OrderApplied(ps, order);
    var after := OrderApplied(ps, order[id := quantity]);
    assert SameIds(before, ps);
    FirstIndexSameIds(before, ps, id);
    var stepped := Decrement(before, id, quantity);
    DecrementAt(before, id, quantity);
    forall i | 0 <= i < |after|
      ensures after[i] == stepped[i]
    {
      if ps[i].id != id {
        assert Ordered(ps, order[id := quantity], i) == Ordered(ps, order, i);
      } else {
        assert Ordered(ps, order, i) == 0;
      }
    }
  }

  /** Where one pass of the loop acts: only at the first position carrying the id. */
  lemma DecrementAt(ps: seq<Product>, id: int, quantity: int)
    ensures |Decrement(ps, id, quantity)| == |ps|
    ensures forall i :: 0 <= i < |ps| ==>
      Decrement(ps, id, quantity)[i]
        == if quantity > 0 && FirstIndex(ps, id) == Some(i) then ps[i].(stock := ps[i].stock - quantity) else ps[i]
  {
  }

  /** Only stocks change: length, order, ids, names, prices and visibility stay. */
  lemma OrderOnlyChangesStock(ps: seq<Product>, order: map<int, int>)
    ensures |OrderApplied(ps, order)| == |ps|
    ensures forall i :: 0 <= i < |ps| ==>
      var p, q := ps[i], OrderApplied(ps, order)[i];
      q.id == p.id && q.name == p.name && q.price == p.price && q.isVisible == p.isVisible
  {
  }

  /** An entry with a positive quantity whose id some product carries takes
      exactly that quantity off the first such product, even below zero. */
  lemma OrderDecrementsFirstMatch(ps: seq<Product>, order: map<int, int>, id: int)
    requires id in order && order[id] > 0 && FirstIndex(ps, id).Some?
    ensures var i := FirstIndex(ps, id).value;
      OrderApplied(ps, order)[i].stock == ps[i].stock - order[id]
  {
  }

  /** A position changes only when it is the first one carrying an id that the
      order gives a positive quantity; later duplicates of an id stay as they were. */
  lemma OrderTouchesOnlyFirstMatches(ps: seq<Product>, order: map<int, int>)
    ensures forall j :: 0 <= j < |ps| && OrderApplied(ps, order)[j] != ps[j] ==>
      ps[j].id in order && order[ps[j].id] > 0 && FirstIndex(ps, ps[j].id) == Some(j)
  {
  }

  /** Entries with a non-positive quantity and entries whose id no product
      carries are skipped: dropping them gives the same list. */
  lemma {:induction false} SkippedEntries(ps: seq<Product>, order: map<int, int>, id: int)
    requires id in order && (order[id] <= 0 || FirstIndex(ps, id).None?)
    ensures OrderApplied(ps, order) == OrderApplied(ps, order - {id})
  {
    var rest := order - {id};
    assert order == rest[id := order[id]];
    DecrementExtendsOrder(ps, rest, id, order[id]);
    FirstIndexSameIds(OrderApplied(ps, rest), ps, id);
  }

  /** The store does not refuse an order larger than the stock: the stock goes negative. */
  lemma OrderMayOversell(ps: seq<Product>, order: map<int, int>, id: int)
    requires id in order && FirstIndex(ps, id).Some?
    requires order[id] > ps[FirstIndex(ps, id).value].stock
    ensures OrderApplied(ps, order)[FirstIndex(ps, id).value].stock < 0
  {
  }

  // ---------------------------------------------------------------------------
  // The store
  // ---------------------------------------------------------------------------

  class Inventory {
    var products: seq<Product>

    constructor (products: seq<Product>)
      ensures this.products == products
    {
      this.products := products;
    }

    /** POST /api/products: the body is appended as it is, with no check that
        its id or name is new, and is answered back. */
    method Add(newProduct: Product) returns (created: Product)
      modifies this
      ensures products == old(products) + [newProduct]
      ensures created == newProduct
    {
      products := products + [newProduct];
      created := newProduct;
    }

    /** PUT /api/products/:id: NotFound (None) when no product carries `id`;
        otherwise the first such product is replaced by the merge of the patch
        over it, which is answered back, and no other product changes. */
    method Update(id: int, patch: Patch) returns (r: Option<Product>)
      modifies this
      ensures FirstIndex(old(products), id).None? ==> r.None? && products == old(products)
      ensures FirstIndex(old(products), id).Some? ==>
        var i := FirstIndex(old(products), id).value;
        && products == old(products)[i := Merge(old(products)[i], patch)]
        && r == Some(Merge(old(products)[i], patch))
      ensures products == Updated(old(products), id, patch)
    {
      var productIndex := FirstIndex(products, id);
      if productIndex.None? {
        return None;
      }
      var i := productIndex.value;
      products := products[i := Merge(products[i], patch)];
      r := Some(products[i]);
    }

    /** The body of the order loop for one entry. */
    method TakeOff(productId: int, quantity: int)
      modifies this
      ensures products == Decrement(old(products), productId, quantity)
    {
      if quantity > 0 {
        var productIndex := FirstIndex(products, productId);
        if productIndex.Some? {
          var i := productIndex.value;
          products := products[i := products[i].(stock := products[i].stock - quantity)];
        }
      }
    }

    /** POST /api/order: every entry is visited once, in whatever order the keys
        come; the handler always answers success, whatever it skipped. */
    method ApplyOrder(order: map<int, int>)
      modifies this
      ensures products == OrderApplied(old(products), order)
    {
      var pending := order.Keys;
      while pending != {}
        invariant pending <= order.Keys
        invariant products == OrderApplied(old(products), order - pending)
        decreases pending
      {
        var productId := AnyKey(pending);
        var quantity := order[productId];
        ghost var done := order - pending;
        TakeOff(productId, quantity);
        pending := pending - {productId};
        assert order - pending == done[productId := quantity];
        DecrementExtendsOrder(old(products), done, productId, quantity);
      }
      assert order - pending == order;
    }
  }
}
