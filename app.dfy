/** The stand-alone product editor: a product list kept in the page, to which the
    user adds a product, on which they save a new price and stock for a product,
    and from which they delete a product after confirming. */
module LocalEditor {
  import opened Products
  import Server

  /** The list with the first product carrying `id` given the new price and
      stock; unchanged when no product carries `id`. */
  function Saved(ps: seq<Product>, id: int, price: int, stock: int): seq<Product>
  {
    match FirstIndex(ps, id)
    case None => ps
    case Some(i) => ps[i := ps[i].(price := price, stock := stock)]
  }

  /** The list without any product carrying `id`, the others in their order. */
  function WithoutId(ps: seq<Product>, id: int): (r: seq<Product>)
    ensures |r| <= |ps|
    ensures forall p :: p in r <==> p in ps && p.id != id
  {
    if |ps| == 0 then []
    else if ps[0].id == id then WithoutId(ps[1..], id)
    else [ps[0]] + WithoutId(ps[1..], id)
  }

  /** Saving is the server's partial update with a body carrying only a price and
      a stock: the first product with the id gets them, nothing else changes. */
  lemma SaveIsPricePatch(ps: seq<Product>, id: int, price: int, stock: int)
    ensures |Saved(ps, id, price, stock)| == |ps|
    ensures FirstIndex(ps, id).None? ==> Saved(ps, id, price, stock) == ps
    ensures FirstIndex(ps, id).Some? ==>
      var i := FirstIndex(ps, id).value;
      Saved(ps, id, price, stock)
        == ps[i := Server.Merge(ps[i], Server.Patch(None, None, Some(price), Some(stock), None))]
  {
  }

  /** Saving the same values a second time changes nothing more. */
  lemma {:induction false} SaveIdempotent(ps: seq<Product>, id: int, price: int, stock: int)
    ensures Saved(Saved(ps, id, price, stock), id, price, stock) == Saved(ps, id, price, stock)
  {
    var once := Saved(ps, id, price, stock);
    assert SameIds(once, ps);
    FirstIndexSameIds(once, ps, id);
  }

  /** Deleting from two parts of the list deletes from each part. */
  lemma {:induction false} WithoutIdAppend(a: seq<Product>, b: seq<Product>, id: int)
    ensures WithoutId(a + b, id) == WithoutId(a, id) + WithoutId(b, id)
  {
    if |a| > 0 {
      var ab := a + b;
      assert ab[0] == a[0] && ab[1..] == a[1..] + b;
      WithoutIdAppend(a[1..], b, id);
      if a[0].id != id {
        assert WithoutId(ab, id) == [a[0]] + WithoutId(a[1..] + b, id);
        assert [a[0]] + (WithoutId(a[1..], id) + WithoutId(b, id))
            == ([a[0]] + WithoutId(a[1..], id)) + WithoutId(b, id);
      } else {
        assert WithoutId(ab, id) == WithoutId(a[1..] + b, id);
      }
    } else {
      assert a + b == b;
    }
  }

  /** Deleting an id twice is deleting it once. */
  lemma {:induction false} WithoutIdIdempotent(ps: seq<Product>, id: int)
    ensures WithoutId(WithoutId(ps, id), id) == WithoutId(ps, id)
  {
    if |ps| > 0 {
      WithoutIdIdempotent(ps[1..], id);
      if ps[0].id != id {
        assert ([ps[0]] + WithoutId(ps[1..], id))[1..] == WithoutId(ps[1..], id);
      }
    }
  }

  /** Deleting an id no product carries leaves the list as it was. */
  lemma {:induction false} WithoutAbsentId(ps: seq<Product>, id: int)
    requires FirstIndex(ps, id).None?
    ensures WithoutId(ps, id) == ps
  {
    if |ps| > 0 {
      assert ps[0].id != id;
      assert forall j :: 0 <= j < |ps[1..]| ==> ps[1..][j].id == ps[j + 1].id;
      WithoutAbsentId(ps[1..], id);
      assert WithoutId(ps, id) == [ps[0]] + WithoutId(ps[1..], id);
      assert ps == [ps[0]] + ps[1..];
    }
  }

  /** Deleting removes every product carrying the id, not only the first. */
  lemma DeleteRemovesEveryCopy(ps: seq<Product>, id: int)
    ensures FirstIndex(WithoutId(ps, id), id).None?
  {
  }

  class Catalogue {
    var products: seq<Product>

    constructor (products: seq<Product>)
      ensures this.products == products
    {
      this.products := products;
    }

    /** The add form: the new product, with the id the caller minted, is pushed
        at the end; it carries no visibility field. */
    method AddProduct(id: int, name: string, price: int, stock: int)
      modifies this
      ensures products == old(products) + [Product(id, name, price, stock, None)]
    {
      var newProduct := Product(id, name, price, stock, None);
      products := products + [newProduct];
    }

    /** A save button: the first product with the id takes the new price and
        stock; found tells whether there was one. */
    method Save(id: int, price: int, stock: int) returns (found: bool)
      modifies this
      ensures found <==> FirstIndex(old(products), id).Some?
      ensures products == Saved(old(products), id, price, stock)
    {
      var productIndex := FirstIndex(products, id);
      found := productIndex.Some?;
      if found {
        var i := productIndex.value;
        products := products[i := products[i].(price := price, stock := stock)];
      }
    }

    /** A delete button: when some product carries the id and the user confirms,
        every product carrying it is filtered out. */
    method Delete(id: int, confirmed: bool)
      modifies this
      ensures products == (if Find(old(products), id).Some? && confirmed
                           then WithoutId(old(products), id) else old(products))
    {
      var productToDelete := Find(products, id);
      if productToDelete.Some? && confirmed {
        products := WithoutId(products, id);
      }
    }
  }
}
