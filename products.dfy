/** The product record shared by the server, the point-of-sale terminal and the
    local product editor, and the "first product with this id" lookup they all use. */
module Products {

  datatype Option<T> = None | Some(value: T)

  /** A product as stored in the product list. Money is in integer cents.
      `isVisible` is None when the record carries no such field. */
  datatype Product = Product(id: int, name: string, price: int, stock: int, isVisible: Option<bool>)

  /** The position of the first product carrying `id`, with None standing for
      -1: `products.findIndex(p => p.id === productId)` in the update handler
      (server.js:67), and the same with `==` in the order loop (server.js:91).
      On integer ids the two comparisons agree. */
  function FirstIndex(ps: seq<Product>, id: int): (r: Option<nat>)
    ensures r.Some? ==> r.value < |ps| && ps[r.value].id == id
    ensures r.Some? ==> forall j :: 0 <= j < r.value ==> ps[j].id != id
    ensures r.None? <==> forall j :: 0 <= j < |ps| ==> ps[j].id != id
  {
    if |ps| == 0 then None
    else if ps[0].id == id then Some(0)
    else match FirstIndex(ps[1..], id)
      case None => None
      case Some(i) => Some(i + 1)
  }

  /** `products.find(p => p.id == id)`. */
  function Find(ps: seq<Product>, id: int): Option<Product>
  {
    match FirstIndex(ps, id)
    case None => None
    case Some(i) => Some(ps[i])
  }

  /** Two product lists with the same ids in the same positions. */
  predicate SameIds(a: seq<Product>, b: seq<Product>)
  {
    |a| == |b| && forall i :: 0 <= i < |a| ==> a[i].id == b[i].id
  }

  /** The lookup reads only the ids, so it agrees on lists that differ elsewhere. */
  lemma {:induction false} FirstIndexSameIds(a: seq<Product>, b: seq<Product>, id: int)
    requires SameIds(a, b)
    ensures FirstIndex(a, id) == FirstIndex(b, id)
  {
    if |a| > 0 && a[0].id != id {
      assert SameIds(a[1..], b[1..]);
      FirstIndexSameIds(a[1..], b[1..], id);
    }
  }

  /** Some key of a non-empty key set: the next key a `for…in` loop visits. */
  method AnyKey(keys: set<int>) returns (k: int)
    requires keys != {}
    ensures k in keys
  {
    HasSomeKey(keys);
    k :| k in keys;
  }

  /** A non-empty set has an element. The verifier does not derive this from
      `keys != {}` alone: only once the case "no x is in keys" is spelled out
      does set extensionality turn it into `keys == {}` and rule it out. */
  lemma HasSomeKey(keys: set<int>)
    requires keys != {}
    ensures exists k :: k in keys
  {
    if forall x :: x !in keys {
      assert false;
    }
  }

}
