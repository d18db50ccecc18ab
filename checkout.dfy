/**
 * The amount `/checkout` charges: over every cart entry with a positive
 * quantity whose product exists, the product's current price times the
 * quantity. The loop visits the keys in some order; the specification below
 * is the same sum over the key set in any order.
 */
module Checkout {
  import opened JsValues
  import opened Cart
  import opened Catalog

  /** The catalog price of an item, or 0 when no product has that id. */
  function UnitPrice(catalog: seq<Product>, item: ItemId): int {
    match FindProduct(catalog, item)
    case Some(p) => p.newPrice
    case None => 0
  }

  /** What one entry contributes: price times quantity when the quantity is positive, else nothing. */
  function LineTotal(catalog: seq<Product>, quantity: int, item: ItemId): int {
    if quantity > 0 then UnitPrice(catalog, item) * quantity else 0
  }

  lemma NonEmptyHasKey(keys: set<ItemId>)
    requires |keys| > 0
    ensures exists k :: k in keys
  {
    if forall k :: k !in keys {
      assert false;
    }
  }

  /** Some key of a non-empty key set: the next key the sum takes. */
  ghost function PickKey(keys: set<ItemId>): (k: ItemId)
    requires |keys| > 0
    ensures k in keys
  {
    NonEmptyHasKey(keys);
    var k :| k in keys;
    k
  }

  /** The sum of the entries' contributions over a set of the cart's keys. */
  ghost function SumOver(catalog: seq<Product>, cart: Cart, keys: set<ItemId>): int
    requires keys <= cart.Keys
    decreases keys
  {
    if |keys| == 0 then 0
    else
      var k := PickKey(keys);
      LineTotal(catalog, cart[k], k) + SumOver(catalog, cart, keys - {k})
  }

  /** The checkout total of a cart against a catalog. */
  ghost function CartTotal(catalog: seq<Product>, cart: Cart): int {
    SumOver(catalog, cart, cart.Keys)
  }

  /** Any key can be taken out of the sum first: the total does not depend on the visiting order. */
  lemma {:induction false} SumOverPick(catalog: seq<Product>, cart: Cart, keys: set<ItemId>, k: ItemId)
    requires keys <= cart.Keys && k in keys
    ensures SumOver(catalog, cart, keys) == LineTotal(catalog, cart[k], k) + SumOver(catalog, cart, keys - {k})
    decreases keys
  {
    var j := PickKey(keys);
    if j != k {
      var rest := keys - {j} - {k};
      assert SumOver(catalog, cart, keys - {j}) == LineTotal(catalog, cart[k], k) + SumOver(catalog, cart, rest) by {
        SumOverPick(catalog, cart, keys - {j}, k);
      }
      assert SumOver(catalog, cart, keys - {k}) == LineTotal(catalog, cart[j], j) + SumOver(catalog, cart, rest) by {
        SumOverPick(catalog, cart, keys - {k}, j);
        assert keys - {k} - {j} == rest;
      }
    }
  }

  /** Two carts that agree on a set of keys have the same sum over it. */
  lemma {:induction false} SumOverAgree(catalog: seq<Product>, a: Cart, b: Cart, keys: set<ItemId>)
    requires keys <= a.Keys && keys <= b.Keys
    requires forall k :: k in keys ==> a[k] == b[k]
    ensures SumOver(catalog, a, keys) == SumOver(catalog, b, keys)
    decreases keys
  {
    if |keys| > 0 {
      var k := PickKey(keys);
      SumOverPick(catalog, a, keys, k);
      SumOverPick(catalog, b, keys, k);
      SumOverAgree(catalog, a, b, keys - {k});
    }
  }

  /** Entries whose quantity is not positive add nothing. */
  lemma {:induction false} SumOverNoPositive(catalog: seq<Product>, cart: Cart, keys: set<ItemId>)
    requires keys <= cart.Keys
    requires forall k :: k in keys ==> cart[k] <= 0
    ensures SumOver(catalog, cart, keys) == 0
    decreases keys
  {
    if |keys| > 0 {
      var k := PickKey(keys);
      SumOverPick(catalog, cart, keys, k);
      SumOverNoPositive(catalog, cart, keys - {k});
    }
  }

  /** With non-negative prices the total is never negative. */
  lemma {:induction false} SumOverNonNegative(catalog: seq<Product>, cart: Cart, keys: set<ItemId>)
    requires keys <= cart.Keys
    requires forall p :: p in catalog ==> p.newPrice >= 0
    ensures SumOver(catalog, cart, keys) >= 0
    decreases keys
  {
    if |keys| > 0 {
      var k := PickKey(keys);
      SumOverPick(catalog, cart, keys, k);
      SumOverNonNegative(catalog, cart, keys - {k});
      if cart[k] > 0 {
        var price := UnitPrice(catalog, k);
        assert price >= 0;
        assert price * cart[k] >= 0;
      }
    }
  }

  lemma TotalNonNegative(catalog: seq<Product>, cart: Cart)
    requires forall p :: p in catalog ==> p.newPrice >= 0
    ensures CartTotal(catalog, cart) >= 0
  {
    SumOverNonNegative(catalog, cart, cart.Keys);
  }

  /** A cart with no positive quantity, a fresh account's in particular, costs nothing. */
  lemma ZeroCartCostsNothing(catalog: seq<Product>)
    ensures CartTotal(catalog, ZeroCart()) == 0
    ensures CartTotal(catalog, map[]) == 0
  {
    SumOverNoPositive(catalog, ZeroCart(), ZeroCart().Keys);
  }

  /** Setting one entry changes the total by the difference of that entry's contributions only. */
  lemma SetQuantityTotal(catalog: seq<Product>, cart: Cart, item: ItemId, v: int)
    ensures CartTotal(catalog, cart[item := v])
         == CartTotal(catalog, cart) - LineTotal(catalog, QuantityOf(cart, item), item)
            + LineTotal(catalog, v, item)
  {
    var updated := cart[item := v];
    var others := cart.Keys - {item};
    SumOverPick(catalog, updated, updated.Keys, item);
    assert updated.Keys - {item} == others;
    SumOverAgree(catalog, cart, updated, others);
    if item in cart {
      SumOverPick(catalog, cart, cart.Keys, item);
    } else {
      assert cart.Keys == others;
    }
  }

  lemma MulDistributes(a: int, b: int, c: int)
    ensures a * (b + c) == a * b + a * c
  {
  }

  /** Adding q units of an item (with no negative quantity there before) raises the total by its price times q. */
  lemma AddToCartTotal(catalog: seq<Product>, cart: Cart, item: ItemId, quantity: Option<int>)
    requires QuantityOf(cart, item) >= 0
    requires DefaultQuantity(quantity) > 0
    ensures CartTotal(catalog, AddQuantity(cart, item, quantity))
         == CartTotal(catalog, cart) + UnitPrice(catalog, item) * DefaultQuantity(quantity)
  {
    var oldQuantity := QuantityOf(cart, item);
    var q := DefaultQuantity(quantity);
    var price := UnitPrice(catalog, item);
    assert AddQuantity(cart, item, quantity) == cart[item := oldQuantity + q];
    SetQuantityTotal(catalog, cart, item, oldQuantity + q);
    assert LineTotal(catalog, oldQuantity + q, item) == price * (oldQuantity + q);
    assert LineTotal(catalog, oldQuantity, item) == price * oldQuantity;
    MulDistributes(price, oldQuantity, q);
  }

  /** A fresh account that adds a positive quantity of one slot owes that product's price times the quantity. */
  lemma FreshCartOneItemTotal(catalog: seq<Product>, item: ItemId, quantity: Option<int>)
    requires 0 <= item < CartSlots && DefaultQuantity(quantity) > 0
    ensures AddQuantity(ZeroCart(), item, quantity) == ZeroCart()[item := DefaultQuantity(quantity)]
    ensures CartTotal(catalog, AddQuantity(ZeroCart(), item, quantity))
         == UnitPrice(catalog, item) * DefaultQuantity(quantity)
  {
    ZeroCartCostsNothing(catalog);
    AddToCartTotal(catalog, ZeroCart(), item, quantity);
  }

  /** Removing one unit of an item that is in the cart lowers the total by its price. */
  lemma RemoveFromCartTotal(catalog: seq<Product>, cart: Cart, item: ItemId)
    requires QuantityOf(cart, item) > 0
    ensures CartTotal(catalog, RemoveQuantity(cart, item))
         == CartTotal(catalog, cart) - UnitPrice(catalog, item)
  {
    var oldQuantity := cart[item];
    var price := UnitPrice(catalog, item);
    assert RemoveQuantity(cart, item) == cart[item := oldQuantity - 1];
    SetQuantityTotal(catalog, cart, item, oldQuantity - 1);
    MulDistributes(price, oldQuantity - 1, 1);
  }
}
