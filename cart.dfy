/**
 * A user's cart: a map from item id to quantity, the two in-place updates the
 * cart routes make to one key of it, and the zeroed cart a new account gets.
 */
module Cart {
  import opened JsValues

  type ItemId = int

  type Cart = map<ItemId, int>

  /** The number of zeroed slots (keys 0 .. CartSlots - 1) that signup seeds. */
  const CartSlots: nat := 300

  /** `cart[item]` where an absent key reads as 0 (it is falsy and gets initialised to 0). */
  function QuantityOf(cart: Cart, item: ItemId): int {
    if item in cart then cart[item] else 0
  }

  predicate NonNegative(cart: Cart) {
    forall k :: k in cart ==> cart[k] >= 0
  }

  /** `quantity || 1`: an omitted quantity, or 0, adds one unit; any other number is added as given. */
  function DefaultQuantity(quantity: Option<int>): (q: int)
    ensures q != 0
    ensures quantity.Some? && quantity.value != 0 ==> q == quantity.value
    ensures quantity.None? || quantity.value == 0 ==> q == 1
  {
    match quantity
    case Some(n) => if n != 0 then n else 1
    case None => 1
  }

  /** What `/addtocart` does to the cart: initialise the slot to 0 if it is falsy, then add `quantity || 1`. */
  function AddQuantity(cart: Cart, item: ItemId, quantity: Option<int>): (r: Cart)
    ensures r.Keys == cart.Keys + {item}
    ensures r[item] == QuantityOf(cart, item) + DefaultQuantity(quantity)
    ensures forall k :: k in cart && k != item ==> r[k] == cart[k]
  {
    var start := if item in cart && cart[item] != 0 then cart[item] else 0;
    cart[item := start + DefaultQuantity(quantity)]
  }

  /** What `/removecart` does to the cart: take one unit off when the quantity is above 0, else nothing. */
  function RemoveQuantity(cart: Cart, item: ItemId): (r: Cart)
    ensures r.Keys == cart.Keys
    ensures QuantityOf(cart, item) > 0 ==> r[item] == cart[item] - 1
    ensures QuantityOf(cart, item) <= 0 ==> r == cart
    ensures forall k :: k in cart && k != item ==> r[k] == cart[k]
  {
    if item in cart && cart[item] > 0 then cart[item := cart[item] - 1] else cart
  }

  /** A key of the zeroed cart (named so the comprehension below has a term to trigger on). */
  predicate IsSlot(k: ItemId) {
    0 <= k < CartSlots
  }

  /** The cart signup stores: keys 0 .. CartSlots - 1, each mapped to 0. */
  function ZeroCart(): (r: Cart)
    ensures forall k :: k in r <==> 0 <= k < CartSlots
    ensures forall k :: k in r ==> r[k] == 0
  {
    map k: ItemId | 0 <= k < CartSlots && IsSlot(k) :: 0
  }

  /** The key set 0 .. n - 1, built one key at a time. */
  function Slots(n: nat): (r: set<ItemId>)
    ensures forall k :: k in r <==> 0 <= k < n
  {
    if n == 0 then {} else Slots(n - 1) + {n - 1}
  }

  lemma {:induction false} SlotsSize(n: nat)
    ensures |Slots(n)| == n
  {
    if n > 0 {
      var smaller := Slots(n - 1);
      SlotsSize(n - 1);
      assert n - 1 !in smaller;
      assert Slots(n) == smaller + {n - 1};
    }
  }

  /** A fresh cart has exactly CartSlots entries. */
  lemma ZeroCartSize()
    ensures |ZeroCart()| == CartSlots
  {
    SlotsSize(CartSlots);
    assert ZeroCart().Keys == Slots(CartSlots);
  }

  /** Adding to an empty slot (absent or 0) leaves exactly the added quantity there. */
  lemma AddToEmptySlot(cart: Cart, item: ItemId, quantity: Option<int>)
    requires QuantityOf(cart, item) == 0
    ensures AddQuantity(cart, item, quantity)[item] == DefaultQuantity(quantity)
    ensures quantity.None? ==> AddQuantity(cart, item, quantity)[item] == 1
  {
  }

  /** Adding a non-negative (or omitted) quantity keeps every quantity non-negative. */
  lemma AddKeepsNonNegative(cart: Cart, item: ItemId, quantity: Option<int>)
    requires NonNegative(cart)
    requires quantity.None? || quantity.value >= 0
    ensures NonNegative(AddQuantity(cart, item, quantity))
  {
  }

  /** The add route does not check the sign of `quantity`: a negative one drives a slot below 0. */
  lemma AddAcceptsNegativeQuantity()
    ensures NonNegative(ZeroCart())
    ensures !NonNegative(AddQuantity(ZeroCart(), 3, Some(-2)))
  {
    assert AddQuantity(ZeroCart(), 3, Some(-2))[3] == -2;
  }

  /** Removing never takes a quantity below 0, whatever the cart held. */
  lemma RemoveKeepsNonNegative(cart: Cart, item: ItemId)
    requires NonNegative(cart)
    ensures NonNegative(RemoveQuantity(cart, item))
    ensures QuantityOf(RemoveQuantity(cart, item), item) >= 0
  {
  }

  /** Removing one unit undoes a default add on a slot that the cart already holds. */
  lemma RemoveUndoesAdd(cart: Cart, item: ItemId)
    requires item in cart && cart[item] >= 0
    ensures RemoveQuantity(AddQuantity(cart, item, None), item) == cart
  {
    var added := AddQuantity(cart, item, None);
    assert added[item] == cart[item] + 1;
    var removed := RemoveQuantity(added, item);
    assert removed.Keys == cart.Keys;
    assert forall k :: k in cart ==> removed[k] == cart[k];
  }
}
