/**
 * The storefront's state and its route handlers, run one request at a time:
 * the product catalog in store order, the user accounts keyed by id (each
 * with the cart it owns), and the orders written by the payment webhook.
 * The authenticated identity of the cart and checkout routes is given as a
 * user id; the payment processor is reduced to the intent that checkout asks
 * for and the event it later sends back.
 */
module Store {
  import opened JsValues
  import opened Cart
  import opened Catalog
  import opened Checkout

  /** Stands for the database's object id of an account. */
  type UserId = nat

  datatype Account = Account(name: string, email: string, password: string, cart: Cart)

  /** `Pending` is the schema's default; the webhook writes `Paid`. */
  datatype OrderStatus = Pending | Paid

  /** An order: the cart as it was when payment was confirmed, the amount paid in cents, and the shipping metadata. */
  datatype Order = Order(
    userId: UserId,
    items: Cart,
    totalCents: int,
    status: OrderStatus,
    shippingDetails: string)

  /** The payment intent checkout asks the processor for, with its metadata. */
  datatype PaymentIntent = PaymentIntent(amountCents: int, userId: UserId, shippingDetails: Option<string>)

  /** A webhook event: its type and the payment intent it carries. */
  datatype Event = Event(kind: string, intent: PaymentIntent)

  const PaymentSucceeded := "payment_intent.succeeded"

  datatype Failure =
    | ExistingUser     // signup: an account already has this email
    | WrongEmail       // login: no account has this email
    | WrongPassword    // login: the password differs from the stored one
    | UnknownUser      // the authenticated id names no account
    | MissingField     // addproduct: a field the product schema requires is absent or empty
    | BadSignature     // webhook: the signature did not verify

  datatype CartReply = Added | Removed | NotRemoved | NoAccount

  datatype WebhookReply = Received | Refused(reason: Failure)

  /** No two accounts share an email. */
  predicate EmailsUnique(users: map<UserId, Account>) {
    forall u, v :: u in users && v in users && users[u].email == users[v].email ==> u == v
  }

  predicate HasEmail(users: map<UserId, Account>, email: string) {
    exists u :: u in users && users[u].email == email
  }

  class Store {
    var catalog: seq<Product>
    var users: map<UserId, Account>
    var orders: seq<Order>
    var nextUserId: UserId

    ghost predicate Valid()
      reads this
    {
      && IdsIncreasing(catalog)
      && EmailsUnique(users)
      && (forall u :: u in users ==> u < nextUserId)
    }

    constructor ()
      ensures Valid()
      ensures catalog == [] && users == map[] && orders == []
    {
      catalog := [];
      users := map[];
      orders := [];
      nextUserId := 0;
    }

    /** `/addproduct`: append a product with the next id, unless a required field is missing. */
    method AddProduct(form: ProductForm) returns (r: Result<string, Failure>)
      requires Valid()
      modifies this
      ensures Valid()
      ensures users == old(users) && orders == old(orders) && nextUserId == old(nextUserId)
      ensures BuildProduct(NextId(old(catalog)), form).None? ==> r == Err(MissingField) && catalog == old(catalog)
      ensures BuildProduct(NextId(old(catalog)), form).Some? ==>
        && r == Ok(form.name.value)
        && catalog == old(catalog) + [BuildProduct(NextId(old(catalog)), form).value]
    {
      var id := NextId(catalog);
      var product := BuildProduct(id, form);
      match product
      case None =>
        r := Err(MissingField);
      case Some(p) =>
        AppendNextKeepsIdsIncreasing(catalog, p);
        catalog := catalog + [p];
        r := Ok(p.name);
    }

    /** `/removeproduct`: delete the first product with that id; a missing id is a successful no-op. */
    method RemoveProduct(id: int)
      requires Valid()
      modifies this
      ensures Valid()
      ensures users == old(users) && orders == old(orders) && nextUserId == old(nextUserId)
      ensures catalog == RemoveFirstWithId(old(catalog), id)
    {
      RemoveKeepsIdsIncreasing(catalog, id);
      catalog := RemoveFirstWithId(catalog, id);
    }

    /** `/signup`: refuse a known email; otherwise store a new account whose cart is the zeroed one. */
    method Signup(name: string, email: string, password: string) returns (r: Result<UserId, Failure>)
      requires Valid()
      modifies this
      ensures Valid()
      ensures catalog == old(catalog) && orders == old(orders)
      ensures HasEmail(old(users), email) ==> r == Err(ExistingUser) && users == old(users)
      ensures !HasEmail(old(users), email) ==>
        && r.Ok? && r.value !in old(users)
        && users == old(users)[r.value := Account(name, email, password, ZeroCart())]
    {
      if HasEmail(users, email) {
        return Err(ExistingUser);
      }
      var cart: Cart := map[];
      for i := 0 to CartSlots
        invariant forall k :: k in cart <==> 0 <= k < i
        invariant forall k :: k in cart ==> cart[k] == 0
      {
        cart := cart[i := 0];
      }
      assert cart == ZeroCart();
      var id := nextUserId;
      users := users[id := Account(name, email, password, cart)];
      nextUserId := nextUserId + 1;
      r := Ok(id);
    }

    /** `/login`: the account with that email, when the given password equals the stored one. */
    method Login(email: string, password: string) returns (r: Result<UserId, Failure>)
      requires Valid()
      ensures r.Ok? <==> exists u :: u in users && users[u].email == email && users[u].password == password
      ensures r.Ok? ==> r.value in users && users[r.value].email == email && users[r.value].password == password
      ensures r == Err(WrongEmail) <==> !HasEmail(users, email)
      ensures r.Err? ==> r.error == WrongEmail || r.error == WrongPassword
    {
      if !HasEmail(users, email) {
        return Err(WrongEmail);
      }
      var u :| u in users && users[u].email == email;
      if password == users[u].password {
        r := Ok(u);
      } else {
        r := Err(WrongPassword);
      }
    }

    /** `/addtocart`: add `quantity || 1` units of one item to the caller's cart; nothing else changes. */
    method AddToCart(uid: UserId, itemId: ItemId, quantity: Option<int>) returns (r: CartReply)
      requires Valid()
      modifies this
      ensures Valid()
      ensures catalog == old(catalog) && orders == old(orders) && nextUserId == old(nextUserId)
      ensures uid !in old(users) ==> r == NoAccount && users == old(users)
      ensures uid in old(users) ==>
        && r == Added
        && users == old(users)[uid := old(users)[uid].(cart := AddQuantity(old(users)[uid].cart, itemId, quantity))]
    {
      if uid !in users {
        return NoAccount;
      }
      var account := users[uid];
      users := users[uid := account.(cart := AddQuantity(account.cart, itemId, quantity))];
      r := Added;
    }

    /** `/removecart`: take one unit of an item off the caller's cart when it holds some, else change nothing. */
    method RemoveFromCart(uid: UserId, itemId: ItemId) returns (r: CartReply)
      requires Valid()
      modifies this
      ensures Valid()
      ensures catalog == old(catalog) && orders == old(orders) && nextUserId == old(nextUserId)
      ensures uid !in old(users) ==> r == NoAccount && users == old(users)
      ensures uid in old(users) && QuantityOf(old(users)[uid].cart, itemId) <= 0 ==>
        r == NotRemoved && users == old(users)
      ensures uid in old(users) && QuantityOf(old(users)[uid].cart, itemId) > 0 ==>
        && r == Removed
        && users == old(users)[uid := old(users)[uid].(cart := RemoveQuantity(old(users)[uid].cart, itemId))]
    {
      if uid !in users {
        return NoAccount;
      }
      var account := users[uid];
      if itemId in account.cart && account.cart[itemId] > 0 {
        users := users[uid := account.(cart := account.cart[itemId := account.cart[itemId] - 1])];
        r := Removed;
      } else {
        r := NotRemoved;
      }
    }

    /** `/getcart`: the caller's cart as stored. */
    method GetCart(uid: UserId) returns (r: Result<Cart, Failure>)
      ensures uid in users ==> r == Ok(users[uid].cart)
      ensures uid !in users ==> r == Err(UnknownUser)
    {
      if uid !in users {
        return Err(UnknownUser);
      }
      r := Ok(users[uid].cart);
    }

    /**
     * `/checkout`: the payment intent for the caller's cart, priced from the
     * catalog. The stored cart is read and left as it is.
     */
    method Checkout(uid: UserId, shippingDetails: Option<string>) returns (r: Result<PaymentIntent, Failure>)
      ensures uid !in users ==> r == Err(UnknownUser)
      ensures uid in users ==> r == Ok(PaymentIntent(CartTotal(catalog, users[uid].cart), uid, shippingDetails))
    {
      if uid !in users {
        return Err(UnknownUser);
      }
      var cart := users[uid].cart;
      var totalAmount := 0;
      var remaining := cart.Keys;
      while remaining != {}
        invariant remaining <= cart.Keys
        invariant totalAmount + SumOver(catalog, cart, remaining) == CartTotal(catalog, cart)
        decreases remaining
      {
        var itemId :| itemId in remaining;
        SumOverPick(catalog, cart, remaining, itemId);
        if cart[itemId] > 0 {
          var product := FindProduct(catalog, itemId);
          if product.Some? {
            totalAmount := totalAmount + product.value.newPrice * cart[itemId];
          }
        }
        remaining := remaining - {itemId};
      }
      assert remaining == {};
      r := Ok(PaymentIntent(totalAmount, uid, shippingDetails));
    }

    /**
     * `/webhook`: only a verified `payment_intent.succeeded` event for an
     * existing account writes an order, a "Paid" snapshot of that account's
     * cart at this moment, and then empties the cart. Every other event leaves
     * the state as it was.
     */
    method HandleWebhook(verified: bool, event: Event) returns (r: WebhookReply)
      requires Valid()
      modifies this
      ensures Valid()
      ensures catalog == old(catalog) && nextUserId == old(nextUserId)
      ensures !verified ==> r == Refused(BadSignature) && users == old(users) && orders == old(orders)
      ensures verified && event.kind != PaymentSucceeded ==>
        r == Received && users == old(users) && orders == old(orders)
      ensures verified && event.kind == PaymentSucceeded && event.intent.userId !in old(users) ==>
        r == Refused(UnknownUser) && users == old(users) && orders == old(orders)
      ensures verified && event.kind == PaymentSucceeded && event.intent.userId in old(users) ==>
        var uid := event.intent.userId;
        && r == Received
        && orders == old(orders) + [Order(uid, old(users)[uid].cart, event.intent.amountCents, Paid,
                                          OrElse(event.intent.shippingDetails, "{}"))]
        && users == old(users)[uid := old(users)[uid].(cart := map[])]
    {
      if !verified {
        return Refused(BadSignature);
      }
      if event.kind == PaymentSucceeded {
        var uid := event.intent.userId;
        var shippingDetails := OrElse(event.intent.shippingDetails, "{}");
        if uid !in users {
          return Refused(UnknownUser);
        }
        var account := users[uid];
        orders := orders + [Order(uid, account.cart, event.intent.amountCents, Paid, shippingDetails)];
        users := users[uid := account.(cart := map[])];
      }
      r := Received;
    }
  }

  /** A new store after `/addproduct` has run three times with the same form: product 3 costs `price`. */
  method StockedStore(price: int) returns (store: Store)
    ensures fresh(store) && store.Valid()
    ensures store.users == map[] && store.orders == []
    ensures UnitPrice(store.catalog, 3) == price
  {
    store := new Store();
    var form := ProductForm(Some("Gummy Bears"), Some("/images/p.png"), None, Some("sweets"), Some(price), Some(price));
    var added := store.AddProduct(form);
    added := store.AddProduct(form);
    added := store.AddProduct(form);
    assert store.catalog[2].id == 3 && store.catalog[2].newPrice == price;
    FindByOwnId(store.catalog, 2);
  }

  /**
   * Signup, login, add item 3 twice, check out, and the signed confirmation:
   * the account ends with an empty cart and one "Paid" order whose items and
   * amount are those of the cart at checkout.
   */
  method SignupToPaidOrder(price: int) returns (order: Order, cartAfter: Cart, orderCount: nat)
    ensures order.status == Paid
    ensures order.items == ZeroCart()[3 := 2]
    ensures order.totalCents == 2 * price
    ensures cartAfter == map[]
    ensures orderCount == 1
  {
    var store := StockedStore(price);
    ghost var catalog := store.catalog;

    var signedUp := store.Signup("a", "a@x.com", "pw");
    var uid := signedUp.value;
    assert store.users[uid] == Account("a", "a@x.com", "pw", ZeroCart());
    var loggedIn := store.Login("a@x.com", "pw");
    assert loggedIn == Ok(uid);

    var reply := store.AddToCart(uid, 3, Some(2));
    ghost var cart := store.users[uid].cart;
    assert cart == AddQuantity(ZeroCart(), 3, Some(2));
    FreshCartOneItemTotal(catalog, 3, Some(2));
    assert DefaultQuantity(Some(2)) == 2;
    assert cart == ZeroCart()[3 := 2];
    assert CartTotal(catalog, cart) == UnitPrice(catalog, 3) * 2;

    var intent := store.Checkout(uid, Some("{\"city\":\"X\"}"));
    assert store.catalog == catalog && store.users[uid].cart == cart;

    var confirmed := store.HandleWebhook(true, Event(PaymentSucceeded, intent.value));
    order := store.orders[0];
    cartAfter := store.users[uid].cart;
    orderCount := |store.orders|;
  }
}
