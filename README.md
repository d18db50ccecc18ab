# Snackaroo storefront backend: a Dafny model of its business rules

The Snackaroo backend is an Express server over a document database and a
payment processor. It sells snacks from a product catalog. Accounts hold a
per-user cart, checkout asks the processor for a payment intent, and a
signed webhook turns a confirmed payment into an order. This project models
the rules those route handlers apply. The database, the processor and the
web framework are left out. What remains is one sequential, in-memory store.

- `js_values.dfy` (module `JsValues`): optional request fields and the
  JavaScript `a || b` default idiom.
- `cart.dfy` (module `Cart`): the cart, a map from item id to quantity.
  `AddQuantity` is what `/addtocart` does to one key. `RemoveQuantity` is
  what `/removecart` does. `ZeroCart` is the 300-slot zeroed cart that
  signup seeds.
- `catalog.dfy` (module `Catalog`): products in store order. It covers the
  id that `/addproduct` assigns (the last record's id + 1, or 1), the
  schema's required fields, `/removeproduct`'s delete-first-match, the
  product lookup, and the two curated views `/newcollections` and
  `/popularsnacks`.
- `checkout.dfy` (module `Checkout`): the checkout total. It is the sum,
  over cart entries with a positive quantity, of the product's price times
  the quantity. An entry whose product is missing adds 0. The total is
  defined over the key set and proved independent of the order the loop
  visits the keys. Its effect under add and remove is proved too.
- `web.dfy` (module `Web`): the CORS `origin` callback and `getBaseUrl`.
- `store.dfy` (module `Store`): class `Store` has fields `catalog`,
  `users` (id to account, each with its cart), `orders` and `nextUserId`.
  There is one method per route handler. `Valid()` is kept by every method:
  product ids are positive and increase in store order, emails are unique,
  and every account id is below `nextUserId`.
  `SignupToPaidOrder` runs the whole flow once: signup, login, add item 3
  twice, checkout, signed confirmation.

Money is in integer cents throughout. Some of the code's behaviour is easy
to misread; the model follows the code:
- The next product id is the last record's id + 1, not a scan for the
  maximum. Under the id invariant the two agree (`NextIdIsMaxPlusOne`).
  Deleting the newest product lets a later product get an id no larger
  than the deleted one (`RemoveLastReusesId`).
- A new account's cart is not empty. It holds the 300 keys 0..299, all 0.
  After adding 2 of item 3, the stored cart is `ZeroCart()[3 := 2]`, not
  `{3: 2}`.
- `/addtocart` does not check the sign of `quantity`. A negative quantity
  drives a slot below 0 (`AddAcceptsNegativeQuantity`). Quantities stay
  non-negative only when added quantities are (`AddKeepsNonNegative`,
  `RemoveKeepsNonNegative`).
- The order written by the webhook holds the cart as it is when the
  confirmation arrives. Items added between checkout and confirmation are
  in the order although they were not in the amount paid.

## Model

| member | source | states |
|---|---|---|
| `JsValues.Or` | index.js:119-122 | `a \|\| b` on optional strings: truthy exactly when either operand is, the first operand when it is truthy, else the second one as it is |
| `Cart.DefaultQuantity` | index.js:339 | `quantity \|\| 1`: an omitted or zero quantity adds 1; any other value is added as given; the added amount is never 0 |
| `Cart.AddQuantity` | index.js:335-340 | add-to-cart sets the item to its old quantity (absent reads as 0) plus the added amount, adds at most that one key, and leaves every other key as it was |
| `Cart.RemoveQuantity` | index.js:348-350 | remove-from-cart lowers the item by exactly 1 when it is above 0, and otherwise returns the cart unchanged; the key set never changes |
| `Cart.ZeroCart` | index.js:250-253 | the signup cart has exactly the keys 0..299, each mapped to 0 |
| `Cart.ZeroCartSize` | index.js:251-253 | the signup cart has exactly 300 entries |
| `Cart.AddToEmptySlot` | index.js:335-339 | adding q to an absent or zero slot leaves exactly q there (1 when q is omitted) |
| `Cart.AddKeepsNonNegative` | index.js:335-339 | adding a non-negative or omitted quantity to a cart with no negative quantity keeps all quantities non-negative |
| `Cart.AddAcceptsNegativeQuantity` | index.js:331-339 | a negative `quantity` is added unchecked and makes a quantity negative |
| `Cart.RemoveKeepsNonNegative` | index.js:348-349 | removing never makes a quantity negative |
| `Cart.RemoveUndoesAdd` | index.js:335-350 | one remove undoes one default add on a slot the cart holds with a non-negative quantity |
| `Catalog.NextId` | index.js:177-186 | definition: the last stored record's id plus one, or 1 when the catalog is empty |
| `Catalog.NextIdIsFresh` | index.js:179-186 | under the id invariant the assigned id is at least 1 and above every id in the catalog |
| `Catalog.NextIdIsMaxPlusOne` | index.js:179-186 | under the id invariant "last id + 1" equals "maximum id + 1" |
| `Catalog.AppendNextKeepsIdsIncreasing` | index.js:179-197 | appending a product with the assigned id keeps ids positive and increasing |
| `Catalog.BuildProduct` | index.js:140-197 | a product is stored exactly when name, image (`image_path \|\| image`), category and both prices are present and non-empty; it carries the assigned id and the form's fields, with `image_path` preferred |
| `Catalog.FindProduct` | index.js:407-408 | the lookup finds nothing exactly when no product has the id; what it finds is in the catalog and has that id |
| `Catalog.FindByOwnId` | index.js:407-408 | under the id invariant, looking up any stored product's id returns that same product |
| `Catalog.RemoveFirstWithId` | index.js:206-207 | deleting an absent id changes nothing; otherwise exactly one record with that id is removed (length down by one, multiset minus that record) |
| `Catalog.RemoveKeepsIdsIncreasing` | index.js:206-207 | deleting a product keeps the id invariant |
| `Catalog.RemoveLastReusesId` | index.js:177-207 | after the newest product is deleted, the next id assigned is no larger than the deleted id |
| `Catalog.NewCollections` | index.js:297-301 | the new collection is the last min(8, n - 1) records of the catalog, in catalog order (empty for n <= 1) |
| `Catalog.NewCollectionsSkipFirst` | index.js:299 | with unique ids the first catalog record is never in the new collection |
| `Catalog.Sweets` | index.js:306 | a product is among the sweets exactly when it is in the catalog with category "sweets" |
| `Catalog.SweetsAppend` | index.js:306 | the sweets keep store order: a product appended to the catalog comes last among them exactly when it is in category "sweets" |
| `Catalog.PopularSnacks` | index.js:305-309 | the popular snacks are the first min(4, number of sweets) sweets, all in the catalog with category "sweets" |
| `Checkout.UnitPrice` | index.js:407-409 | definition: the `new_price` of the product `findOne` returns for the id, or 0 when there is none |
| `Checkout.LineTotal` | index.js:406-409 | definition: what one cart entry adds to the total, the unit price times the quantity when the quantity is above 0, else 0 |
| `Checkout.CartTotal` | index.js:403-411 | definition: the sum of `LineTotal` over every key of the cart, taken in any order |
| `Checkout.SumOverPick` | index.js:405-411 | any cart key can be summed first: the total does not depend on the order the keys are visited |
| `Checkout.SumOverNoPositive` | index.js:406 | entries whose quantity is not positive contribute nothing |
| `Checkout.TotalNonNegative` | index.js:403-411 | with non-negative prices the checkout total is non-negative |
| `Checkout.ZeroCartCostsNothing` | index.js:403-411 | a fresh account's cart and an emptied cart both total 0 |
| `Checkout.SetQuantityTotal` | index.js:403-411 | changing one entry changes the total only by the difference of that entry's contribution |
| `Checkout.AddToCartTotal` | index.js:403-411 | after adding q > 0 units to a non-negative slot, the total rises by that item's price times q (0 for a missing product) |
| `Checkout.FreshCartOneItemTotal` | index.js:403-411 | a new account that adds q > 0 units of one slot holds the zeroed cart with q in that slot and owes that product's price times q |
| `Checkout.RemoveFromCartTotal` | index.js:403-411 | after removing one unit of an item held in the cart, the total falls by that item's price |
| `Web.SomePrefix` | index.js:84 | `some(o => s.startsWith(o))` holds exactly when some entry is a prefix of s |
| `Web.OriginAllowed` | index.js:81-87 | an origin is admitted exactly when it is missing or empty, or starts with an allowed entry |
| `Web.OnlyFirstEntryMatters` | index.js:74-84 | the prefix test admits exactly the origins that start with the first entry; the two longer entries are redundant |
| `Web.PrefixAdmitsForeignHost` | index.js:84 | the origin `https://chrisw0987.github.io.attacker.example` is admitted |
| `Web.OriginAllowedExact` | index.js:81-87 | corrected check: admitted exactly when missing, empty, or equal to an allowed entry |
| `Web.ExactRefusesForeignHost` | index.js:74-86 | the corrected check refuses that foreign origin and admits nothing the as-written check refuses |
| `Web.BeforeComma` | index.js:121 | `split(',')[0]` is the longest comma-free prefix: it contains no comma, is a prefix, and is followed by a comma or the end |
| `Web.Scheme` | index.js:121 | definition: the text before the first comma of `x-forwarded-proto`, else of the request protocol, else "http" |
| `Web.BaseUrl` | index.js:118-124 | definition: the explicit public URL when one is set, else scheme + "://" + host |
| `Web.BaseUrlPriority` | index.js:118-124 | the base URL is `PUBLIC_BASE_URL`, else `RENDER_EXTERNAL_URL`, else scheme + "://" + host. The scheme is the comma-free head of `x-forwarded-proto`, else of the protocol, else "http". The host is `x-forwarded-host` when truthy, else the Host header, printed as "undefined" when absent |
| `Store.Store.AddProduct` | index.js:176-203 | the catalog grows by exactly the built product with the next id, or stays the same with a missing-field error; nothing else changes; the id invariant is kept |
| `Store.Store.RemoveProduct` | index.js:206-213 | the catalog loses the first record with that id (none if absent); nothing else changes |
| `Store.Store.Signup` | index.js:245-270 | a known email fails and creates no account; otherwise exactly one account with a fresh id and the zeroed cart is added |
| `Store.Store.Login` | index.js:274-294 | succeeds exactly when an account has that email and the same password, and returns that account; otherwise "Wrong Email" exactly when no account has that email, else "Wrong Password"; nothing changes |
| `Store.Store.AddToCart` | index.js:330-342 | only the caller's cart changes, by `AddQuantity`; a missing account changes nothing |
| `Store.Store.RemoveFromCart` | index.js:345-353 | only the caller's cart changes, by one unit of that item when it is above 0; otherwise nothing changes |
| `Store.Store.GetCart` | index.js:356-360 | returns the caller's stored cart, or an error for a missing account |
| `Store.Store.Checkout` | index.js:398-423 | the payment intent's amount is the cart total from catalog prices (`CartTotal`), for the caller, with the given shipping metadata; the cart is not changed |
| `Store.Store.HandleWebhook` | index.js:26-71 | only a verified `payment_intent.succeeded` event for an existing account appends one order (the cart at that moment, the amount paid, "Paid", the shipping text or "{}"); that cart then becomes empty; a bad signature, another event type or a missing account leaves all state unchanged |
| `Store.StockedStore` | index.js:176-203 | three `/addproduct` calls with the same form on a new store leave no accounts or orders, and product 3 costs the form's price |
| `Store.SignupToPaidOrder` | index.js:40-62 | signup, login, add 2 of item 3, checkout and a signed confirmation yield exactly one "Paid" order. Its items are the cart at checkout, its amount is 2 × item 3's price, and the cart ends empty |

## Findings

| source | as written | input that shows it | evidently intended | confidence | as-written member | corrected member |
|---|---|---|---|---|---|---|
| index.js:84 | an origin is admitted when it starts with an allowed entry | Origin `https://chrisw0987.github.io.attacker.example` | an Origin header is scheme, host and port only, so admit exactly the listed origins | not executed; high that the prefix test admits foreign hosts | `Web.PrefixAdmitsForeignHost` | `Web.ExactRefusesForeignHost` |

## Left out

- HTTP plumbing is not modelled: Express routing, body parsing, the CORS middleware's options, `app.listen`, dotenv loading and console logging. Only the origin predicate is.
- JWT signing and verification are left out. The authenticated identity is a given user id, and the 401 responses are not modelled. Login signs with `'secret_ecom'` while verification uses `JWT_SECRET`; that inconsistency is outside the model.
- The database is modelled as in-memory collections. Account object ids are a counter (`nextUserId`). Creation dates and the `available` flag are not modelled. The duplicated `shippingDetails` key of the order schema does not matter here.
- Stripe signature verification is a boolean parameter of `HandleWebhook`. Payment-intent creation is external: `Checkout` returns the intent it would request. The client secret and gateway errors (the 500 path) are not modelled.
- Money is integer cents. `Math.round(totalAmount * 100)` and `amount / 100` are identities, so floating-point rounding is not modelled.
- Shipping details are opaque text. `JSON.stringify` and `JSON.parse` are not modelled, including a parse failure on malformed metadata.
- Image upload, file naming with `Date.now()` and static file serving are I/O and are left out. The `const getBaseUrl` at index.js:20 and the `function getBaseUrl` at index.js:118 declare the same name in one scope, so the module would not load. Only the declaration at line 118 is modelled.
- `/allproducts` returns the catalog as stored and needs no member of its own.
- Request fields of the wrong JSON type or missing entirely are not modelled for signup, login and the cart routes: an undefined email in a query filter, a string quantity that JavaScript would concatenate, a non-numeric item id. Quantities and item ids are integers.
- Concurrent requests, lost updates and webhook replays are not modelled: the model is strictly sequential. `/removecart` at quantity 0 never answers; it is modelled as a state-preserving `NotRemoved`.
- Catalog.RemoveFirstWithId: its contract states the length and the multiset of the result, not the position of the removed record. Under the id invariant only one record can match.
- Several replies stand for uncaught exceptions. In the source these send no reply, but state is unchanged, as in the model:
  - `Err(MissingField)` from `AddProduct` is the schema validation error that `product.save()` throws (index.js:197).
  - `NoAccount` from `AddToCart` and `RemoveFromCart`, and `Err(UnknownUser)` from `GetCart`, are the TypeError on `userData.cartData` when no account matches (index.js:335, 348, 359).
