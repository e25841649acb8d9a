/** The storefront cart of `frontend/src/MainApp.js`: an ordered list of line items, one per
  * product id, each a product snapshot with a quantity. The operations are the component's pure
  * `map`/`filter`/`reduce` transformations of the previous cart. */
module Cart {
  import opened Wrappers

  type ProductId = int

  /** A catalogue product as the storefront receives it from `GET /products`; prices are in
    * minor currency units. `imageUrl` and the entries of `images` may be absent or empty. */
  datatype Product = Product(
    id: ProductId,
    name: string,
    description: string,
    price: int,
    category: string,
    stockQuantity: int,
    imageUrl: Option<string>,
    images: Option<seq<Option<string>>>)

  /** `{ ...product, quantity }`: a product snapshot and how many of it are in the cart. */
  datatype LineItem = LineItem(product: Product, quantity: int)

  type Items = seq<LineItem>

  /** Some line item of the cart carries product id `id` (`prevCart.find(item => item.id === id)`). */
  predicate InCart(cart: Items, id: ProductId) {
    exists k :: 0 <= k < |cart| && cart[k].product.id == id
  }

  /** At most one line item per product id. */
  predicate UniqueIds(cart: Items) {
    forall i, j :: 0 <= i < j < |cart| ==> cart[i].product.id != cart[j].product.id
  }

  /** Every stored quantity is at least one. */
  predicate PositiveQuantities(cart: Items) {
    forall k :: 0 <= k < |cart| ==> cart[k].quantity >= 1
  }

  /** The cart invariant of the storefront: unique ids and quantities of at least one. */
  predicate Valid(cart: Items) {
    UniqueIds(cart) && PositiveQuantities(cart)
  }

  /** The `map` of `addToCart`: every item with id `id` gets one more. */
  function IncrementMatching(cart: Items, id: ProductId): (r: Items) {
    seq(|cart|, k requires 0 <= k < |cart| =>
      if cart[k].product.id == id then cart[k].(quantity := cart[k].quantity + 1) else cart[k])
  }

  /** The `map` of `updateQuantity`: every item with id `id` gets quantity `q`. */
  function SetMatching(cart: Items, id: ProductId, q: int): (r: Items) {
    seq(|cart|, k requires 0 <= k < |cart| =>
      if cart[k].product.id == id then cart[k].(quantity := q) else cart[k])
  }

  /** `addToCart(product)`. */
  function AddToCart(cart: Items, p: Product): Items {
    if InCart(cart, p.id) then IncrementMatching(cart, p.id) else cart + [LineItem(p, 1)]
  }

  /** `removeFromCart(productId)`: `prevCart.filter(item => item.id !== productId)`. */
  function RemoveFromCart(cart: Items, id: ProductId): Items
    decreases |cart|
  {
    if |cart| == 0 then []
    else (if cart[0].product.id != id then [cart[0]] else []) + RemoveFromCart(cart[1..], id)
  }

  /** `updateQuantity(productId, newQuantity)`: any quantity of zero or less removes the item. */
  function UpdateQuantity(cart: Items, id: ProductId, q: int): Items {
    if q <= 0 then RemoveFromCart(cart, id) else SetMatching(cart, id, q)
  }

  /** `item.price * item.quantity`. */
  function LineTotal(x: LineItem): int {
    x.product.price * x.quantity
  }

  /** `getTotalPrice()`: the left fold `total + item.price * item.quantity` from 0. */
  function TotalPrice(cart: Items): int
    decreases |cart|
  {
    if |cart| == 0 then 0 else TotalPrice(cart[..|cart| - 1]) + LineTotal(cart[|cart| - 1])
  }

  /** `cartCount`: the left fold `total + item.quantity` from 0. */
  function CartCount(cart: Items): int
    decreases |cart|
  {
    if |cart| == 0 then 0 else CartCount(cart[..|cart| - 1]) + cart[|cart| - 1].quantity
  }

  // ---------------------------------------------------------------------------------------
  // Sums

  /** Both sums split over a concatenation. */
  lemma {:induction false} SumsAppend(a: Items, b: Items)
    ensures TotalPrice(a + b) == TotalPrice(a) + TotalPrice(b)
    ensures CartCount(a + b) == CartCount(a) + CartCount(b)
    decreases |b|
  {
    if |b| > 0 {
      assert (a + b)[..|a + b| - 1] == a + b[..|b| - 1];
      SumsAppend(a, b[..|b| - 1]);
    } else {
      assert a + b == a;
    }
  }

  /** Replacing one line changes both sums by exactly that line's difference. */
  lemma {:induction false} SumsReplace(cart: Items, k: nat, x: LineItem)
    requires k < |cart|
    ensures TotalPrice(cart[k := x]) == TotalPrice(cart) - LineTotal(cart[k]) + LineTotal(x)
    ensures CartCount(cart[k := x]) == CartCount(cart) - cart[k].quantity + x.quantity
  {
    var pre, post := cart[..k], cart[k + 1..];
    assert cart == pre + [cart[k]] + post;
    assert cart[k := x] == pre + [x] + post;
    SumsAppend(pre + [cart[k]], post);
    SumsAppend(pre, [cart[k]]);
    SumsAppend(pre + [x], post);
    SumsAppend(pre, [x]);
    assert [x][..0] == [] && [cart[k]][..0] == [];
  }

  /** The total of an empty cart is exactly zero, and so is its item count. */
  lemma EmptyCartSums()
    ensures TotalPrice([]) == 0 && CartCount([]) == 0
  {
  }

  // ---------------------------------------------------------------------------------------
  // addToCart

  /** Adding a product already in the cart increments only that line's quantity: length, order
    * and every other line are unchanged. */
  lemma AddExisting(cart: Items, p: Product, k: nat)
    requires UniqueIds(cart) && k < |cart| && cart[k].product.id == p.id
    ensures AddToCart(cart, p) == cart[k := cart[k].(quantity := cart[k].quantity + 1)]
  {
  }

  /** Adding a new product appends `{...product, quantity: 1}` at the end. */
  lemma AddNew(cart: Items, p: Product)
    requires !InCart(cart, p.id)
    ensures AddToCart(cart, p) == cart + [LineItem(p, 1)]
    ensures |AddToCart(cart, p)| == |cart| + 1
  {
  }

  /** After `addToCart` the product is in the cart, and the cart invariant is kept. */
  lemma AddKeepsValid(cart: Items, p: Product)
    requires Valid(cart)
    ensures Valid(AddToCart(cart, p)) && InCart(AddToCart(cart, p), p.id)
  {
    if InCart(cart, p.id) {
      var k :| 0 <= k < |cart| && cart[k].product.id == p.id;
      AddExisting(cart, p, k);
      assert AddToCart(cart, p)[k].product.id == p.id;
    } else {
      assert AddToCart(cart, p)[|cart|].product.id == p.id;
    }
  }

  /** `addToCart` of a product already on line `k` raises the total by the unit price stored on
    * that line. */
  lemma AddExistingTotal(cart: Items, p: Product, k: nat)
    requires UniqueIds(cart) && k < |cart| && cart[k].product.id == p.id
    ensures TotalPrice(AddToCart(cart, p)) == TotalPrice(cart) + cart[k].product.price
  {
    IncrementAt(cart, p.id, k);
    TotalAfterIncrementAt(cart, k);
  }

  /** One more unit on line `k` raises the total by that line's unit price. */
  lemma TotalAfterIncrementAt(cart: Items, k: nat)
    requires k < |cart|
    ensures TotalPrice(cart[k := cart[k].(quantity := cart[k].quantity + 1)])
         == TotalPrice(cart) + cart[k].product.price
  {
    SumsReplace(cart, k, cart[k].(quantity := cart[k].quantity + 1));
    LineTotalIncrement(cart[k]);
  }

  /** With unique ids, the `map` of `addToCart` touches exactly line `k`. */
  lemma IncrementAt(cart: Items, id: ProductId, k: nat)
    requires UniqueIds(cart) && k < |cart| && cart[k].product.id == id
    ensures IncrementMatching(cart, id) == cart[k := cart[k].(quantity := cart[k].quantity + 1)]
  {
  }

  /** `addToCart` raises the item count by exactly one. */
  lemma AddCount(cart: Items, p: Product)
    requires UniqueIds(cart)
    ensures CartCount(AddToCart(cart, p)) == CartCount(cart) + 1
  {
    if InCart(cart, p.id) {
      var k :| 0 <= k < |cart| && cart[k].product.id == p.id;
      IncrementAt(cart, p.id, k);
      SumsReplace(cart, k, cart[k].(quantity := cart[k].quantity + 1));
    } else {
      SumsAppend(cart, [LineItem(p, 1)]);
      assert [LineItem(p, 1)][..0] == [];
    }
  }

  /** One more unit on a line adds its unit price to the line total. */
  lemma LineTotalIncrement(x: LineItem)
    ensures LineTotal(x.(quantity := x.quantity + 1)) == LineTotal(x) + x.product.price
  {
    var price, q := x.product.price, x.quantity;
    assert price * (q + 1) == price * q + price;
  }

  /** `addToCart` of a new product raises the total by its price. */
  lemma AddNewTotal(cart: Items, p: Product)
    requires !InCart(cart, p.id)
    ensures TotalPrice(AddToCart(cart, p)) == TotalPrice(cart) + p.price
  {
    SumsAppend(cart, [LineItem(p, 1)]);
    assert [LineItem(p, 1)][..0] == [];
  }

  // ---------------------------------------------------------------------------------------
  // removeFromCart

  /** `removeFromCart` keeps exactly the lines with another id, in their order. */
  lemma {:induction false} RemoveKeepsOthers(cart: Items, id: ProductId)
    ensures forall x :: x in RemoveFromCart(cart, id) <==> x in cart && x.product.id != id
    ensures !InCart(RemoveFromCart(cart, id), id)
    ensures |RemoveFromCart(cart, id)| <= |cart|
    decreases |cart|
  {
    if |cart| > 0 {
      RemoveKeepsOthers(cart[1..], id);
      assert cart == [cart[0]] + cart[1..];
    }
  }

  /** Removing an id that is not in the cart leaves the cart unchanged. */
  lemma {:induction false} RemoveAbsent(cart: Items, id: ProductId)
    requires !InCart(cart, id)
    ensures RemoveFromCart(cart, id) == cart
    decreases |cart|
  {
    if |cart| > 0 {
      forall j | 0 <= j < |cart[1..]| ensures cart[1..][j].product.id != id {
        assert cart[1..][j] == cart[j + 1];
      }
      RemoveAbsent(cart[1..], id);
      assert cart == [cart[0]] + cart[1..];
    }
  }

  /** With unique ids, removing the id of line `k` drops exactly position `k`. */
  lemma {:induction false} RemoveAt(cart: Items, id: ProductId, k: nat)
    requires UniqueIds(cart) && k < |cart| && cart[k].product.id == id
    ensures RemoveFromCart(cart, id) == cart[..k] + cart[k + 1..]
    decreases |cart|
  {
    if k == 0 {
      forall j | 0 <= j < |cart[1..]| ensures cart[1..][j].product.id != id {
        assert cart[1..][j] == cart[j + 1];
      }
      RemoveAbsent(cart[1..], id);
    } else {
      RemoveAt(cart[1..], id, k - 1);
      assert cart[1..][..k - 1] + cart[1..][k..] == cart[1..k] + cart[k + 1..];
      assert [cart[0]] + cart[1..k] == cart[..k];
    }
  }

  /** Removing a line lowers the total by that line's price times quantity, and the count by its
    * quantity. */
  lemma RemoveSums(cart: Items, k: nat)
    requires UniqueIds(cart) && k < |cart|
    ensures TotalPrice(RemoveFromCart(cart, cart[k].product.id)) == TotalPrice(cart) - LineTotal(cart[k])
    ensures CartCount(RemoveFromCart(cart, cart[k].product.id)) == CartCount(cart) - cart[k].quantity
  {
    var pre, x, post := cart[..k], cart[k], cart[k + 1..];
    RemoveAt(cart, x.product.id, k);
    assert cart == (pre + [x]) + post;
    SumsAppend(pre + [x], post);
    SumsAppend(pre, [x]);
    SumsAppend(pre, post);
    assert [x][..0] == [];
  }

  /** `removeFromCart` keeps the cart invariant. */
  lemma RemoveKeepsValid(cart: Items, id: ProductId)
    requires Valid(cart)
    ensures Valid(RemoveFromCart(cart, id))
  {
    if InCart(cart, id) {
      var k :| 0 <= k < |cart| && cart[k].product.id == id;
      RemoveAt(cart, id, k);
    } else {
      RemoveAbsent(cart, id);
    }
  }

  // ---------------------------------------------------------------------------------------
  // updateQuantity

  /** A quantity of zero or less is a removal. */
  lemma UpdateNonPositiveRemoves(cart: Items, id: ProductId, q: int)
    requires q <= 0
    ensures UpdateQuantity(cart, id, q) == RemoveFromCart(cart, id)
    ensures !InCart(UpdateQuantity(cart, id, q), id)
  {
    RemoveKeepsOthers(cart, id);
  }

  /** A positive quantity replaces only the matching line's quantity, keeping length and order;
    * an absent id leaves the cart unchanged. */
  lemma UpdatePositive(cart: Items, id: ProductId, q: int)
    requires UniqueIds(cart) && q > 0
    ensures forall k :: 0 <= k < |cart| && cart[k].product.id == id ==>
              UpdateQuantity(cart, id, q) == cart[k := cart[k].(quantity := q)]
    ensures !InCart(cart, id) ==> UpdateQuantity(cart, id, q) == cart
  {
  }

  /** `updateQuantity` keeps the cart invariant for every requested quantity. */
  lemma UpdateKeepsValid(cart: Items, id: ProductId, q: int)
    requires Valid(cart)
    ensures Valid(UpdateQuantity(cart, id, q))
  {
    if q <= 0 {
      RemoveKeepsValid(cart, id);
    }
  }

  // ---------------------------------------------------------------------------------------
  // Any sequence of cart actions

  /** The user actions that change the cart. */
  datatype Action = Add(product: Product) | Remove(id: ProductId) | Update(id: ProductId, quantity: int)

  /** The cart after one action. */
  function Apply(cart: Items, a: Action): Items {
    match a
    case Add(p) => AddToCart(cart, p)
    case Remove(id) => RemoveFromCart(cart, id)
    case Update(id, q) => UpdateQuantity(cart, id, q)
  }

  /** The cart after a sequence of actions, in order. */
  function ApplyAll(cart: Items, actions: seq<Action>): Items
    decreases |actions|
  {
    if |actions| == 0 then cart else ApplyAll(Apply(cart, actions[0]), actions[1..])
  }

  /** Starting from any valid cart (the empty one in particular), every sequence of add, remove
    * and update actions leaves unique ids and quantities of at least one. */
  lemma {:induction false} ActionsKeepValid(cart: Items, actions: seq<Action>)
    requires Valid(cart)
    ensures Valid(ApplyAll(cart, actions))
    decreases |actions|
  {
    if |actions| > 0 {
      match actions[0] {
        case Add(p) => AddKeepsValid(cart, p);
        case Remove(id) => RemoveKeepsValid(cart, id);
        case Update(id, q) => UpdateKeepsValid(cart, id, q);
      }
      ActionsKeepValid(Apply(cart, actions[0]), actions[1..]);
    }
  }
}
