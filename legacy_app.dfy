/** The older storefront component in `frontend/app.js`: the same cart operations except that only
  * a quantity of exactly zero removes a line, a two-step checkout (open the form, then submit),
  * and a submit path that trusts any non-null server answer. */
module LegacyApp {
  import opened Wrappers
  import opened Cart
  import opened Checkout

  /** `updateQuantity` of the older component: only exactly zero removes; any other value,
    * negative included, is stored on the matching line. */
  function LegacyUpdateQuantity(cart: Items, id: ProductId, q: int): Items {
    if q == 0 then RemoveFromCart(cart, id) else SetMatching(cart, id, q)
  }

  /** Setting the quantity of a product that is not in the cart changes nothing. */
  lemma {:induction false} SetAbsent(cart: Items, id: ProductId, q: int)
    requires !InCart(cart, id)
    ensures SetMatching(cart, id, q) == cart
  {
    forall k | 0 <= k < |cart| ensures SetMatching(cart, id, q)[k] == cart[k] {
      assert cart[k].product.id != id;
    }
  }

  /** The two `updateQuantity` variants disagree exactly when a negative quantity is given for a
    * product in the cart: the newer one removes the line, the older one keeps it. */
  lemma VariantsDifferOnlyOnNegative(cart: Items, id: ProductId, q: int)
    ensures LegacyUpdateQuantity(cart, id, q) != UpdateQuantity(cart, id, q) <==> q < 0 && InCart(cart, id)
  {
    if q < 0 {
      if InCart(cart, id) {
        var k :| 0 <= k < |cart| && cart[k].product.id == id;
        assert LegacyUpdateQuantity(cart, id, q)[k].product.id == id;
        RemoveKeepsOthers(cart, id);
      } else {
        SetAbsent(cart, id, q);
        RemoveAbsent(cart, id);
      }
    }
  }

  /** A negative quantity is stored as given, so the older component's cart can hold a line with
    * a non-positive quantity, which the newer one never does. */
  lemma LegacyStoresNegative(cart: Items, id: ProductId, q: int, k: nat)
    requires k < |cart| && cart[k].product.id == id && q < 0
    ensures LegacyUpdateQuantity(cart, id, q)[k] == cart[k].(quantity := q)
    ensures !PositiveQuantities(LegacyUpdateQuantity(cart, id, q))
  {
    assert LegacyUpdateQuantity(cart, id, q)[k].quantity == q;
  }

  /** With a stored negative quantity the item count drops below the sum of the other lines. */
  lemma LegacyNegativeCount(cart: Items, id: ProductId, q: int, k: nat)
    requires UniqueIds(cart) && k < |cart| && cart[k].product.id == id && q < 0
    ensures CartCount(LegacyUpdateQuantity(cart, id, q)) == CartCount(cart) - cart[k].quantity + q
    ensures TotalPrice(LegacyUpdateQuantity(cart, id, q))
         == TotalPrice(cart) - LineTotal(cart[k]) + LineTotal(cart[k].(quantity := q))
  {
    assert LegacyUpdateQuantity(cart, id, q) == cart[k := cart[k].(quantity := q)];
    SumsReplace(cart, k, cart[k].(quantity := q));
  }

  /** One entry of the older order body: it also carries the product name. */
  datatype LegacyLine = LegacyLine(productId: ProductId, productName: string, quantity: int, price: int)

  /** The older order body: `{ customer, items, total, notes }`. */
  datatype LegacyOrder = LegacyOrder(customer: CustomerInfo, items: seq<LegacyLine>, total: int, notes: string)

  function LegacyOrderFor(cart: Items, info: CustomerInfo): (r: LegacyOrder)
    ensures |r.items| == |cart|
  {
    LegacyOrder(info,
      seq(|cart|, k requires 0 <= k < |cart| =>
        LegacyLine(cart[k].product.id, cart[k].product.name, cart[k].quantity, cart[k].product.price)),
      TotalPrice(cart), "")
  }

  /** The older body carries the same lines and total as the newer one, plus the names. */
  lemma LegacyOrderAgrees(cart: Items, info: CustomerInfo)
    ensures LegacyOrderFor(cart, info).total == BuildOrder(cart, info).totalAmount
    ensures forall k :: 0 <= k < |cart| ==>
              var l := LegacyOrderFor(cart, info).items[k];
              OrderLine(l.productId, l.quantity, l.price) == BuildOrder(cart, info).items[k]
              && l.productName == cart[k].product.name
  {
  }

  /** The alert `handleOrderSubmit` shows, if any. */
  datatype Notice = NoNotice | MissingFieldsAlert | SuccessAlert(orderId: Option<int>) | FailureAlert

  /** The older submit path counts any non-null answer as success: reading `result.id` throws
    * only on `null`, and nothing else about the answer is inspected. */
  predicate LegacyAccepts(reply: Reply) {
    reply.Resolved? && !reply.payload.Null?
  }

  /** What `handleOrderSubmit` shows: fields are checked before the cart. */
  function LegacyNoticeFor(cart: Items, info: CustomerInfo, reply: Reply): Notice {
    if !AllFieldsFilled(info) then MissingFieldsAlert
    else if |cart| == 0 then NoNotice
    else if LegacyAccepts(reply) then SuccessAlert(IdOf(reply.payload))
    else FailureAlert
  }

  /** Every order the newer checkout confirms, the older submit path confirms too. */
  lemma LegacyAcceptsConfirmed(cart: Items, info: CustomerInfo, reply: Reply)
    requires CheckoutOutcome(false, true, cart, info, reply).Returned?
    ensures LegacyNoticeFor(cart, info, reply).SuccessAlert?
  {
    ReturnsIffConfirmed(false, true, cart, info, reply);
  }

  /** The converse fails: an answer with `success === false` is a failure for the newer checkout
    * and a success for the older one. */
  lemma LegacyAcceptsExplicitFailure(cart: Items, info: CustomerInfo)
    requires |cart| > 0 && AllFieldsFilled(info)
    ensures CheckoutOutcome(false, true, cart, info, Resolved(Record(None, Some(false), None))).Threw?
    ensures LegacyNoticeFor(cart, info, Resolved(Record(None, Some(false), None))) == SuccessAlert(None)
  {
    ReturnsIffConfirmed(false, true, cart, info, Resolved(Record(None, Some(false), None)));
  }

  /** The state of the older storefront component that its cart and checkout handlers change. */
  class LegacyStore {
    var cart: Items
    var customerInfo: CustomerInfo
    var showCart: bool
    var showCheckout: bool

    constructor ()
      ensures cart == [] && customerInfo == EmptyCustomer && !showCart && !showCheckout
    {
      cart := [];
      customerInfo := EmptyCustomer;
      showCart := false;
      showCheckout := false;
    }

    /** `addToCart`: the same update as the newer storefront's. */
    method AddToCart(p: Product)
      modifies this
      ensures cart == Cart.AddToCart(old(cart), p)
      ensures customerInfo == old(customerInfo) && showCart == old(showCart) && showCheckout == old(showCheckout)
    {
      cart := Cart.AddToCart(cart, p);
    }

    /** `removeFromCart`: the same filter as the newer storefront's. */
    method RemoveFromCart(id: ProductId)
      modifies this
      ensures cart == Cart.RemoveFromCart(old(cart), id)
      ensures customerInfo == old(customerInfo) && showCart == old(showCart) && showCheckout == old(showCheckout)
    {
      cart := Cart.RemoveFromCart(cart, id);
    }

    /** `updateQuantity` with the exactly-zero rule. */
    method UpdateQuantity(id: ProductId, q: int)
      modifies this
      ensures cart == LegacyUpdateQuantity(old(cart), id, q)
      ensures customerInfo == old(customerInfo) && showCart == old(showCart) && showCheckout == old(showCheckout)
    {
      if q == 0 {
        RemoveFromCart(id);
      } else {
        cart := SetMatching(cart, id, q);
      }
    }

    /** `handleCheckout`: with an empty cart nothing happens; otherwise the checkout form opens and
      * the cart panel closes. */
    method HandleCheckout()
      modifies this
      ensures |old(cart)| == 0 ==> showCheckout == old(showCheckout) && showCart == old(showCart)
      ensures |old(cart)| > 0 ==> showCheckout && !showCart
      ensures cart == old(cart) && customerInfo == old(customerInfo)
    {
      if |cart| == 0 {
        return;
      }
      showCheckout := true;
      showCart := false;
    }

    /** `handleOrderSubmit`, with the settled `createOrder` call as `reply`; `request` is the
      * order posted, absent when the handler returned before calling the server. */
    method HandleOrderSubmit(reply: Reply) returns (notice: Notice, request: Option<LegacyOrder>)
      modifies this
      ensures notice == LegacyNoticeFor(old(cart), old(customerInfo), reply)
      ensures request.Some? <==> AllFieldsFilled(old(customerInfo)) && |old(cart)| > 0
      ensures request.Some? ==> request.value == LegacyOrderFor(old(cart), old(customerInfo))
      ensures notice.SuccessAlert? ==> cart == [] && !showCheckout && customerInfo == EmptyCustomer
      ensures !notice.SuccessAlert? ==>
                cart == old(cart) && showCheckout == old(showCheckout) && customerInfo == old(customerInfo)
      ensures showCart == old(showCart)
    {
      request := None;
      if !AllFieldsFilled(customerInfo) {
        notice := MissingFieldsAlert;
        return;
      }
      if |cart| == 0 {
        notice := NoNotice;
        return;
      }
      request := Some(LegacyOrderFor(cart, customerInfo));
      if reply.Resolved? && !reply.payload.Null? {
        notice := SuccessAlert(IdOf(reply.payload));
        cart := [];
        showCheckout := false;
        customerInfo := EmptyCustomer;
      } else {
        notice := FailureAlert;
      }
    }
  }
}
