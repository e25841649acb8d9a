/** Order submission in `frontend/src/MainApp.js` (`handleCheckout`): a re-entrancy guard, ordered
  * prechecks, the call to the order-creation endpoint, an ambiguity-tolerant reading of its
  * answer, re-classification of every error message, and release of the guard in `finally`. */
module Checkout {
  import opened Wrappers
  import opened JsValues
  import opened Text
  import opened Cart

  /** The checkout form's contact fields. */
  datatype CustomerInfo = CustomerInfo(name: string, email: string, phone: string, address: string)

  /** The form as the storefront initialises and resets it. */
  const EmptyCustomer := CustomerInfo("", "", "", "")

  /** `customerInfo.name && customerInfo.email && customerInfo.phone && customerInfo.address`:
    * every field non-empty (no trimming, so a field of spaces passes). */
  predicate AllFieldsFilled(c: CustomerInfo) {
    c.name != "" && c.email != "" && c.phone != "" && c.address != ""
  }

  /** One entry of the order's `items`: `{ product_id, quantity, price }`. */
  datatype OrderLine = OrderLine(productId: ProductId, quantity: int, price: int)

  /** The body posted to `/orders`. */
  datatype OrderRequest = OrderRequest(
    customer: CustomerInfo, items: seq<OrderLine>, totalAmount: int, notes: string)

  /** What `createOrder` resolves to: JSON `null`, a non-object value (a text body, a number, a
    * boolean; only its truthiness matters), or an object whose `id`, `success` and `message`
    * the storefront reads. */
  datatype Payload =
    | Null
    | Text(text: string)
    | Record(id: Option<int>, success: Option<bool>, message: Option<string>)

  /** `!!result`. */
  predicate Truthy(p: Payload) {
    match p
    case Null => false
    case Text(t) => t != ""
    case Record(_, _, _) => true
  }

  /** `result.success`, absent on anything but an object. */
  function SuccessFlag(p: Payload): Option<bool> {
    if p.Record? then p.success else None
  }

  /** `result.id`, absent on anything but an object. */
  function IdOf(p: Payload): Option<int> {
    if p.Record? then p.id else None
  }

  /** `result.message`, absent on anything but an object. */
  function MessageOf(p: Payload): Option<string> {
    if p.Record? then p.message else None
  }

  /** The settled promise of `apiService.createOrder`: a value, or an error with its message. */
  datatype Reply = Resolved(payload: Payload) | Rejected(message: string)

  /** How `handleCheckout` ends: it returns the server's result or throws an error. */
  datatype Outcome = Returned(payload: Payload) | Threw(message: string)

  const AlreadyProcessingText := "Order is already being processed"
  const OfflineText := "No internet connection"
  const EmptyCartText := "Cart is empty"
  const MissingFieldsText := "Please fill in all required fields"
  const NoResponseText := "No response received from server"
  const RejectedText := "Order was rejected by server"
  const UnconfirmedText := "Server did not confirm order success"
  const ConnectionErrorText := "Failed to connect to server. Check your internet connection"
  const ServerErrorText := "Server error. Please try again later"
  const InvalidRequestText := "Invalid order data"
  const NotAuthorizedText := "Not authorized for this action"
  const UnexpectedText := "An unexpected error occurred"

  /** The prechecks inside the `try`, in order: offline, empty cart, a missing field. */
  function Precheck(online: bool, cart: Items, info: CustomerInfo): Option<string> {
    if !online then Some(OfflineText)
    else if |cart| == 0 then Some(EmptyCartText)
    else if !AllFieldsFilled(info) then Some(MissingFieldsText)
    else None
  }

  /** The `items` of the order: one entry per cart line, in cart order. */
  function OrderLines(cart: Items): (r: seq<OrderLine>)
    ensures |r| == |cart|
  {
    seq(|cart|, k requires 0 <= k < |cart| =>
      OrderLine(cart[k].product.id, cart[k].quantity, cart[k].product.price))
  }

  /** `orderData`. */
  function BuildOrder(cart: Items, info: CustomerInfo): OrderRequest {
    OrderRequest(info, OrderLines(cart), TotalPrice(cart), "")
  }

  /** The sum of `price * quantity` over the order's items. */
  function LinesTotal(lines: seq<OrderLine>): int
    decreases |lines|
  {
    if |lines| == 0 then 0
    else LinesTotal(lines[..|lines| - 1]) + lines[|lines| - 1].price * lines[|lines| - 1].quantity
  }

  /** The order carries one item per cart line with that line's id, quantity and unit price, and
    * its `total_amount` is the sum of the items' price times quantity. */
  lemma {:induction false} OrderMatchesCart(cart: Items, info: CustomerInfo)
    ensures BuildOrder(cart, info).totalAmount == LinesTotal(BuildOrder(cart, info).items)
    ensures forall k :: 0 <= k < |cart| ==>
              BuildOrder(cart, info).items[k]
              == OrderLine(cart[k].product.id, cart[k].quantity, cart[k].product.price)
    decreases |cart|
  {
    if |cart| > 0 {
      var init := cart[..|cart| - 1];
      OrderMatchesCart(init, info);
      assert OrderLines(cart)[..|cart| - 1] == OrderLines(init);
    }
  }

  /** The reading of the server's answer, in order: nothing, an explicit `success === false`,
    * neither an id nor `success === true`; anything else is a confirmed order. */
  function Interpret(p: Payload): Result<Payload, string> {
    if !Truthy(p) then Err(NoResponseText)
    else if SuccessFlag(p) == Some(false) then Err(StrOrDefault(MessageOf(p), RejectedText))
    else if !TruthyNum(IdOf(p)) && SuccessFlag(p) != Some(true) then Err(UnconfirmedText)
    else Ok(p)
  }

  /** The `catch` block's re-classification of an error message. */
  function CheckoutErrorMessage(m: string): string {
    if m == "" then UnexpectedText
    else if Contains(m, "Failed to fetch") || Contains(m, "NetworkError") || Contains(m, "fetch")
    then ConnectionErrorText
    else if Contains(m, "500") then ServerErrorText
    else if Contains(m, "400") || Contains(m, "422") then InvalidRequestText
    else if Contains(m, "401") || Contains(m, "403") then NotAuthorizedText
    else m
  }

  /** What `handleCheckout` does, given the guard flag, connectivity, the cart, the form and the
    * settled `createOrder` call (consulted only when the prechecks pass). */
  function CheckoutOutcome(submitting: bool, online: bool, cart: Items, info: CustomerInfo, reply: Reply)
    : Outcome
  {
    if submitting then Threw(AlreadyProcessingText)
    else if Precheck(online, cart, info).Some? then Threw(CheckoutErrorMessage(Precheck(online, cart, info).value))
    else match reply
      case Rejected(m) => Threw(CheckoutErrorMessage(m))
      case Resolved(p) =>
        match Interpret(p)
        case Err(m) => Threw(CheckoutErrorMessage(m))
        case Ok(_) => Returned(p)
  }

  /** The server confirmed the order: a truthy answer, not marked failed, with an id or an
    * explicit success flag. */
  predicate Confirmed(p: Payload) {
    Truthy(p) && SuccessFlag(p) != Some(false) && (TruthyNum(IdOf(p)) || SuccessFlag(p) == Some(true))
  }

  /** `handleCheckout` returns normally exactly when no call was in flight, every precheck passed
    * and the server confirmed the order; it then returns the server's answer unchanged. */
  lemma ReturnsIffConfirmed(submitting: bool, online: bool, cart: Items, info: CustomerInfo, reply: Reply)
    ensures CheckoutOutcome(submitting, online, cart, info, reply).Returned?
        <==> !submitting && online && |cart| > 0 && AllFieldsFilled(info)
             && reply.Resolved? && Confirmed(reply.payload)
    ensures CheckoutOutcome(submitting, online, cart, info, reply).Returned? ==>
              CheckoutOutcome(submitting, online, cart, info, reply).payload == reply.payload
  {
  }

  /** The prechecks run in order and each one wins over the later ones. */
  lemma PrecheckOrder(online: bool, cart: Items, info: CustomerInfo)
    ensures !online ==> Precheck(online, cart, info) == Some(OfflineText)
    ensures online && |cart| == 0 ==> Precheck(online, cart, info) == Some(EmptyCartText)
    ensures online && |cart| > 0 && !AllFieldsFilled(info) ==>
              Precheck(online, cart, info) == Some(MissingFieldsText)
    ensures Precheck(online, cart, info).None? <==> online && |cart| > 0 && AllFieldsFilled(info)
  {
  }

  /** A server answer with `success === false` is rejected with its own message, or a generic one
    * when it has none, even when it also carries an id. */
  lemma ExplicitFailureWins(id: Option<int>, message: Option<string>)
    ensures Interpret(Record(id, Some(false), message))
         == Err(if TruthyStr(message) then message.value else RejectedText)
  {
  }

  /** The re-classification looks for network words first, then 500, then 400/422, then
    * 401/403, passes any other message through and replaces a missing one; it never yields an
    * empty message. */
  lemma ErrorMessageCategories(m: string)
    ensures CheckoutErrorMessage(m) != ""
    ensures m != "" && Contains(m, "fetch") ==> CheckoutErrorMessage(m) == ConnectionErrorText
    ensures m != "" && Contains(m, "NetworkError") ==> CheckoutErrorMessage(m) == ConnectionErrorText
    ensures m != "" && !Contains(m, "fetch") && !Contains(m, "NetworkError") && Contains(m, "500")
            ==> CheckoutErrorMessage(m) == ServerErrorText
    ensures m != "" && !Contains(m, "fetch") && !Contains(m, "NetworkError") && !Contains(m, "500")
            && (Contains(m, "400") || Contains(m, "422"))
            ==> CheckoutErrorMessage(m) == InvalidRequestText
    ensures m != "" && !Contains(m, "fetch") && !Contains(m, "NetworkError") && !Contains(m, "500")
            && !Contains(m, "400") && !Contains(m, "422") && (Contains(m, "401") || Contains(m, "403"))
            ==> CheckoutErrorMessage(m) == NotAuthorizedText
    ensures m == "" ==> CheckoutErrorMessage(m) == UnexpectedText
    ensures CheckoutErrorMessage(m) in
              {UnexpectedText, ConnectionErrorText, ServerErrorText, InvalidRequestText, NotAuthorizedText, m}
    ensures m != "" && !Contains(m, "fetch") && !Contains(m, "NetworkError") && !Contains(m, "500")
            && !Contains(m, "400") && !Contains(m, "422") && !Contains(m, "401") && !Contains(m, "403")
            ==> CheckoutErrorMessage(m) == m
  {
    if m != "" && Contains(m, "Failed to fetch") {
      var i := ContainsWitness(m, "Failed to fetch");
      assert m[i + 10..i + 15] == "fetch" by {
        assert m[i..i + 15][10..15] == "Failed to fetch"[10..15];
      }
      ContainsAt(m, "fetch", i + 10);
    }
  }

  /** The storefront's order-submission state: the cart, the checkout form and the guard flag. */
  class Storefront {
    var cart: Items
    var customerInfo: CustomerInfo
    var isSubmittingOrder: bool

    /** The storefront's initial state. */
    constructor ()
      ensures cart == [] && customerInfo == EmptyCustomer && !isSubmittingOrder
    {
      cart := [];
      customerInfo := EmptyCustomer;
      isSubmittingOrder := false;
    }

    /** `handleCheckout()`, with `navigator.onLine` as `online` and the settled `createOrder`
      * call as `reply`; `request` is the order posted, absent when no call was made. */
    method HandleCheckout(online: bool, reply: Reply) returns (outcome: Outcome, request: Option<OrderRequest>)
      modifies this
      ensures outcome == CheckoutOutcome(old(isSubmittingOrder), online, old(cart), old(customerInfo), reply)
      ensures request.Some? <==> !old(isSubmittingOrder) && Precheck(online, old(cart), old(customerInfo)).None?
      ensures request.Some? ==> request.value == BuildOrder(old(cart), old(customerInfo))
      ensures outcome.Threw? ==> cart == old(cart) && customerInfo == old(customerInfo)
      ensures outcome.Returned? ==> cart == [] && customerInfo == EmptyCustomer
      ensures isSubmittingOrder == old(isSubmittingOrder)
    {
      request := None;
      if isSubmittingOrder {
        // thrown before the `try`: the `finally` does not run
        outcome := Threw(AlreadyProcessingText);
        return;
      }
      isSubmittingOrder := true;
      var raised: Option<string> := Precheck(online, cart, customerInfo);
      if raised.None? {
        request := Some(BuildOrder(cart, customerInfo));
        match reply {
          case Rejected(m) =>
            raised := Some(m);
          case Resolved(p) =>
            if !Truthy(p) {
              raised := Some(NoResponseText);
            } else if SuccessFlag(p) == Some(false) {
              raised := Some(StrOrDefault(MessageOf(p), RejectedText));
            } else if !TruthyNum(IdOf(p)) && SuccessFlag(p) != Some(true) {
              raised := Some(UnconfirmedText);
            } else {
              cart := [];
              customerInfo := EmptyCustomer;
              outcome := Returned(p);
            }
        }
      }
      if raised.Some? {
        outcome := Threw(CheckoutErrorMessage(raised.value));
      }
      // finally
      isSubmittingOrder := false;
    }
  }
}
