/** The checkout dialog of `frontend/src/components/CheckoutModal.js`: a result view (none,
  * success, failure), a loading flag and an error text, stepped by the submit handler, the
  * try-again button and the close button. */
module CheckoutDialog {
  import opened Wrappers
  import opened JsValues
  import opened Text
  import opened Cart
  import opened Checkout

  /** `showResult`: `null`, `'success'` or `'failure'`. */
  datatype ResultView = NoResult | SuccessResult | FailureResult

  /** What the dialog renders. */
  datatype Screen = SuccessScreen | FailureScreen(message: string) | LoadingScreen | FormScreen

  const ConfirmationFailedText := "Order confirmation failed"
  const SubmitErrorText := "An error occurred while submitting your order"
  const NoInternetText := "No internet connection. Please check your network and try again"
  const UnknownErrorText := "Unknown error occurred"

  /** The dialog's own success test: `result && (result.id || result.success === true)`. */
  predicate DialogConfirms(p: Payload) {
    Truthy(p) && (TruthyNum(IdOf(p)) || SuccessFlag(p) == Some(true))
  }

  /** The dialog accepts what the submit callback returned. */
  predicate DialogSucceeds(o: Outcome) {
    o.Returned? && DialogConfirms(o.payload)
  }

  /** The message of the error the `catch` receives when the dialog does not accept: the
    * callback's own error, or the dialog's confirmation failure. */
  function CaughtMessage(o: Outcome): string {
    if o.Threw? then o.message else ConfirmationFailedText
  }

  /** The `catch` block's text: a missing message gives the default; network words or being
    * offline give the no-internet text; then "500" gives the server text; else the message. */
  function DialogErrorMessage(m: string, online: bool): string {
    if m == "" then SubmitErrorText
    else if Contains(m, "Failed to fetch") || Contains(m, "NetworkError") || !online then NoInternetText
    else if Contains(m, "500") then ServerErrorText
    else m
  }

  /** Which screen is rendered: success, then failure, then loading, then the form. */
  function ScreenFor(view: ResultView, isLoading: bool, errorMessage: string): Screen {
    if view == SuccessResult then SuccessScreen
    else if view == FailureResult then FailureScreen(if errorMessage != "" then errorMessage else UnknownErrorText)
    else if isLoading then LoadingScreen
    else FormScreen
  }

  /** The error text is never empty; offline, any present message becomes the no-internet text,
    * but a missing message keeps the default. */
  lemma DialogErrorCategories(m: string, online: bool)
    ensures DialogErrorMessage(m, online) != ""
    ensures DialogErrorMessage(m, online) in {SubmitErrorText, NoInternetText, ServerErrorText, m}
    ensures m == "" ==> DialogErrorMessage(m, online) == SubmitErrorText
    ensures m != "" && !online ==> DialogErrorMessage(m, online) == NoInternetText
    ensures m != "" && online && !Contains(m, "Failed to fetch") && !Contains(m, "NetworkError")
            && !Contains(m, "500")
            ==> DialogErrorMessage(m, online) == m
  {
  }

  /** Screen precedence: a result view hides the loading flag, the failure screen always has a
    * text, and the loading screen needs both no result and the flag. */
  lemma ScreenPrecedence(view: ResultView, isLoading: bool, errorMessage: string)
    ensures ScreenFor(view, isLoading, errorMessage) == SuccessScreen <==> view == SuccessResult
    ensures ScreenFor(view, isLoading, errorMessage).FailureScreen? <==> view == FailureResult
    ensures ScreenFor(view, isLoading, errorMessage).FailureScreen? ==>
              ScreenFor(view, isLoading, errorMessage).message != ""
    ensures ScreenFor(view, isLoading, errorMessage) == LoadingScreen <==> view == NoResult && isLoading
    ensures ScreenFor(view, isLoading, errorMessage) == FormScreen <==> view == NoResult && !isLoading
  {
  }

  /** Wired to the storefront's `handleCheckout`, the dialog shows success exactly when
    * `handleCheckout` returned normally: the storefront's confirmation is stricter than the
    * dialog's own test. */
  lemma SuccessIffCheckoutReturned(submitting: bool, online: bool, cart: Items, info: CustomerInfo, reply: Reply)
    ensures DialogSucceeds(CheckoutOutcome(submitting, online, cart, info, reply))
        <==> CheckoutOutcome(submitting, online, cart, info, reply).Returned?
  {
    ReturnsIffConfirmed(submitting, online, cart, info, reply);
  }

  /** The dialog's state; `onCloseCalls` counts the calls of its `onClose` callback. */
  class Dialog {
    var view: ResultView
    var isLoading: bool
    var errorMessage: string
    var onCloseCalls: nat

    constructor ()
      ensures view == NoResult && !isLoading && errorMessage == "" && onCloseCalls == 0
    {
      view := NoResult;
      isLoading := false;
      errorMessage := "";
      onCloseCalls := 0;
    }

    /** The screen rendered for the current state. */
    function CurrentScreen(): Screen
      reads this
    {
      ScreenFor(view, isLoading, errorMessage)
    }

    /** The start of `handleSubmit`, before the callback settles. */
    method BeginSubmit()
      modifies this
      ensures isLoading && errorMessage == "" && view == NoResult
      ensures onCloseCalls == old(onCloseCalls)
      ensures CurrentScreen() == LoadingScreen
    {
      isLoading := true;
      errorMessage := "";
      view := NoResult;
    }

    /** The rest of `handleSubmit`, given how the callback settled and `navigator.onLine`. */
    method FinishSubmit(o: Outcome, online: bool)
      modifies this
      ensures !isLoading
      ensures view == (if DialogSucceeds(o) then SuccessResult else FailureResult)
      ensures view == FailureResult ==> errorMessage == DialogErrorMessage(CaughtMessage(o), online)
      ensures view == SuccessResult ==> errorMessage == old(errorMessage)
      ensures onCloseCalls == old(onCloseCalls)
      ensures CurrentScreen() != LoadingScreen && CurrentScreen() != FormScreen
    {
      if o.Returned? && DialogConfirms(o.payload) {
        view := SuccessResult;
      } else {
        errorMessage := DialogErrorMessage(CaughtMessage(o), online);
        view := FailureResult;
      }
      // finally
      isLoading := false;
    }

    /** `handleSubmit` as one step. */
    method HandleSubmit(o: Outcome, online: bool)
      modifies this
      ensures !isLoading
      ensures view == (if DialogSucceeds(o) then SuccessResult else FailureResult)
      ensures errorMessage == (if DialogSucceeds(o) then "" else DialogErrorMessage(CaughtMessage(o), online))
      ensures onCloseCalls == old(onCloseCalls)
    {
      BeginSubmit();
      FinishSubmit(o, online);
    }

    /** `resetAndTryAgain`: back to the form without closing. */
    method ResetAndTryAgain()
      modifies this
      ensures view == NoResult && errorMessage == "" && !isLoading
      ensures onCloseCalls == old(onCloseCalls)
      ensures CurrentScreen() == FormScreen
    {
      view := NoResult;
      errorMessage := "";
      isLoading := false;
    }

    /** `closeModal`: the same reset, then the `onClose` callback. */
    method CloseModal()
      modifies this
      ensures view == NoResult && errorMessage == "" && !isLoading
      ensures onCloseCalls == old(onCloseCalls) + 1
    {
      view := NoResult;
      errorMessage := "";
      isLoading := false;
      onCloseCalls := onCloseCalls + 1;
    }
  }

  /** The dialog's submit button wired to the storefront's `handleCheckout` as `onSubmit`: the
    * dialog ends on the success screen exactly when the order was confirmed, which is exactly
    * when the storefront emptied the cart. */
  method SubmitThroughDialog(store: Storefront, dialog: Dialog, online: bool, reply: Reply)
    returns (outcome: Outcome)
    modifies store, dialog
    ensures outcome == CheckoutOutcome(old(store.isSubmittingOrder), online, old(store.cart), old(store.customerInfo), reply)
    ensures dialog.view == SuccessResult <==> outcome.Returned?
    ensures dialog.view == SuccessResult ==> store.cart == [] && store.customerInfo == EmptyCustomer
    ensures dialog.view == FailureResult ==>
              store.cart == old(store.cart) && store.customerInfo == old(store.customerInfo)
    ensures !dialog.isLoading && store.isSubmittingOrder == old(store.isSubmittingOrder)
  {
    dialog.BeginSubmit();
    var request;
    outcome, request := store.HandleCheckout(online, reply);
    SuccessIffCheckoutReturned(old(store.isSubmittingOrder), online, old(store.cart), old(store.customerInfo), reply);
    dialog.FinishSubmit(outcome, online);
  }
}
