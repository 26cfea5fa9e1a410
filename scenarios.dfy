/** Verified event sequences stepped through the models, with what they produce. */
module Scenarios {
  import opened Wrappers
  import CartActions
  import Checkout

  function Payload(): Checkout.AutofillData {
    Checkout.AutofillData(Some("ada@example.com"), Some("Ada"), None, None)
  }

  /** One retry round while neither gated element reports ready: the effect
      schedules the next delay from the table and the timer re-injects the
      payload, leaving no timer pending. */
  method RetryRound(form: Checkout.PaymentForm)
    requires form.Valid() && form.autofillData == Some(Payload()) && form.pendingAutofillRef == Some(Payload())
    requires form.retryCountRef < Checkout.MaxRetries && form.timersPending == 0
    modifies form
    ensures form.Valid() && form.autofillData == Some(Payload()) && form.pendingAutofillRef == Some(Payload())
    ensures form.retryCountRef == old(form.retryCountRef) + 1 && form.timersPending == 0
    ensures form.retryDelays == old(form.retryDelays) + [Checkout.RetryDelays[old(form.retryCountRef)]]
    ensures form.remountKey == old(form.remountKey) + 1 && form.maxRetryWarnings == old(form.maxRetryWarnings)
  {
    form.AutofillEffect();
    form.RetryTimerFires();
  }

  /** An autofill arriving while neither gated element ever becomes ready:
      three retries at 100, 300 and 500, then a warning and no further timer.
      A second autofill after that gets no retry at all, because only a timer
      resets the retry counter and none is pending. */
  method AutofillGivesUpAfterThreeRetries()
    returns (delays: seq<nat>, warnings: nat, timersLeft: nat, remounts: nat, laterRetries: nat)
    ensures delays == [100, 300, 500]
    ensures warnings == 1 && timersLeft == 0 && remounts == 4
    ensures laterRetries == 0
  {
    var form := new Checkout.PaymentForm(true, true);
    form.FillCheckoutDetails(Payload());
    RetryRound(form);
    RetryRound(form);
    RetryRound(form);
    form.AutofillEffect();
    delays, warnings, timersLeft, remounts := form.retryDelays, form.maxRetryWarnings, form.timersPending, form.remountKey;

    form.FillCheckoutDetails(Payload());
    form.AutofillEffect();
    laterRetries := form.timersPending;
  }

  /** An autofill whose elements become ready before the first retry check:
      the check re-injects nothing and resets the counter. */
  method AutofillSettlesOnceReady() returns (retryCount: nat, reinjected: bool, ready: bool, email: string)
    ensures retryCount == 0 && !reinjected && ready
    ensures email == "ada@example.com"
  {
    var form := new Checkout.PaymentForm(true, true);
    form.OnPaymentReady();
    form.FillCheckoutDetails(Payload());
    form.AutofillEffect();
    var before := form.autofillData;
    form.OnLinkAuthenticationReady();
    form.OnAddressReady();
    form.RetryTimerFires();
    retryCount, reinjected, ready, email := form.retryCountRef, form.autofillData != before, form.ReadyToRender(), form.email;
  }

  /** A cookie for cart c1 with two lines counted, and the store holding two
      units of p1 in that cart: adding three more units of p1 issues exactly
      one set-quantity call, to 5, and the cookie takes the count of the cart
      as re-fetched. */
  method AddMultipleToExistingCart() returns (issued: seq<CartActions.Mutation>, cookie: Option<CartActions.CartCookie>)
    ensures issued == [CartActions.CartSetQuantity("p1", "c1", 5)]
    ensures cookie == Some(CartActions.CartCookie("c1", 5))
  {
    var session := new CartActions.CartSession(
      Some(CartActions.CartCookie("c1", 2)), map["c1" := map["p1" := 2]],
      (lines: CartActions.Lines, p: CartActions.ProductId) => lines[p := CartActions.CurrentQuantity(lines, p) + 1],
      (lines: CartActions.Lines, p: CartActions.ProductId, d: CartActions.Direction) => lines,
      (lines: CartActions.Lines, p: CartActions.ProductId, q: int) => lines[p := q],
      (lines: CartActions.Lines) => CartActions.CurrentQuantity(lines, "p1"));
    var r := session.AddMultipleToCart("p1", 3, true, "unused");
    issued, cookie := session.mutations, session.cookie;
  }

  /** A valid submission that the payment processor confirms: the form stays
      loading, the cart cookie is gone and the admin tag is revalidated. */
  method ConfirmedCheckoutClearsCart() returns (loading: bool, cookie: Option<CartActions.CartCookie>, tags: seq<string>)
    ensures loading && cookie.None?
    ensures tags == ["cart-c1", "admin-orders"]
  {
    var session := new CartActions.CartSession(
      Some(CartActions.CartCookie("c1", 1)), map["c1" := map["p1" := 1]],
      (lines: CartActions.Lines, p: CartActions.ProductId) => lines,
      (lines: CartActions.Lines, p: CartActions.ProductId, d: CartActions.Direction) => lines,
      (lines: CartActions.Lines, p: CartActions.ProductId, q: int) => lines,
      (lines: CartActions.Lines) => |lines|);
    var form := new Checkout.PaymentForm(true, true);
    var shipping := Checkout.ElementAddress("Ada", "1 Main St", None, "London", None, "N1", "GB", None);
    var step := form.Submit(Some(shipping));
    form.ConfirmResult(Checkout.Confirmed("pi_1", Some("secret")), session);
    assert CartActions.CartTag("c1") == "cart-c1";
    loading, cookie, tags := form.isLoading, session.cookie, session.revalidated;
  }
}
