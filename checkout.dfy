/** The checkout payment form: three independently loading payment elements
    (link authentication, address, payment) that each report readiness, a
    voice-agent autofill that remounts all three of them, giving the link
    authentication and address elements new default values, and retries a
    bounded number of times, the billing-address section, and the
    submission path that validates both addresses before confirming payment. */
module Checkout {
  import opened Wrappers
  import CartActions

  datatype Field = Name | Line1 | Line2 | City | State | PostalCode | Country | Phone | TaxId | Email

  /** An address record; an absent optional value is the empty string. */
  datatype Address = Address(name: string, line1: string, line2: string, city: string, state: string,
                             postalCode: string, country: string, phone: string, taxId: string, email: string)

  const EmptyAddress: Address := Address("", "", "", "", "", "", "", "", "", "")

  function Get(a: Address, f: Field): string {
    match f
    case Name => a.name
    case Line1 => a.line1
    case Line2 => a.line2
    case City => a.city
    case State => a.state
    case PostalCode => a.postalCode
    case Country => a.country
    case Phone => a.phone
    case TaxId => a.taxId
    case Email => a.email
  }

  /** The record spread of the billing section's field handler: `{ ...values, [name]: value }`. */
  function WithField(a: Address, f: Field, v: string): (r: Address)
    ensures Get(r, f) == v
    ensures forall g :: g != f ==> Get(r, g) == Get(a, g)
  {
    match f
    case Name => a.(name := v)
    case Line1 => a.(line1 := v)
    case Line2 => a.(line2 := v)
    case City => a.(city := v)
    case State => a.(state := v)
    case PostalCode => a.(postalCode := v)
    case Country => a.(country := v)
    case Phone => a.(phone := v)
    case TaxId => a.(taxId := v)
    case Email => a.(email := v)
  }

  /** The messages the form can show, by translation key, or a raw message
      from the payment processor or a thrown error. */
  datatype Message =
    | NameRequired | Line1Required | CityRequired | PostalCodeRequired | CountryRequired
    | FillRequiredFields | UnexpectedError
    | Raw(text: string)

  /** The fields the address schema requires. */
  const RequiredFields: set<Field> := {Name, Line1, City, PostalCode, Country}

  /** The message shown under a required field left empty. */
  function RequiredMessage(f: Field): (m: Message)
    requires f in RequiredFields
    ensures !m.Raw? && m != FillRequiredFields && m != UnexpectedError
  {
    match f
    case Name => NameRequired
    case Line1 => Line1Required
    case City => CityRequired
    case PostalCode => PostalCodeRequired
    case Country => CountryRequired
  }

  /** Different required fields carry different messages. */
  lemma RequiredMessagesDistinct(f: Field, g: Field)
    requires f in RequiredFields && g in RequiredFields
    ensures RequiredMessage(f) == RequiredMessage(g) <==> f == g
  {
  }

  /** The address schema accepts an address whose required fields are filled in. */
  predicate AddressValid(a: Address): (ok: bool)
    ensures ok <==> forall f :: f in RequiredFields ==> Get(a, f) != ""
  {
    a.name != "" && a.line1 != "" && a.city != "" && a.postalCode != "" && a.country != ""
  }

  /** The schema's field errors: one message per required field left empty. */
  function FieldErrors(a: Address): (errors: map<Field, Message>)
    ensures errors.Keys <= RequiredFields
    ensures forall f :: f in RequiredFields ==> (f in errors <==> Get(a, f) == "")
    ensures forall f :: f in errors ==> errors[f] == RequiredMessage(f)
  {
    map f | f in RequiredFields && Get(a, f) == "" :: RequiredMessage(f)
  }

  /** The schema reports no field error exactly when it accepts the address. */
  lemma FieldErrorsEmptyIffValid(a: Address)
    ensures FieldErrors(a) == map[] <==> AddressValid(a)
  {
    if !AddressValid(a) {
      var f :| f in RequiredFields && Get(a, f) == "";
      assert f in FieldErrors(a);
    }
  }

  /** The value the address element reports, in its own shape. */
  datatype ElementAddress = ElementAddress(name: string, line1: string, line2: Option<string>, city: string,
                                           state: Option<string>, postalCode: string, country: string,
                                           phone: Option<string>)

  /** The address element's value as an address record with the given email;
      tax id empty. */
  function FromElement(v: ElementAddress, email: string): (a: Address)
    ensures a.name == v.name && a.line1 == v.line1 && a.city == v.city
    ensures a.postalCode == v.postalCode && a.country == v.country
    ensures a.line2 == v.line2.GetOr("") && a.state == v.state.GetOr("") && a.phone == v.phone.GetOr("")
    ensures a.taxId == "" && a.email == email
  {
    Address(v.name, v.line1, v.line2.GetOr(""), v.city, v.state.GetOr(""), v.postalCode, v.country,
            v.phone.GetOr(""), "", email)
  }

  datatype AutofillAddress = AutofillAddress(line1: Option<string>, line2: Option<string>, city: Option<string>,
                                             state: Option<string>, postalCode: Option<string>,
                                             country: Option<string>)

  /** The payload the voice agent passes to fillCheckoutDetails. */
  datatype AutofillData = AutofillData(email: Option<string>, name: Option<string>,
                                       address: Option<AutofillAddress>, phone: Option<string>)

  /** What the checkbox reports. */
  datatype CheckedState = Checked | Unchecked | Indeterminate

  /** The billing and shipping details sent to confirmPayment. */
  datatype ConfirmRequest = ConfirmRequest(email: string, billing: Address, shipping: Address)

  /** How far one submission got: stopped before validation, rejected by
      validation, or sent to the payment processor. */
  datatype SubmitStep = NotSubmitted | Rejected | Confirming(request: ConfirmRequest)

  /** What confirmPayment answers: an error with an optional message, or the
      payment intent. */
  datatype ConfirmOutcome = Declined(message: Option<string>) | Confirmed(paymentIntentId: string, clientSecret: Option<string>)

  /** The query of the success page the form navigates to. */
  datatype SuccessRedirect = SuccessRedirect(paymentIntent: string, paymentIntentClientSecret: string)

  const MaxRetries: nat := 3
  const RetryDelays: seq<nat> := [100, 300, 500]

  /** The delay of retry `attempt` (counted from 1): the delay table's entry,
      or 500 where the table has none. */
  function RetryDelay(attempt: int): (d: nat)
    ensures 1 <= attempt <= MaxRetries ==> d == RetryDelays[attempt - 1]
    ensures d in RetryDelays
  {
    if 1 <= attempt <= |RetryDelays| then RetryDelays[attempt - 1] else 500
  }

  /** Later attempts wait strictly longer. */
  lemma RetryDelaysIncrease(j: int, k: int)
    requires 1 <= j < k <= MaxRetries
    ensures RetryDelay(j) < RetryDelay(k)
  {
  }

  /** The message shown for an error: its own message when it has one,
      otherwise the translated "unexpected error". */
  function ErrorMessage(message: Option<string>): (m: Message)
    ensures message.Some? ==> m == Raw(message.value)
    ensures message.None? ==> m == UnexpectedError
  {
    if message.Some? then Raw(message.value) else UnexpectedError
  }

  class PaymentForm {
    var formErrorMessage: Option<Message>
    var fieldErrors: map<Field, Message>
    var isLoading: bool
    var isLinkAuthenticationReady: bool
    var isAddressReady: bool
    var isPaymentReady: bool
    var billingAddressValues: Address
    var sameAsShipping: bool
    var email: string
    var autofillData: Option<AutofillData>
    /** The key all three elements are mounted under; a new value remounts them. */
    var remountKey: nat

    // The refs: read and written by callbacks without causing a render.
    var linkAuthReadyRef: bool
    var addressReadyRef: bool
    var retryCountRef: nat
    var pendingAutofillRef: Option<AutofillData>

    /** Whether the payment processor's client and the elements handle are loaded. */
    var stripeLoaded: bool
    var elementsLoaded: bool

    /** Retry timers scheduled and not yet fired. */
    var timersPending: nat
    /** The delay of every retry scheduled so far, oldest first. */
    var retryDelays: seq<nat>
    /** How many times the "max retries reached" warning was issued. */
    var maxRetryWarnings: nat
    /** The tax ids saved on submission, oldest first. */
    var savedTaxIds: seq<string>
    /** Where the form navigated after a confirmed payment. */
    var redirectedTo: Option<SuccessRedirect>

    /** The object invariant: the retry counter stays within its cap, and a
        ready ref never claims readiness its element has not reported. */
    ghost predicate Valid()
      reads this
    {
      && retryCountRef <= MaxRetries
      && (linkAuthReadyRef ==> isLinkAuthenticationReady)
      && (addressReadyRef ==> isAddressReady)
    }

    /** readyToRender: the handles are loaded and all three elements are ready. */
    predicate ReadyToRender(): (ready: bool)
      reads this
      ensures ready <==> stripeLoaded && elementsLoaded && isLinkAuthenticationReady && isAddressReady && isPaymentReady
    {
      stripeLoaded && elementsLoaded && isAddressReady && isLinkAuthenticationReady && isPaymentReady
    }

    /** The form's state on first render. */
    constructor (stripeLoaded: bool, elementsLoaded: bool)
      ensures Valid()
      ensures formErrorMessage.None? && fieldErrors == map[] && !isLoading
      ensures !isLinkAuthenticationReady && !isAddressReady && !isPaymentReady
      ensures billingAddressValues == EmptyAddress && sameAsShipping && email == ""
      ensures autofillData.None? && remountKey == 0
      ensures !linkAuthReadyRef && !addressReadyRef && retryCountRef == 0 && pendingAutofillRef.None?
      ensures this.stripeLoaded == stripeLoaded && this.elementsLoaded == elementsLoaded
      ensures timersPending == 0 && retryDelays == [] && maxRetryWarnings == 0
      ensures savedTaxIds == [] && redirectedTo.None?
    {
      formErrorMessage := None;
      fieldErrors := map[];
      isLoading := false;
      isLinkAuthenticationReady := false;
      isAddressReady := false;
      isPaymentReady := false;
      billingAddressValues := EmptyAddress;
      sameAsShipping := true;
      email := "";
      autofillData := None;
      remountKey := 0;
      linkAuthReadyRef := false;
      addressReadyRef := false;
      retryCountRef := 0;
      pendingAutofillRef := None;
      this.stripeLoaded := stripeLoaded;
      this.elementsLoaded := elementsLoaded;
      timersPending := 0;
      retryDelays := [];
      maxRetryWarnings := 0;
      savedTaxIds := [];
      redirectedTo := None;
    }

    /** The payment processor's hooks report new handles. */
    method ProvidersChanged(stripe: bool, elements: bool)
      requires Valid()
      modifies this`stripeLoaded, this`elementsLoaded
      ensures Valid()
      ensures stripeLoaded == stripe && elementsLoaded == elements
    {
      stripeLoaded, elementsLoaded := stripe, elements;
    }

    /** window.fillCheckoutDetails: keep the payload as pending, take its email
        when it has one, and hand it to the autofill effect. */
    method FillCheckoutDetails(data: AutofillData)
      requires Valid()
      modifies this`pendingAutofillRef, this`email, this`autofillData
      ensures Valid()
      ensures pendingAutofillRef == Some(data) && autofillData == Some(data)
      ensures email == if Truthy(data.email) then data.email.value else old(email)
    {
      pendingAutofillRef := Some(data);
      if Truthy(data.email) {
        email := data.email.value;
      }
      autofillData := Some(data);
    }

    /** The autofill effect, run after the autofill data changed: reset both
        gated ready refs, bump the remount key, and schedule a retry check
        unless the retry cap is reached, in which case only warn. */
    method AutofillEffect()
      requires Valid()
      modifies this`linkAuthReadyRef, this`addressReadyRef, this`remountKey, this`retryCountRef,
               this`timersPending, this`retryDelays, this`maxRetryWarnings
      ensures Valid()
      ensures old(autofillData).None? ==> unchanged(this)
      ensures old(autofillData).Some? ==>
                && !linkAuthReadyRef && !addressReadyRef
                && remountKey == old(remountKey) + 1
                && (old(retryCountRef) < MaxRetries ==>
                      && retryCountRef == old(retryCountRef) + 1
                      && timersPending == old(timersPending) + 1
                      && retryDelays == old(retryDelays) + [RetryDelays[retryCountRef - 1]]
                      && maxRetryWarnings == old(maxRetryWarnings))
                && (old(retryCountRef) == MaxRetries ==>
                      && retryCountRef == old(retryCountRef)
                      && timersPending == old(timersPending)
                      && retryDelays == old(retryDelays)
                      && maxRetryWarnings == old(maxRetryWarnings) + 1)
      ensures ReadyToRender() == old(ReadyToRender())
    {
      if autofillData.None? {
        return;
      }
      linkAuthReadyRef := false;
      addressReadyRef := false;
      remountKey := remountKey + 1;
      if retryCountRef < MaxRetries {
        retryCountRef := retryCountRef + 1;
        var delay := RetryDelay(retryCountRef);
        timersPending := timersPending + 1;
        retryDelays := retryDelays + [delay];
      } else {
        maxRetryWarnings := maxRetryWarnings + 1;
      }
    }

    /** A scheduled retry timer fires: while a payload is pending and either
        gated element is not ready, re-inject a copy of the payload; otherwise
        reset the retry counter. */
    method RetryTimerFires()
      requires Valid() && timersPending > 0
      modifies this`autofillData, this`retryCountRef, this`timersPending
      ensures Valid()
      ensures timersPending == old(timersPending) - 1
      ensures pendingAutofillRef.Some? && (!linkAuthReadyRef || !addressReadyRef) ==>
                autofillData == pendingAutofillRef && retryCountRef == old(retryCountRef)
      ensures !(pendingAutofillRef.Some? && (!linkAuthReadyRef || !addressReadyRef)) ==>
                autofillData == old(autofillData) && retryCountRef == 0
    {
      timersPending := timersPending - 1;
      if pendingAutofillRef.Some? && (!linkAuthReadyRef || !addressReadyRef) {
        autofillData := Some(pendingAutofillRef.value);
      } else {
        retryCountRef := 0;
      }
    }

    /** The link authentication element's onReady. */
    method OnLinkAuthenticationReady()
      requires Valid()
      modifies this`linkAuthReadyRef, this`isLinkAuthenticationReady
      ensures Valid()
      ensures linkAuthReadyRef && isLinkAuthenticationReady
      ensures old(ReadyToRender()) ==> ReadyToRender()
    {
      linkAuthReadyRef := true;
      isLinkAuthenticationReady := true;
    }

    /** The address element's onReady. */
    method OnAddressReady()
      requires Valid()
      modifies this`addressReadyRef, this`isAddressReady
      ensures Valid()
      ensures addressReadyRef && isAddressReady
      ensures old(ReadyToRender()) ==> ReadyToRender()
    {
      addressReadyRef := true;
      isAddressReady := true;
    }

    /** The payment element's onReady. */
    method OnPaymentReady()
      requires Valid()
      modifies this`isPaymentReady
      ensures Valid()
      ensures isPaymentReady
      ensures old(ReadyToRender()) ==> ReadyToRender()
    {
      isPaymentReady := true;
    }

    /** The link authentication element's onChange: a complete email is taken. */
    method OnEmailChange(complete: bool, value: string)
      requires Valid()
      modifies this`email
      ensures Valid()
      ensures email == if complete then value else old(email)
    {
      if complete {
        email := value;
      }
    }

    /** The address element's onChange: mirrored into the billing values only
        while billing is the same as shipping and the element is ready. */
    method OnAddressChange(value: ElementAddress)
      requires Valid()
      modifies this`billingAddressValues
      ensures Valid()
      ensures billingAddressValues == if sameAsShipping && isAddressReady
                                      then FromElement(value, email)
                                      else old(billingAddressValues)
    {
      if !sameAsShipping {
        return;
      }
      if !isAddressReady {
        return;
      }
      billingAddressValues := FromElement(value, email);
    }

    /** The "billing same as shipping" checkbox: only a checked box counts. */
    method OnSameAsShippingChange(checked: CheckedState)
      requires Valid()
      modifies this`sameAsShipping
      ensures Valid()
      ensures sameAsShipping <==> checked == Checked
    {
      sameAsShipping := checked == Checked;
    }

    /** BillingAddressSection's field handler (the country select does the same
        for the country). */
    method OnBillingFieldChange(f: Field, v: string)
      requires Valid()
      modifies this`billingAddressValues
      ensures Valid()
      ensures billingAddressValues == WithField(old(billingAddressValues), f, v)
    {
      billingAddressValues := WithField(billingAddressValues, f, v);
    }

    /** handleSubmit up to the confirmPayment call. `shipping` is the address
        element's value, None when the element is not found. */
    method Submit(shipping: Option<ElementAddress>) returns (step: SubmitStep)
      requires Valid()
      modifies this`fieldErrors, this`formErrorMessage, this`isLoading, this`savedTaxIds
      ensures Valid()
      ensures !stripeLoaded || !elementsLoaded || shipping.None? ==> step == NotSubmitted && unchanged(this)
      ensures stripeLoaded && elementsLoaded && shipping.Some? ==>
                var ship := FromElement(shipping.value, "");
                var billing := if sameAsShipping then ship else billingAddressValues;
                && fieldErrors == (if !AddressValid(billing) && !sameAsShipping then FieldErrors(billing) else map[])
                && (!AddressValid(ship) || !AddressValid(billing) ==>
                      && step == Rejected
                      && formErrorMessage == Some(FillRequiredFields)
                      && isLoading == old(isLoading)
                      && savedTaxIds == old(savedTaxIds))
                && (AddressValid(ship) && AddressValid(billing) ==>
                      && step == Confirming(ConfirmRequest(email, billing, ship))
                      && formErrorMessage == old(formErrorMessage)
                      && isLoading
                      && savedTaxIds == old(savedTaxIds) + (if billing.taxId != "" then [billing.taxId] else []))
    {
      if !stripeLoaded || !elementsLoaded {
        return NotSubmitted;
      }
      if shipping.None? {
        return NotSubmitted;
      }
      var ship := FromElement(shipping.value, "");
      var billing := if sameAsShipping then ship else billingAddressValues;
      var billingOk := AddressValid(billing);
      var shippingOk := AddressValid(ship);
      if !billingOk && !sameAsShipping {
        fieldErrors := FieldErrors(billing);
      } else {
        fieldErrors := map[];
      }
      if !shippingOk || !billingOk {
        formErrorMessage := Some(FillRequiredFields);
        return Rejected;
      }
      isLoading := true;
      if billing.taxId != "" {
        savedTaxIds := savedTaxIds + [billing.taxId];
      }
      step := Confirming(ConfirmRequest(email, billing, ship));
    }

    /** confirmPayment's answer. An error re-enables the form and shows its
        message; a confirmed payment clears the cart cookie and navigates to the
        success page, leaving the form loading. */
    method ConfirmResult(outcome: ConfirmOutcome, cart: CartActions.CartSession)
      requires Valid() && cart.Valid()
      modifies this`isLoading, this`formErrorMessage, this`redirectedTo, cart`cookie, cart`revalidated
      ensures Valid() && cart.Valid()
      ensures outcome.Declined? ==>
                && !isLoading
                && formErrorMessage == Some(ErrorMessage(outcome.message))
                && redirectedTo == old(redirectedTo)
                && unchanged(cart)
      ensures outcome.Confirmed? ==>
                && isLoading == old(isLoading)
                && formErrorMessage == old(formErrorMessage)
                && redirectedTo == Some(SuccessRedirect(outcome.paymentIntentId, outcome.clientSecret.GetOr("")))
                && cart.cookie.None?
                && cart.revalidated == old(cart.revalidated)
                     + (if old(cart.cookie).Some?
                        then [CartActions.CartTag(old(cart.cookie).value.id), CartActions.AdminOrdersTag]
                        else [])
    {
      match outcome
      case Declined(message) =>
        isLoading := false;
        formErrorMessage := Some(ErrorMessage(message));
      case Confirmed(id, secret) =>
        cart.ClearCartCookie();
        redirectedTo := Some(SuccessRedirect(id, secret.GetOr("")));
    }

    /** handleSubmit's catch: something it awaited threw. `thrown` is the
        message when what was thrown is an Error. */
    method SubmitThrew(thrown: Option<string>)
      requires Valid()
      modifies this`isLoading, this`formErrorMessage
      ensures Valid()
      ensures !isLoading && formErrorMessage == Some(ErrorMessage(thrown))
    {
      isLoading := false;
      formErrorMessage := Some(ErrorMessage(thrown));
    }
  }
}
