# Conversational Store: checkout form, cart actions and sitemap in Dafny

This project models three parts of an e-commerce storefront and proves properties of them.

- **Checkout payment form** (`checkout.dfy`, module `Checkout`). Three embedded payment elements load on their own and each report when they are ready: link authentication, address and payment. A voice agent can call `fillCheckoutDetails` with a payload. The form then:
  - remounts all three elements, which are keyed on one remount key; only the address and link-authentication elements get the payload as their default values;
  - re-checks readiness up to three times, with delays of 100, 300 and 500 ms.

  On submission the form chooses the billing address, validates both addresses, and then either confirms payment or shows an error. The form is the class `PaymentForm`. Its fields are the component's state values and refs, and each event is one method.
- **Cart server actions** (`cart_actions.dfy`, module `CartActions`). Each action:
  - reads the cart cookie `{id, linesCount}`;
  - calls the commerce SDK;
  - writes back the cookie and the cache tags it revalidates.

  The class `CartSession` holds four things: the cookie, the SDK's store (each cart id mapped to its lines), a log of the store mutations issued, and a log of revalidated tags. The SDK's business rules are left abstract. They are function-valued constants given to the constructor: what an add or a quantity change does to a cart's lines, and how `cartCount` counts them. The SDK's own decisions are parameters of each action: whether `cartAdd` returned a cart, and which id a created cart gets. The class invariant `Valid()` holds before and after every action: the tag log holds only `cart-<id>` tags and the `admin-orders` tag.
- **Sitemap** (`sitemap.dfy`, module `Sitemap`). A pure function. It returns a root entry, then one entry per product that has a slug, then one entry per configured category that has a slug. If the product fetch fails, it returns only the root entry.

`scenarios.dfy` holds verified event sequences: methods that step the two classes through concrete events and state what they produce. `wrappers.dfy` holds `Option`, `Result`, `Outcome` and JavaScript truthiness for optional strings.

Behaviour of the code worth knowing:
- **Remount and readiness.** An autofill resets only the two readiness *refs*. The three readiness *state flags* keep their values. So `readyToRender`, and with it the pay button, is unchanged by a remount (`AutofillEffect` ensures this). In particular, `readyToRender` stays true and the pay button stays shown while the remounted payment element is still loading.
- **Find-or-create return value.** `findOrCreateCartIdFromCookiesAction` returns a copy of the whole cart when one exists. It returns the id only when it creates a cart (`FoundOrCreated`).
- **Retry counter.** The counter is incremented by the effect that schedules the retry. It is reset only inside a timer callback. When a single retry chain reaches the cap, the effect only warns and no timer is pending, so the counter stays at 3. Every later autofill on the same form then gets no retry at all (`AutofillGivesUpAfterThreeRetries`). When chains overlap, a timer of one chain can still be pending after another chain has hit the cap. If both gated elements are ready when that timer fires, it resets the counter, and retries resume.
- **Cookie count after adding several units to a new cart.** `addMultipleToCartAction` creates the cart and then sets the quantity. The cookie's count comes from the cart as `cartAdd` returned it, before the quantity was set. Only the existing-cart path re-fetches the cart before writing the cookie.

## Model

| member | source | states |
|---|---|---|
| `Sitemap.Sitemap` | src/app/sitemap.ts:7-56 | the first entry is always the root entry; when the product fetch fails the result is exactly the root entry |
| `Sitemap.RootEntry` | src/app/sitemap.ts:35-41 | the root entry has the public URL, the current time, change frequency "always" and priority 1 |
| `Sitemap.Filter` | src/app/sitemap.ts:12 | filtering never lengthens the list and keeps only accepted elements of the input |
| `Sitemap.ProductHasSlug` | src/app/sitemap.ts:12 | a product is kept exactly when its metadata slug is truthy: no slug or the empty slug drops it, any other slug keeps it |
| `Sitemap.CategoryHasSlug` | src/app/sitemap.ts:24 | a category is kept exactly when its slug is truthy: no slug or the empty slug drops it, any other slug keeps it |
| `Sitemap.ProductEntry` | src/app/sitemap.ts:14-20 | the URL is the public URL, then `/product/`, then the slug; the last modification is the update time in milliseconds; daily; priority 0.8 |
| `Sitemap.CategoryEntry` | src/app/sitemap.ts:26-32 | the URL is the public URL, then `/category/`, then the slug; the last modification is the current time; daily; priority 0.5 |
| `Sitemap.ProductEntries` | src/app/sitemap.ts:11-21 | no more entries than products, and each entry is the entry of some product of the list that has a slug |
| `Sitemap.CategoryEntries` | src/app/sitemap.ts:23-33 | no more entries than categories, and each entry is the entry of some configured category that has a slug |
| `Sitemap.FilterMembership` | src/app/sitemap.ts:12 | an element survives the filter exactly when it is in the input and accepted |
| `Sitemap.FilterAppend` | src/app/sitemap.ts:11-21 | filtering distributes over concatenation, so input order is kept |
| `Sitemap.FilterKeepsAll` | src/app/sitemap.ts:12 | the filter returns its input unchanged exactly when every element is accepted |
| `Sitemap.FilterSameLength` | src/app/sitemap.ts:12 | a filter result as long as its input is the input |
| `Sitemap.SitemapLength` | src/app/sitemap.ts:35-44 | the length is 1 + the number of products with a slug + the number of categories with a slug |
| `Sitemap.SitemapProductAt` | src/app/sitemap.ts:11-21 | entry 1+k comes from the k-th product with a slug: `<publicUrl>/product/<slug>`, updated×1000 ms, "daily", priority 0.8 |
| `Sitemap.SitemapCategoryAt` | src/app/sitemap.ts:23-33 | the entries after the products come from the categories with a slug, in order: `<publicUrl>/category/<slug>`, the current time, "daily", priority 0.5 |
| `Sitemap.ProductListed` | src/app/sitemap.ts:11-21 | a product is among the listed ones exactly when it has a slug, and then its entry is in the sitemap |
| `Sitemap.EntryOrigin` | src/app/sitemap.ts:35-44 | every non-root entry is the entry of some product with a slug or of some category with a slug |
| `Sitemap.ProductEntriesAppend` | src/app/sitemap.ts:11-21 | the product entries of a concatenated product list are the concatenated entries |
| `Sitemap.AllProductsListed` | src/app/sitemap.ts:11-44 | the sitemap has one entry per product exactly when every product has a slug |
| `CartActions.CartTag` | src/actions/cart-actions.ts:25 | a cart's cache tag is `cart-` followed by its id |
| `CartActions.ValidProductId` | src/actions/cart-actions.ts:57-60 | a missing form entry and an uploaded file are rejected; a text entry passes exactly when it is not empty |
| `CartActions.CurrentQuantity` | src/actions/cart-actions.ts:138-139 | the product's line quantity, or 0 when the cart has no line for it |
| `CartActions.CartSession.CartFromCookies` | src/actions/cart-actions.ts:7-18 | none without a cookie; none when the store has no cart for the cookie's id; otherwise a copy of that cart |
| `CartActions.CartSession.SetInitialCartCookies` | src/actions/cart-actions.ts:20-26 | the cookie becomes `{cartId, linesCount}` and exactly `cart-<cartId>` is revalidated |
| `CartActions.CartSession.FindOrCreateCartIdFromCookies` | src/actions/cart-actions.ts:28-42 | an existing cart is returned and nothing changes; otherwise one cart is created, empty, under an id no stored cart has, so no other cart changes; the cookie becomes `{newId, 0}` and `cart-<newId>` is revalidated |
| `CartActions.CartSession.ClearCartCookie` | src/actions/cart-actions.ts:44-54 | without a cookie nothing changes and nothing is revalidated; otherwise the cookie is removed and exactly `cart-<id>` then `admin-orders` are revalidated |
| `CartActions.CartSession.SdkCartAdd` | src/actions/cart-actions.ts:64 | one add is logged; a returned cart is the given one, or a new one under an id no stored cart has, with the SDK's add rule applied and every other cart unchanged; no return leaves the store as it was |
| `CartActions.CartSession.SdkCartSetQuantity` | src/actions/cart-actions.ts:143-147 | one set-quantity call is logged and applied to the cart named, if the store has it |
| `CartActions.CartSession.AddToCart` | src/actions/cart-actions.ts:56-75 | a missing, empty or non-string product id throws "Invalid product ID" before any store or cookie change; otherwise exactly one add, and when it returns a cart the cookie becomes `{id, cartCount(lines)}` and `cart-<id>` is revalidated |
| `CartActions.CartSession.ChangeQuantity` | src/actions/cart-actions.ts:77-99 | without a cart "Cart not found" is thrown and no mutation is issued; otherwise exactly one change-quantity call on the cookie's cart |
| `CartActions.CartSession.IncreaseQuantity` | src/actions/cart-actions.ts:77-87 | "Cart not found" without a cart and no mutation; otherwise exactly one INCREASE on the cookie's cart |
| `CartActions.CartSession.DecreaseQuantity` | src/actions/cart-actions.ts:89-99 | "Cart not found" without a cart and no mutation; otherwise exactly one DECREASE on the cookie's cart |
| `CartActions.CartSession.SetQuantity` | src/actions/cart-actions.ts:101-115 | "Cart not found" without a cart and no mutation; otherwise exactly one set-quantity call, on the cart id passed in |
| `CartActions.CartSession.AddMultipleToCart` | src/actions/cart-actions.ts:117-157 | no cart: exactly one add, a set-quantity call only when quantity > 1, "Failed to create cart" when the add returns nothing, cookie from the added cart; a cart: exactly one set-quantity call to current quantity + quantity, then the cookie is resynchronised from the re-fetched cart |
| `CartActions.CartSession.CartFromStore` | src/actions/cart-actions.ts:149 | the store returns a cart exactly when it has one with that id, with its lines |
| `CartActions.CartSession.CommerceGptRevalidate` | src/actions/cart-actions.ts:159-164 | revalidates `cart-<id>` exactly when there is a cookie, and nothing else |
| `Checkout.WithField` | src/ui/checkout/stripe-payment.tsx:520-523 | the record spread sets the named field to the new value and leaves every other field as it was |
| `Checkout.RequiredMessage` | src/ui/checkout/stripe-payment.tsx:79-85 | each required field has its own required-field message key, never the generic form error, the unexpected-error key or a raw message |
| `Checkout.RequiredMessagesDistinct` | src/ui/checkout/stripe-payment.tsx:79-85 | two required fields share a message exactly when they are the same field |
| `Checkout.AddressValid` | src/ui/checkout/stripe-payment.tsx:251-261 | the schema accepts an address exactly when every required field (name, line1, city, postal code, country) is non-empty |
| `Checkout.FieldErrors` | src/ui/checkout/stripe-payment.tsx:256 | errors are reported only for required fields, a required field has an error exactly when it is empty, and each error is that field's required-field message |
| `Checkout.FieldErrorsEmptyIffValid` | src/ui/checkout/stripe-payment.tsx:79-85 | the schema reports no field error exactly when name, line1, city, postal code and country are all filled in |
| `Checkout.FromElement` | src/ui/checkout/stripe-payment.tsx:237-247 | the address record takes each field of the element's value, absent optional ones as empty, with an empty tax id |
| `Checkout.RetryDelay` | src/ui/checkout/stripe-payment.tsx:193-195 | retry k, for k in 1..3, waits `[100, 300, 500][k-1]`; every delay comes from that table |
| `Checkout.RetryDelaysIncrease` | src/ui/checkout/stripe-payment.tsx:194 | a later retry waits strictly longer |
| `Checkout.ErrorMessage` | src/ui/checkout/stripe-payment.tsx:314 | an error's own message when it has one, otherwise the "unexpected error" text |
| `Checkout.PaymentForm.ReadyToRender` | src/ui/checkout/stripe-payment.tsx:220 | the form is ready to render exactly when both processor handles are loaded and all three elements have reported ready |
| `Checkout.PaymentForm.constructor` | src/ui/checkout/stripe-payment.tsx:87-130 | nothing ready, not loading, no errors, billing same as shipping, empty billing values, remount key 0, retry counter 0, no pending payload |
| `Checkout.PaymentForm.ProvidersChanged` | src/ui/checkout/stripe-payment.tsx:117-124 | the processor client and elements handles take the hooks' new values |
| `Checkout.PaymentForm.FillCheckoutDetails` | src/ui/checkout/stripe-payment.tsx:138-154 | the payload becomes both pending and the autofill data; the email changes only when the payload has a non-empty email |
| `Checkout.PaymentForm.AutofillEffect` | src/ui/checkout/stripe-payment.tsx:167-210 | without autofill data nothing changes; otherwise both ready refs become false and the remount key grows by exactly 1; below the cap the counter grows by 1 and one retry is scheduled with the table's delay; at the cap only a warning is issued; readyToRender is unchanged; the counter never exceeds 3 |
| `Checkout.PaymentForm.RetryTimerFires` | src/ui/checkout/stripe-payment.tsx:197-206 | with a payload pending and either ready ref false, the pending payload is re-injected and the counter is unchanged; otherwise the counter is reset to 0 and the autofill data is unchanged |
| `Checkout.PaymentForm.OnLinkAuthenticationReady` | src/ui/checkout/stripe-payment.tsx:346-350 | the ref and the state flag become true; readyToRender is never lost |
| `Checkout.PaymentForm.OnAddressReady` | src/ui/checkout/stripe-payment.tsx:403-411 | the ref and the state flag become true; readyToRender is never lost |
| `Checkout.PaymentForm.OnPaymentReady` | src/ui/checkout/stripe-payment.tsx:471 | the payment flag becomes true; readyToRender is never lost |
| `Checkout.PaymentForm.OnEmailChange` | src/ui/checkout/stripe-payment.tsx:351-356 | a complete email replaces the form's email; an incomplete one changes nothing |
| `Checkout.PaymentForm.OnAddressChange` | src/ui/checkout/stripe-payment.tsx:379-402 | ignored unless billing is the same as shipping and the address element is ready; otherwise the billing values mirror the element's value with the form's email |
| `Checkout.PaymentForm.OnSameAsShippingChange` | src/ui/checkout/stripe-payment.tsx:437-439 | "same as shipping" holds exactly when the box is checked, which excludes the indeterminate state |
| `Checkout.PaymentForm.OnBillingFieldChange` | src/ui/checkout/stripe-payment.tsx:520-523 | the billing values become the old ones with the edited field replaced |
| `Checkout.PaymentForm.Submit` | src/ui/checkout/stripe-payment.tsx:222-275 | without processor or elements, or without the address element, nothing changes; billing is the shipping address when "same as shipping" and the local values otherwise; field errors are set only when billing is invalid and shown, and are cleared otherwise; an invalid address sets the form error and leaves loading unchanged; otherwise loading is set, a non-empty tax id is saved, and both addresses are sent for confirmation |
| `Checkout.PaymentForm.ConfirmResult` | src/ui/checkout/stripe-payment.tsx:312-326 | an error stops loading and shows its message; success clears the cart cookie, navigates to the success page with the intent id and client secret, and leaves loading as it was |
| `Checkout.PaymentForm.SubmitThrew` | src/ui/checkout/stripe-payment.tsx:327-330 | a thrown error stops loading and shows its message, or the "unexpected error" text |
| `Scenarios.AutofillGivesUpAfterThreeRetries` | src/ui/checkout/stripe-payment.tsx:187-209 | with elements that never become ready: retries wait 100, 300, 500, then one warning, no timer left and four remounts; a later autofill schedules no retry |
| `Scenarios.AutofillSettlesOnceReady` | src/ui/checkout/stripe-payment.tsx:197-206 | when both elements are ready before the check, nothing is re-injected, the counter is reset and the form can render |
| `Scenarios.AddMultipleToExistingCart` | src/actions/cart-actions.ts:137-156 | cookie `{c1, 2}` and two units of p1 in the store: adding three issues exactly one set-quantity call, to 5, and the cookie takes the re-fetched cart's count |
| `Scenarios.ConfirmedCheckoutClearsCart` | src/ui/checkout/stripe-payment.tsx:312-323 | a valid submission followed by a confirmed payment leaves the form loading, removes the cookie and revalidates `cart-c1` then `admin-orders` |

## Left out

- src/components/ElevenLabsWidget.tsx is not part of this model. It is DOM and script injection, observers, session storage and timed simulated clicks.
- The payment processor's internals are not modelled. These are element rendering, `getValue`, `confirmPayment` and `fetchUpdates`. Their answers are method parameters: the address element's value, or none when the element is missing; the confirmation outcome; a thrown message.
- The debounced billing-address save is not modelled (stripe-payment.tsx:109, 212-218). It is a timer, a server action and a refresh. So is the shipping-rate change (417-424).
- Rendering is left out: the element options built from the autofill data (337-345, 360-378) and the pay button's disabled state (492-497). `handleSubmit` itself checks only the processor and elements handles, and so does `Submit`.
- React scheduling and real time are left out. `AutofillEffect` is an event the caller triggers; React runs the effect once each time the autofill data object changes. Timers are a count of pending callbacks, and their delays are recorded as data. All the timer callbacks are identical, so the order in which they fire does not matter.
- Values have no identity. A payload and the copy the retry re-injects are equal values. Callbacks are assumed to see the current state, not the state of the render that created them.
- The hook that installs and removes `window.fillCheckoutDetails` is not modelled (stripe-payment.tsx:133-164). `useDidUpdate` is not part of this model, so the function is assumed to be installed.
- Checkout.AddressValid: models the address schema only as "name, line1, city, postal code and country are non-empty". `checkout-form-schema` is not part of this model, so any further rule it has is not captured. Undefined, null and empty optional values are all the empty string.
- Translated messages are their translation keys. Console logging is dropped. Navigation is recorded as the success page's two query values; URL encoding is not modelled.
- CartActions.CartSession.AddToCart: the SDK's business rules stay abstract, here and in the other actions. They are the arithmetic of add and change-quantity, the effect of set-quantity, and `cartCount`. Only the calls issued and the values the cookie takes are stated in terms of them.
- CartActions.CartSession.AddMultipleToCart: `cartGet`, `cartSetQuantity` and `cartChangeQuantity` are assumed not to throw. The SDK always still has the cart after a set-quantity call, so the branch where the re-fetch finds no cart (cart-actions.ts:150) is never taken.
- CartActions.CartSession.CartFromCookies, CartActions.CartSession.FindOrCreateCartIdFromCookies, CartActions.CartSession.AddToCart: the SDK's `cartGet` (cart-actions.ts:13), `cartCreate` (:34) and `cartAdd` (:64, :122) are assumed not to throw. In the source an error from any of them escapes the action; the model has no such path.
- CartActions.CartSession.SetInitialCartCookies, CartActions.CartSession.SetQuantity, CartActions.CartSession.AddMultipleToCart: JavaScript numbers for `linesCount` and `quantity` (cart-actions.ts:20, 108, 117, 140) are integers here, so fractional, infinite and NaN quantities are not modelled.
- CartActions.CurrentQuantity: a cart's lines are a map from product id to quantity, where the source has an ordered list searched with `find` (cart-actions.ts:138). Line order and several lines for one product are not modelled.
- Cookie JSON encoding, a malformed cookie (read as no cookie) and `structuredClone` are not modelled.
- Races between concurrent server actions and the last writer winning the cookie are not modelled.
- Sitemap.Sitemap: uses one `now` for every entry without a date of its own, where the source calls `new Date()` separately for each. Priorities are tenths instead of floating-point numbers. The public URL and the store configuration's categories are parameters. The SDK's page size of 100 belongs to the SDK: the model takes whatever list it returned. Only the product fetch can fail.

