# Checkout page model

A Dafny model of the shop's client-side checkout page (`app/checkout/CheckoutContent.tsx`).
It covers four parts:

- **Price estimate.** The subtotal over the cart lines, the flat shipping fee of the Nigerian
  delivery state, the percentage coupon discount, 7.5% tax on the discounted subtotal, the
  total, and the total in kobo that the card gateway is given (rounded up).
- **Coupons.** A coupon from the page address or typed by the shopper changes the discount
  rate only when it is a `percentage` coupon. `removeCoupon` resets the rate.
- **Shipping form.** The validator checks, in order, that the eight required fields are not
  blank after trimming, that the e-mail matches `^[^\s@]+@[^\s@]+\.[^\s@]+$`, that the phone
  matches `^\+?[\d\s-]{10,}$`, and that the terms are accepted. It records which fields are
  in error. Editing a field clears that field's flag.
- **Stock pre-check and payment flow.** Cart quantities are grouped per product id and
  compared with the fetched stock. The pay handler then runs the form check, the empty-cart
  and signed-in checks, raises the processing flag, re-checks the session, runs the stock
  pre-check, and either opens the card gateway or places a bank-transfer order at once.
  `processOrder` saves the shipping details if asked, calls the server's order procedure,
  clears the stored cart unless the call failed, and records the order id when one came back.

Files:

- `wrappers.dfy`: `Option`.
- `text.dfy`: JavaScript whitespace and `trim()`. The e-mail and phone regular expressions
  are written twice: as declarative predicates and as direct checks, with a proof that the
  two agree.
- `pricing.dfy`: the cart line, the price functions and the kobo rounding.
- `coupons.dfy`: coupons and the rate after a lookup.
- `stock.dfy`: the stock pre-check. `ValidateStock` is the loop-based method. It builds the
  grouping map and then walks its entries. `StockCheck` is the function that specifies it.
- `checkout.dfy`: the form, the validator, the order request and answer, and the
  `CheckoutSession` class. The class holds the page's state fields and its handlers as
  methods.

Money is exact (`real`). The only rounding is the ceiling to kobo.

The page calls other services: the signed-in user, the stored cart, the saved shipping row,
the coupon table, the products query and the server's `place_order` procedure. The model
takes each of their answers as a constructor argument or as a function parameter of the
handler that uses it. They are:

- `user`, `cart`, `saved` for the constructor;
- `lookup` for the coupon handlers;
- `currentUser` and `fetch` for the pay handler;
- `server` for the order call.

The stored (server-side) cart being cleared is recorded in the `cartCleared` flag. The page's
own `cartItems` list is not emptied after an order, and the model keeps it as it was.

The order request sends `couponInput` as its coupon code. A coupon applied only from the
page address therefore changes the shown total but is not sent with the order. The model
states this in `OrderRequest`'s contract (`couponCode == NonEmpty(Some(couponInput))`).

## Model

| member | source | states |
|---|---|---|
| Text.IsWhitespace | app/checkout/CheckoutContent.tsx:182 | the characters `trim()` removes and `\s` matches: the ECMAScript white-space and line-terminator characters; used by every trim and pattern lemma above and below |
| Text.Trim | app/checkout/CheckoutContent.tsx:182 | `trim()`; its shape is stated by `TrimStartShape` and `TrimEndShape`, its emptiness by `TrimEmptyIff` |
| Text.TrimStartShape | app/checkout/CheckoutContent.tsx:121 | trimming the front removes exactly a run of leading whitespace and stops at the first other character |
| Text.TrimEndShape | app/checkout/CheckoutContent.tsx:182 | trimming the back removes exactly a run of trailing whitespace and stops at the last other character |
| Text.TrimEmptyIff | app/checkout/CheckoutContent.tsx:182 | `!s.trim()` holds exactly when every character of `s` is whitespace, including the empty string |
| Text.EmailOk | app/checkout/CheckoutContent.tsx:195-196 | the e-mail test; proved equal to the pattern by `EmailOkIff` |
| Text.EmailOkIff | app/checkout/CheckoutContent.tsx:195-196 | the direct e-mail check accepts exactly the strings matching `^[^\s@]+@[^\s@]+\.[^\s@]+$` |
| Text.EmailOkMatches | app/checkout/CheckoutContent.tsx:195-196 | every string the direct check accepts matches the e-mail pattern |
| Text.MatchesEmailOk | app/checkout/CheckoutContent.tsx:195-196 | every string matching the e-mail pattern is accepted by the direct check |
| Text.PhoneOk | app/checkout/CheckoutContent.tsx:203-204 | the phone test; proved equal to the pattern by `PhoneOkIff` |
| Text.PhoneOkIff | app/checkout/CheckoutContent.tsx:203-204 | the direct phone check accepts exactly the strings matching `^\+?[\d\s-]{10,}$` |
| Pricing.Subtotal | app/checkout/CheckoutContent.tsx:149-153 | `getSubtotal` as the left fold from 0; its meaning is stated by the subtotal lemmas below |
| Pricing.SubtotalIsSumOfLines | app/checkout/CheckoutContent.tsx:149-153 | the left fold from 0 equals the sum over the cart lines of price × quantity |
| Pricing.SubtotalAppend | app/checkout/CheckoutContent.tsx:149-153 | the subtotal of two carts laid end to end is the sum of their subtotals |
| Pricing.SubtotalNonNegative | app/checkout/CheckoutContent.tsx:149-153 | with non-negative prices and quantities the subtotal is non-negative |
| Pricing.SubtotalEmpty | app/checkout/CheckoutContent.tsx:149-153 | an empty cart has subtotal 0 |
| Pricing.ShippingFee | app/checkout/CheckoutContent.tsx:155-164 | Lagos 1500, Ogun 2000, Abuja 3500 and Rivers 4000, each exactly for its state; 2500 exactly for every other value, including "" and "Other"; always within [1500, 4000] |
| Pricing.Tax | app/checkout/CheckoutContent.tsx:166-168 | `getTax`; bounded by `TotalAtLeastShipping` and written out by `TotalDecomposes` |
| Pricing.Total | app/checkout/CheckoutContent.tsx:170-172 | `getTotal`; bounded below by `TotalAtLeastShipping`, antitone in the rate, written out by `TotalDecomposes` |
| Pricing.TotalDecomposes | app/checkout/CheckoutContent.tsx:166-172 | tax is 7.5% of subtotal minus the discount amount; total is that remainder times 1.075 plus shipping |
| Pricing.DiscountedWithin | app/checkout/CheckoutContent.tsx:166-168 | a rate in [0, 1] leaves between 0 and the whole amount, and the tax on it between 0 and the full tax |
| Pricing.TotalAtLeastShipping | app/checkout/CheckoutContent.tsx:166-172 | with a rate in [0, 1] and non-negative lines: tax lies in [0, 7.5% of subtotal], and total ≥ shipping fee ≥ 1500 |
| Pricing.TotalAntitoneInDiscount | app/checkout/CheckoutContent.tsx:166-172 | with non-negative lines, a larger discount rate never raises the total |
| Pricing.TenPercentExample | app/checkout/CheckoutContent.tsx:166-172 | a 10% coupon on a 10,000 subtotal gives tax 675 and total 9,675 plus shipping |
| Pricing.Ceiling | app/checkout/CheckoutContent.tsx:223 | `Math.ceil`: the result is the integer r with x ≤ r < x + 1 |
| Pricing.KoboAmount | app/checkout/CheckoutContent.tsx:223 | the kobo amount is never below total × 100 and exceeds it by less than 1; it is non-negative for a non-negative total |
| Pricing.KoboExact | app/checkout/CheckoutContent.tsx:223 | a total that is a whole number of kobo is passed through unchanged |
| Pricing.KoboMonotone | app/checkout/CheckoutContent.tsx:223 | a larger total never yields fewer kobo |
| Coupons.RateAfterLookup | app/checkout/CheckoutContent.tsx:112-114 | the rate changes only for a percentage coupon, and a percentage coupon sets it to value / 100 |
| Coupons.NonPercentageKeepsRate | app/checkout/CheckoutContent.tsx:126-131 | an unknown code or an unsupported coupon type leaves the rate unchanged |
| Coupons.RateAfterLookupIdempotent | app/checkout/CheckoutContent.tsx:126-127 | applying the same lookup answer twice equals applying it once, and a percentage coupon's rate does not depend on the previous rate |
| Coupons.PercentageRateInUnitRange | app/checkout/CheckoutContent.tsx:113 | a percentage between 0 and 100 keeps the rate within [0, 1] |
| Stock.GroupedQuantity | app/checkout/CheckoutContent.tsx:249-252 | the summed quantity of one product, line by line; stated by the two grouping lemmas below |
| Stock.GroupedQuantityNotInCart | app/checkout/CheckoutContent.tsx:249-252 | a product no cart line is for has grouped quantity 0 |
| Stock.GroupedQuantityAppend | app/checkout/CheckoutContent.tsx:249-252 | grouping is additive over a split of the cart, so every line of a product is counted |
| Stock.ItemIds | app/checkout/CheckoutContent.tsx:240 | the query asks for one id per cart line, and exactly the ids in the cart |
| Stock.DistinctIds | app/checkout/CheckoutContent.tsx:249-254 | the keys the walk visits, in first-insertion order; stated by `DistinctIdsShape` |
| Stock.DistinctIdsShape | app/checkout/CheckoutContent.tsx:249-254 | the grouped ids are listed once each and are exactly the ids in the cart |
| Stock.FindProduct | app/checkout/CheckoutContent.tsx:255 | `products?.find(p => p.id === productId)`; stated by `FindProductSpec` |
| Stock.FindProductSpec | app/checkout/CheckoutContent.tsx:255 | `find` returns the first fetched row with that id, and nothing exactly when no row has it |
| Stock.CartItemName | app/checkout/CheckoutContent.tsx:258 | the name in a missing-product message is never empty |
| Stock.CartItemNameSpec | app/checkout/CheckoutContent.tsx:258 | the name is that of the first cart line for the product, or `Product` when that name is empty |
| Stock.CartItemNameMissing | app/checkout/CheckoutContent.tsx:258 | with no cart line for the product the name is `Product` |
| Stock.CheckIds | app/checkout/CheckoutContent.tsx:254-268 | the walk over the grouped ids, stopping at the first missing or short product; stated by `CheckIdsInStockIff` and `CheckIdsReportsFirstFailure` |
| Stock.StockCheck | app/checkout/CheckoutContent.tsx:238-274 | the pre-check's verdict; a failed query cannot validate; stated by `StockCheckInStockIff` |
| Stock.ValidateStock | app/checkout/CheckoutContent.tsx:238-274 | the grouping loop and the walk over its entries compute exactly `StockCheck` of the cart and the query's answer |
| Stock.CheckIdsInStockIff | app/checkout/CheckoutContent.tsx:254-268 | walking the grouped ids passes exactly when every id is fetched with stock ≥ its summed quantity |
| Stock.StockCheckInStockIff | app/checkout/CheckoutContent.tsx:238-274 | the pre-check passes exactly when the query succeeded and every cart line's product is fetched with stock ≥ its summed quantity; a failed query never passes |
| Stock.CheckIdsReportsFirstFailure | app/checkout/CheckoutContent.tsx:254-268 | a failing walk reports the first grouped id that is not covered, every earlier one being covered: a missing product as "no longer exists" under its cart name, a short one under its own name and stock |
| Stock.CheckIdsFailureIsReal | app/checkout/CheckoutContent.tsx:257-266 | a reported shortage carries the name and stock of a fetched product whose stock is below its summed quantity; a reported missing product is a grouped id the query did not return, shown under that id's cart name |
| Stock.VariantsAreSummed | app/checkout/CheckoutContent.tsx:248-266 | two lines of one product (3 + 3) fail against a stock of 5 although each fits alone |
| Checkout.CustomerInfo.With | app/checkout/CheckoutContent.tsx:142 | the edited field takes the new value and every other field is kept |
| Checkout.Prefill | app/checkout/CheckoutContent.tsx:84-93 | each of the seven saved columns (first and last name, phone, address, city, state, zip code) replaces its field, a null column giving "", and the e-mail is kept |
| Checkout.FieldIndex | app/checkout/CheckoutContent.tsx:177 | every form field appears in the required list |
| Checkout.BlankFieldsExact | app/checkout/CheckoutContent.tsx:181-186 | a field is counted as blank exactly when it holds only whitespace |
| Checkout.CollectBlankFields | app/checkout/CheckoutContent.tsx:176-186 | the loop flags exactly the blank required fields, and `hasEmptyFields` is set exactly when one is blank |
| Checkout.CheckForm | app/checkout/CheckoutContent.tsx:174-217 | the first failing check in the validator's order; stated by `CheckFormOkIff` and `MissingFieldsFlaggedExactly` |
| Checkout.ErrorsAfter | app/checkout/CheckoutContent.tsx:188-216 | the error record each verdict leaves; stated for missing fields by `MissingFieldsFlaggedExactly` |
| Checkout.CheckFormOkIff | app/checkout/CheckoutContent.tsx:174-217 | the form passes exactly when no required field is blank, the e-mail and phone match their patterns and the terms are accepted |
| Checkout.MissingFieldsFlaggedExactly | app/checkout/CheckoutContent.tsx:188-192 | when some field is blank, the verdict is missing fields, and exactly the blank fields are flagged true |
| Checkout.StageFor | app/checkout/CheckoutContent.tsx:276-313 | where the pay handler stops or which way it goes; stated by `StageForProceedsIff` |
| Checkout.StageForProceedsIff | app/checkout/CheckoutContent.tsx:276-313 | payment goes ahead exactly when the form, cart, user, session and stock checks all pass; card goes to the gateway and transfer places the order |
| Checkout.OutcomeOf | app/checkout/CheckoutContent.tsx:349-365 | an order is placed exactly when the call returned a non-empty id, and then with that id; an error answer is rejected, with the server's message when it has one and never with an empty one |
| Checkout.AfterOrder | app/checkout/CheckoutContent.tsx:325-361 | the cart and order fields after a signed-in order call; its meaning is stated by the three lemmas below |
| Checkout.FailedOrderKeepsCartAndOrder | app/checkout/CheckoutContent.tsx:349-354 | an error answer or a thrown call leaves the stored cart and the recorded order as they were |
| Checkout.AnsweredOrderClearsCart | app/checkout/CheckoutContent.tsx:356-365 | a data answer clears the stored cart; the order is marked placed exactly when it was already or an id came back, and that id is recorded |
| Checkout.AfterOrderKeepsPlacedIffId | app/checkout/CheckoutContent.tsx:359-361 | an order is shown as placed exactly when an id is recorded, before and after the call |
| Checkout.NonEmpty | app/checkout/CheckoutContent.tsx:343-346 | `x \|\| null` keeps a non-empty string and gives null otherwise |
| Checkout.CheckoutSession.constructor | app/checkout/CheckoutContent.tsx:57-104 | initial state after mounting: the user id is set when signed in; the cart is loaded and the saved row prefills the form (turning on saving) only when the cart query also succeeded; everything else starts empty |
| Checkout.CheckoutSession.Total | app/checkout/CheckoutContent.tsx:170-172 | `getTotal()` for the page's cart, rate and delivery state |
| Checkout.CheckoutSession.Config | app/checkout/CheckoutContent.tsx:220-225 | the gateway gets the reference, the e-mail and `Math.ceil(total × 100)` kobo: never below total × 100 and less than one kobo above it |
| Checkout.CheckoutSession.OrderRequest | app/checkout/CheckoutContent.tsx:330-347 | the order request carries the user id, the page's cart, form, payment method and note, the payment reference when non-empty, the shipping fee of the form's state, and the typed coupon input when non-empty |
| Checkout.CheckoutSession.ApplyUrlCoupon | app/checkout/CheckoutContent.tsx:107-118 | an empty code changes nothing; otherwise the rate becomes `RateAfterLookup` of the lookup answer |
| Checkout.CheckoutSession.HandleManualCoupon | app/checkout/CheckoutContent.tsx:120-132 | a blank input makes no lookup and keeps the rate; otherwise it reports whether a percentage coupon was found and sets the rate by `RateAfterLookup` |
| Checkout.CheckoutSession.RemoveCoupon | app/checkout/CheckoutContent.tsx:134-138 | the rate becomes 0 and the coupon input is cleared |
| Checkout.CheckoutSession.HandleInputChange | app/checkout/CheckoutContent.tsx:140-147 | the edited field is stored; only its error flag, if set, is cleared |
| Checkout.CheckoutSession.ValidateForm | app/checkout/CheckoutContent.tsx:174-217 | returns true exactly when `CheckForm` passes; the error record becomes the blank fields, or only e-mail, or only phone; an unaccepted-terms failure keeps it; success clears it |
| Checkout.CheckoutSession.OnSuccess | app/checkout/CheckoutContent.tsx:229-231 | a gateway success runs the order call with the gateway's reference: the outcome follows the server's answer, the cart and order fields change as `AfterOrder` says, and the processing flag ends lowered |
| Checkout.CheckoutSession.OnClose | app/checkout/CheckoutContent.tsx:233-236 | closing the gateway lowers the processing flag |
| Checkout.CheckoutSession.ProcessOrder | app/checkout/CheckoutContent.tsx:316-373 | without a user nothing changes; otherwise the outcome follows the server's answer, the cart and order fields become `AfterOrder` of their old values (shipping saved if asked, stored cart cleared only on a data answer, order recorded only with a non-empty id), and the flag ends lowered |
| Checkout.CheckoutSession.StartPayment | app/checkout/CheckoutContent.tsx:291-307 | the session, stock and method steps end as `StageFor` says; a stock failure reports `StockCheck`'s verdict, the gateway gets `Config()` with the flag raised, a transfer's order call changes the cart and order fields as `AfterOrder` says, and every other end leaves the flag lowered and those fields unchanged |
| Checkout.CheckoutSession.Proceed | app/checkout/CheckoutContent.tsx:309-313 | a card payment opens the gateway with `Config()` and keeps the flag raised; a transfer places the order with no reference, its outcome and field changes following the server's answer through `OutcomeOf` and `AfterOrder`, and lowers the flag |
| Checkout.CheckoutSession.HandlePaymentInitiation | app/checkout/CheckoutContent.tsx:276-313 | form, empty cart and missing user stop the flow with the flag still lowered; then as `StartPayment`; only an opened gateway leaves the flag raised; only an order attempt changes the cart and order fields, and then exactly as `AfterOrder` says for the server's answer |

## Left out

- `place_order`, the server's order procedure, is not part of this model. Its stock debit, re-pricing, atomicity and de-duplication are not modelled. It appears only as the `server` function from request to answer.
- Supabase, the Paystack widget, router navigation and toasts are not modelled. Their answers are parameters. Messages shown to the shopper appear only as the verdict and outcome values that select them.
- Prices are taken as already-parsed exact numbers. `parseFloat`, IEEE floating-point rounding in the price arithmetic, and `toLocaleString` display formatting are left out. This includes the `total × 100` step before `Math.ceil`: the kobo bounds of `Pricing.KoboAmount` and `Checkout.CheckoutSession.Config` hold in exact arithmetic, whereas in floating point the product can land just above a whole number and be rounded up one more kobo.
- The Paystack public key in the gateway configuration is omitted. It is a constant from the environment and no logic depends on it.
- The time-based Paystack reference (`Date`) is a constructor parameter.
- Asynchronous effect ordering is left out: the coupon effect can race with the mount effect, and the order call is not awaited by the pay handler. Each handler is modelled as one atomic step.
- `isCheckingCoupon` and `isLoading` only drive the display and are not modelled.
- Exceptions thrown by `updateShippingInfo` or `clearCart` are not modelled. Only the order call can fail (`OrderError` or `CallThrew`).
- The reference the gateway passes to `onSuccess` is taken as a string. The gateway's own response object is not modelled.
- Stock.DistinctIds: the grouped ids are walked in first-occurrence order. `Object.entries` lists integer-like keys first in ascending order. The model does not reorder such ids, which only changes which failure `Stock.CheckIds` and `Stock.ValidateStock` report first when several products fail.
- Checkout.CheckoutSession.HandlePaymentInitiation: requires the processing flag to be lowered, because the pay button is disabled while it is raised (app/checkout/CheckoutContent.tsx:792).
- JSX rendering and animation are left out, as are the other files of the repository: the landing page, the store settings page, the layout, the icon route, the checkout page wrapper and the e-mail API route.
