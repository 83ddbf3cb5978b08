# GadgetPlan storefront core, modelled in Dafny

GadgetPlan is a Next.js storefront for Apple devices and accessories, with a
repair-booking service called ServiceGo. This project models the parts of it
that hold state or make decisions:

- **Cart reducer and store** (`CartContext`, `cart_context.dfy`). The reducer is
  a pure function over an ordered list of cart lines. Every branch recomputes
  the cart total as the sum of price times quantity. `ADD_ITEM` merges into the
  line with the same product, colour and storage, and appends otherwise.
  `REMOVE_ITEM` filters by id. `UPDATE_QUANTITY` clamps the new quantity to at
  least 1. `CLEAR_CART` empties the cart. The provider's store is a class whose
  `Dispatch` applies the reducer.
- **Cart page** (`CartPage`). The guard in `handleUpdateQuantity`, the
  plus/minus/trash buttons of each line, the header "Cart (n item/items)" and
  the disabled rule of the checkout button.
- **Navigation bar** (`Navbar`). The cart badge counts units and shows "99+"
  above 99. Also the account label, the account menu and which navigation link
  is underlined.
- **Product catalogue** (`Products`). The search filter (case-insensitive
  substring of name or description) and the category filter (`parseInt` of the
  selected value). Both keep the list's order. Also "Reset Filter".
- **Checkout** (`Checkout`). A four-step wizard over the shared cart, the
  shipping-address form and the order total (subtotal, 10% tax and a shipping
  cost).
- **ServiceGo booking form** (`ServiceGo`). Device, model and service selection,
  the price estimate of the chosen service, and the availability check with its
  button rule.
- **OTP verification screen** (`OtpVerify`). The 60-second resend countdown,
  the verify and resend handlers, and when their buttons are enabled.
- **OAuth callback route** (`AuthCallback`). Where `/api/auth/callback`
  redirects, given `code` and `error`.

Some source code changes state step by step: the cart store, the checkout page,
the booking form and the OTP screen. That code is modelled as classes whose
methods state their whole new state. The rest is functions and lemmas. Of the
modelled handlers, three await a delay: `handleCheckAvailability`,
`handleVerify` and `handleResend`. Each is split at its `await` into a
method for the part before it and one for the part after it. As written,
each `await` is a timer delay that always resolves; the API call it stands
in for is not written yet. The other `async` code is the navbar's
`handleSignOut`, listed under "## Left out", and the auth callback
route's `GET`, modelled by `AuthCallback.Callback`. Those delay timers are modelled only
by that split into two methods. The countdown's one-second interval is the
only timer modelled by its firings: each firing is an explicit
`OtpVerify.VerifyScreen.Tick`. JavaScript truthiness of an optional string
is `Common.Truthy`: absent and empty are both falsy.

## Model

| member | source | states |
|---|---|---|
| CartContext.FindVariant | src/context/cart-context.tsx:30-34 | The index of the first line whose product, colour and storage all equal the payload's. None exactly when no line matches. |
| CartContext.Reduce | src/context/cart-context.tsx:27-93 | An unknown action returns the state unchanged. Every other action yields a total equal to the sum of price times quantity over the new lines. CLEAR_CART yields no lines and total 0. |
| CartContext.TotalAppend | src/context/cart-context.tsx:52-56 | Appending a line raises the reduced total by that line's price times quantity. |
| CartContext.TotalSetAt | src/context/cart-context.tsx:44-47 | Replacing one line changes the reduced total by the difference of the two line totals. |
| CartContext.RunKeepsTotalConsistent | src/context/cart-context.tsx:27-93 | Any sequence of dispatches from a consistent cart keeps the total equal to the sum over the lines. |
| CartContext.AddExistingVariant | src/context/cart-context.tsx:36-49 | With unique ids, adding a variant already present keeps the number of lines. The matched line gains the payload's quantity and keeps its own id, name and price. Every other line is unchanged. The total rises by the line's price times the added quantity. |
| CartContext.MergeRaisesEveryLineSharingId | src/context/cart-context.tsx:36-42 | For every cart, unique ids or not: the merge keeps the number of lines, raises by the payload's quantity every line whose id equals the matched line's id, whatever its variant, and leaves every other line unchanged. |
| CartContext.MergeRaisesLinesSharingId | src/context/cart-context.tsx:38-42 | For example, in a cart of two variants that share one id, adding to one variant raises both lines. |
| CartContext.AddNewVariant | src/context/cart-context.tsx:50-58 | A variant not yet present is appended as given, after the unchanged existing lines. The total rises by its price times quantity. |
| CartContext.RemoveDropsExactlyId | src/context/cart-context.tsx:62-70 | REMOVE_ITEM keeps, in order, exactly the lines whose id differs, each as many times as it occurred. No line is added. An absent id changes nothing. |
| CartContext.UpdateSetsClampedQuantity | src/context/cart-context.tsx:72-85 | Lines with the id get quantity max(1, q), which is at least 1. All other fields and all other lines are unchanged, and so is the number of lines. |
| CartContext.UniqueKeysSubsequence | src/context/cart-context.tsx:63 | Dropping lines cannot make two remaining lines share a variant key. |
| CartContext.ReduceKeepsUniqueKeys | src/context/cart-context.tsx:27-93 | If no two lines share a product, colour and storage, no action makes two lines share them. |
| CartContext.ReduceKeepsPositiveQuantities | src/context/cart-context.tsx:27-93 | If every line has quantity at least 1, and an added payload does too, that still holds after any action. |
| CartContext.ClearCartResets | src/context/cart-context.tsx:87-88 | CLEAR_CART returns exactly the initial empty cart of the provider. |
| CartContext.AddAllIntoSingleLine | src/context/cart-context.tsx:36-49 | Repeatedly adding payloads of a line's variant to a one-line cart keeps one line, which holds the sum of the added quantities. |
| CartContext.RepeatedAddOfOneVariant | src/context/cart-context.tsx:29-60 | Adding any number of payloads of one variant to an empty cart yields one line: the first payload, with the sum of all the quantities. |
| CartContext.RemoveThenAddAppends | src/context/cart-context.tsx:29-70 | Removing a variant's line and adding that variant again appends a new line instead of merging. |
| CartContext.CartItemsCount | src/components/navbar.tsx:22 | The badge count: the sum of the quantities, folded from the first line. With quantities of at least 1 it is at least the number of lines; with non-negative quantities it is non-negative. |
| CartContext.CountAppend | src/components/navbar.tsx:22 | Appending a line raises the count by its quantity. |
| CartContext.CountSetAt | src/components/navbar.tsx:22 | Replacing one line changes the count by the difference of the quantities. |
| CartContext.CountCons | src/components/navbar.tsx:22 | The count of a non-empty cart is the first line's quantity plus the count of the rest. |
| CartContext.CartStore.constructor | src/context/cart-context.tsx:95-98 | The store starts from the empty cart with total 0. |
| CartContext.CartStore.Dispatch | src/context/cart-context.tsx:117 | The new state is the reducer applied to the old state and the action. |
| Common.Filter | src/context/cart-context.tsx:63 | `Array.prototype.filter`: the result is an order-preserving subsequence. It holds exactly the kept elements. With every element kept, it is the input. |
| Common.FilterCounts | src/context/cart-context.tsx:63 | The filter never adds occurrences, and keeps every accepted element as many times as it occurs in the input. |
| Common.DecimalRoundTrip | src/components/navbar.tsx:105 | A count printed in base ten reads back as the same count. |
| CartPage.QuantityDispatch | src/app/cart/page.tsx:20-23 | The handler dispatches nothing exactly when the quantity is below 1. Otherwise it dispatches UPDATE_QUANTITY with that id and quantity. |
| CartPage.LineButtonDispatch | src/app/cart/page.tsx:78-98 | Trash removes the line's id. Minus dispatches nothing at quantity 1 and otherwise asks for one less. Plus asks for one more. |
| CartPage.HandleRemoveItem | src/app/cart/page.tsx:16-18 | The store takes the REMOVE_ITEM transition for the id. |
| CartPage.HandleUpdateQuantity | src/app/cart/page.tsx:20-23 | Below 1 the store is unchanged. Otherwise it takes the UPDATE_QUANTITY transition. |
| CartPage.PressLineButton | src/app/cart/page.tsx:78-98 | Pressing a line button leaves the store as the button's dispatch, if any, makes it. |
| CartPage.CheckoutDisabled | src/app/cart/page.tsx:157 | The checkout button is disabled exactly when the cart has no lines. |
| CartPage.SummaryTotal | src/app/cart/page.tsx:131-148 | The summary's subtotal and tax lines add up to its total line, with shipping shown as free. The total is never below a non-negative subtotal. |
| CartPage.ItemNoun | src/app/cart/page.tsx:48 | "item" exactly for one line, "items" otherwise. |
| CartPage.HeaderTitle | src/app/cart/page.tsx:48 | The header is "Cart (", then a numeral without leading zeros that reads back as the number of lines (not units), then a space, then "item" for one line or "items" otherwise, then ")". |
| CartPage.PlusRaisesLineByOne | src/app/cart/page.tsx:89 | With unique ids, plus raises exactly that line by one unit and the total by its price. |
| CartPage.MinusLowersLineByOne | src/app/cart/page.tsx:78 | With unique ids, minus on a line above 1 lowers exactly that line by one unit and the total by its price. |
| CartPage.LineButtonsKeepPositiveQuantities | src/app/cart/page.tsx:78-98 | No line button takes any line below quantity 1 or adds lines. |
| Navbar.CartBadge | src/components/navbar.tsx:100-106 | A badge appears exactly for a positive count. It reads "99+" exactly above 99. Otherwise it is a one- or two-digit numeral of the count without a leading zero. |
| Navbar.CountAtLeastLines | src/components/navbar.tsx:22 | With quantities of at least 1, the badge count is at least the number of lines. It equals it exactly when every line holds one unit. |
| Navbar.AddRaisesBadgeCount | src/components/navbar.tsx:22 | With unique ids, ADD_ITEM raises the badge count by the payload's quantity, whether it merges or appends. |
| Navbar.AccountLabel | src/components/navbar.tsx:122 | "Akun" when signed out. When signed in: the full name, else the e-mail, else "Profil", skipping empty strings. Never empty. |
| Navbar.AccountMenu | src/components/navbar.tsx:127-152 | Profile and sign-out exactly when signed in. Sign-in and sign-up otherwise. |
| Navbar.Underlined | src/components/navbar.tsx:89-94 | A link is underlined exactly when the path equals its target. At most one is underlined, and one is exactly when the path is one of the four targets. |
| Products.Includes | src/app/products/page.tsx:121-122 | `includes` is true exactly when the needle occurs at some position of the haystack. |
| Products.TrimStart | src/app/products/page.tsx:129 | The result is a suffix of the input that does not start with white space, and everything cut off is white space. |
| Products.DigitPrefix | src/app/products/page.tsx:129 | The longest prefix made only of decimal digits. |
| Products.ParseInt | src/app/products/page.tsx:129 | A string without any decimal digit parses to NaN. A string starting with a digit parses to a non-negative number. |
| Products.ParseIntOfNumeral | src/app/products/page.tsx:103-107 | Every category value other than "all" (an id's numeral) parses back to the id. "all" parses to NaN. |
| Products.MatchesSearch | src/app/products/page.tsx:120-125 | A product matches exactly when the lower-cased term occurs in its lower-cased name or description. The empty term matches every product. |
| Products.MatchesCategory | src/app/products/page.tsx:128-130 | "all" and the empty value match no product. A product with a non-negative category id matches that id's numeral. |
| Products.Shown | src/app/products/page.tsx:116-133 | The empty term with "all" shows every product. Because the empty term matches everything, the guard on the term changes nothing: a product is shown exactly when it matches the term and, unless the category is "all", the category. |
| Products.FilterProducts | src/app/products/page.tsx:116-133 | The shown products are an order-preserving subsequence of the list. A product appears exactly when it passes the search filter (if the term is non-empty) and the category filter (unless the category is "all"). |
| Products.ResetShowsEverything | src/app/products/page.tsx:259-262 | After "Reset Filter" the whole list is shown in its order. |
| Products.CategorySelectsById | src/app/products/page.tsx:128-130 | With an empty search, choosing category n shows exactly the products whose category id is n. |
| Products.EmptyTermFiltersNothing | src/app/products/page.tsx:120-125 | Applying the text filter with the empty term keeps the whole list. |
| Checkout.SetField | src/app/checkout/page.tsx:53-56 | The named field takes the value. Every other field keeps its own. |
| Checkout.OrEmpty | src/app/checkout/page.tsx:34-36 | The `or ''` fallback: a non-empty value is kept; absent or empty gives "". |
| Checkout.InitialAddress | src/app/checkout/page.tsx:33-43 | Names and e-mail come from the user, or are empty without one. The other fields are empty. The country is Indonesia. |
| Checkout.ShippingCost | src/app/checkout/page.tsx:50 | 15000 for "standard", 35000 for "express", 0 for anything else. |
| Checkout.OrderTotal | src/app/checkout/page.tsx:48-51 | The total is 1.1 times the subtotal plus the shipping cost. It is never below a non-negative subtotal. |
| Checkout.CheckoutAddsShippingToCartTotal | src/app/checkout/page.tsx:48-51 | With standard shipping, the checkout total is the cart page's summary total plus 15000, so it is always higher than the total the cart page shows. |
| Checkout.Render | src/app/checkout/page.tsx:75-87 | As written, the empty-cart view is shown exactly for an empty cart. The confirmation is shown exactly for step 4 with a non-empty cart. |
| Checkout.Buttons | src/app/checkout/page.tsx:245-416 | Place Order is on the review step and nowhere else. |
| Checkout.StepTransitions | src/app/checkout/page.tsx:245-416 | The buttons only move 1 to 2, 2 to 1, 2 to 3, 3 to 2 and 3 to 4, so the step stays in 1..4. |
| Checkout.PlacedOrderShowsEmptyCart | src/app/checkout/page.tsx:58-87 | As written, placing an order from the review step renders the empty-cart view, not the confirmation. |
| Checkout.ConfirmationUnreachable | src/app/checkout/page.tsx:75-87 | As written, no reachable state (step 4 only with an empty cart) shows the confirmation. |
| Checkout.RenderIntended | src/app/checkout/page.tsx:423 | The confirmation is shown exactly at step 4. Otherwise the render is the original one. |
| Checkout.PlacedOrderShowsConfirmation | src/app/checkout/page.tsx:58-73 | With the intended order, placing an order shows the confirmation. |
| Checkout.CheckoutPage.Screen | src/app/checkout/page.tsx:75-87 | As written: an empty cart shows the empty-cart view, and no valid state shows the confirmation. |
| Checkout.CheckoutPage.IntendedScreen | src/app/checkout/page.tsx:423 | With the intended order the confirmation is shown exactly at step 4. Otherwise it is the same as the as-written screen. |
| Checkout.CheckoutPage.Subtotal | src/app/checkout/page.tsx:48 | The cart's total, which is the sum over the lines whenever the cart is consistent, and 0 for the cleared cart. |
| Checkout.CheckoutPage.constructor | src/app/checkout/page.tsx:32-45 | Step 1, the initial address, "credit-card" payment and "standard" shipping. |
| Checkout.CheckoutPage.HandleInputChange | src/app/checkout/page.tsx:53-56 | Only the named address field changes. |
| Checkout.CheckoutPage.SetPaymentMethod | src/app/checkout/page.tsx:262 | Only the payment method changes. |
| Checkout.CheckoutPage.HandlePlaceOrder | src/app/checkout/page.tsx:58-73 | The cart is cleared and the step becomes 4. Nothing else changes. |
| Checkout.CheckoutPage.Press | src/app/checkout/page.tsx:245-416 | A shown step button sets its target step and keeps the page valid. Only Place Order touches the cart. As written, the confirmation is never shown, and Place Order leads to the empty-cart view. With the intended order, the confirmation is shown exactly after Place Order. |
| ServiceGo.ServiceTableWellFormed | src/app/servicego/page.tsx:62-70 | Every estimate has low <= high, and service ids are distinct. |
| ServiceGo.FindServiceFinds | src/app/servicego/page.tsx:93 | For any table and id: the found service has the id and is in the table. None exactly when no entry has it. |
| ServiceGo.FoundServiceHasId | src/app/servicego/page.tsx:62-70 | Every service in the table has a non-empty id, so the empty selection finds no service. |
| ServiceGo.DeviceModels | src/app/servicego/page.tsx:37-59 | Models exist exactly for "iphone", "ipad" and "macbook", and each of these has at least one. |
| ServiceGo.ModelOptions | src/app/servicego/page.tsx:176-188 | A known device type lists its models, enabled and in order. An empty, "other" or unknown type lists only the disabled placeholder. |
| ServiceGo.SelectableModels | src/app/servicego/page.tsx:176-188 | For a known device type, the pickable values are exactly the ids of its models. Nothing can be picked without a device type, with "other" or with an unknown type. A pickable value is never the placeholder. |
| ServiceGo.BookingForm.Complete | src/app/servicego/page.tsx:107 | A complete form that keeps its invariant is for one of the three known device types and has a price estimate. |
| ServiceGo.BookingForm.CheckDisabled | src/app/servicego/page.tsx:293 | An enabled button means no check is running and every selection is made. On a valid form, the model then belongs to the type and the estimate is that of the chosen service. |
| ServiceGo.BookingForm.constructor | src/app/servicego/page.tsx:19-26 | All selections are empty, there is no estimate and no check is running. |
| ServiceGo.BookingForm.HandleDeviceChange | src/app/servicego/page.tsx:87-90 | The type is set and the model is cleared. Nothing else changes. |
| ServiceGo.BookingForm.SetDeviceModel | src/app/servicego/page.tsx:176 | A model of the current type is set. Nothing else changes. |
| ServiceGo.BookingForm.HandleServiceChange | src/app/servicego/page.tsx:92-98 | A known id sets the service and exactly its estimate. An unknown id changes nothing. |
| ServiceGo.BookingForm.SetSchedule | src/app/servicego/page.tsx:232-268 | Date, time and technician are set. Nothing else changes. |
| ServiceGo.BookingForm.StartCheck | src/app/servicego/page.tsx:106-112 | With a selection missing, nothing changes. Otherwise the check starts. |
| ServiceGo.BookingForm.FinishCheck | src/app/servicego/page.tsx:116-118 | The check ends and the selections are unchanged. |
| ServiceGo.PressCheckButton | src/app/servicego/page.tsx:291-293 | An enabled check button always starts a check: its disabled rule implies the handler's guard. |
| OtpVerify.AfterTick | src/app/sign-in/verify/page.tsx:21-28 | One second lowers a positive countdown by one. Resending becomes enabled once the countdown is at 0. |
| OtpVerify.TicksCountDown | src/app/sign-in/verify/page.tsx:21-28 | After n seconds the countdown has fallen by n, but not below 0. Resending is enabled exactly once it has reached 0. |
| OtpVerify.ResendAfterSixtyTicks | src/app/sign-in/verify/page.tsx:18-28 | From the start, resending is enabled after exactly sixty ticks. |
| OtpVerify.VerifyScreen.SubmitDisabled | src/app/sign-in/verify/page.tsx:163 | On a valid screen, an enabled submit button means the code has six characters and no call is pending. |
| OtpVerify.VerifyScreen.ResendDisabled | src/app/sign-in/verify/page.tsx:189 | On a valid screen, an enabled resend button means the countdown is at 0 and no call is pending. While the countdown runs, the button is disabled. |
| OtpVerify.VerifyScreen.constructor | src/app/sign-in/verify/page.tsx:15-19 | Empty code, not loading, no error, countdown 60, resending disabled. |
| OtpVerify.VerifyScreen.Tick | src/app/sign-in/verify/page.tsx:21-28 | The countdown and resend flag follow one tick. Everything else is unchanged. |
| OtpVerify.VerifyScreen.SetOtp | src/app/sign-in/verify/page.tsx:118-120 | The code of at most six characters is stored. Nothing else changes. |
| OtpVerify.VerifyScreen.BeginVerify | src/app/sign-in/verify/page.tsx:30-35 | Starts exactly for a six-character code, setting loading and clearing the error. Otherwise nothing changes. |
| OtpVerify.VerifyScreen.FinishVerify | src/app/sign-in/verify/page.tsx:37-45 | Success navigates home. Failure sets the invalid-code message. Loading ends either way. |
| OtpVerify.VerifyScreen.BeginResend | src/app/sign-in/verify/page.tsx:48-52 | Starts exactly when resending is enabled, setting loading and clearing the error. |
| OtpVerify.VerifyScreen.FinishResend | src/app/sign-in/verify/page.tsx:54-64 | Success restarts the countdown at 60, disables resending and clears the code. Failure sets the resend message. Loading ends either way. |
| AuthCallback.Callback | src/app/api/auth/callback/route.ts:4-25 | An error redirects to sign-in with `oauth_error`. A code without an error goes home. Neither goes to sign-in. Each holds exactly in its case. |
| AuthCallback.CallbackOutcomesDistinct | src/app/api/auth/callback/route.ts:11-24 | The three redirect paths tell the outcomes apart. An empty parameter acts as an absent one. |

## Left out

- Rendering, styling, images and the navbar's loading skeleton. Only the values the pages compute and show are modelled.
- Price formatting with `toLocaleString` and date formatting. Both are display only.
- Checkout.OrderTotal: computed on exact reals. The source's double-precision rounding is not modelled.
- CartPage.SummaryTotal: computed on exact reals, as for the checkout total. The cart page charges no shipping, while checkout adds the shipping cost; `Checkout.CheckoutAddsShippingToCartTotal` states the difference.
- Ids, prices and quantities are JavaScript numbers and are modelled as unbounded integers. Non-integer and NaN quantities (`Math.max(1, NaN)` is NaN) are not modelled. Neither is the loss of precision above 2^53 in the total.
- Navigation (`router.push`, `router.back`), `alert`, `console.log` and the simulated delays. `FinishVerify` returns whether the browser goes home.
- The navbar's `handleSignOut` (src/components/navbar.tsx:25-27) only awaits the auth context's `signOut`, and the auth context is not part of this model. `Navbar.AccountMenu` states only when the sign-out entry is shown.
- OtpVerify.VerifyScreen.BeginVerify and BeginResend: require that no call is in progress. The buttons that trigger them are disabled while loading; the handlers themselves do not check.
- The API calls are not modelled, because the source has none yet: the awaited promises (src/app/sign-in/verify/page.tsx:39 and :56, src/app/servicego/page.tsx:114) are `setTimeout` delays that always resolve, so the `catch` branches (src/app/sign-in/verify/page.tsx:41-42 and :60-61) cannot run as written. `OtpVerify.VerifyScreen.FinishVerify(false)` and `FinishResend(false)` are the code as written; `FinishVerify(true)` and `FinishResend(true)` model the failure of the intended call that the TODO comments announce. A tick may arrive while a delay is pending, as in the browser.
- The order id of the confirmation card is random, and the booking submission only raises an alert; neither is modelled.
- `parseInt`: only ASCII white space and decimal digits are modelled. The `0x` hexadecimal prefix and Unicode white space are not; the category values are decimal numerals or "all".
- `toLowerCase`: only the ASCII letters are lowered.
- `deviceModels[deviceType]` on JavaScript prototype keys such as "constructor" is not modelled. Every type other than the three keys has no models.
- Calendar dates are kept abstract as integers.
- `setShippingMethod` is never called by the checkout page, so the method stays "standard"; the express and zero-cost branches of the cost are modelled but unreachable.
- While checkout is mounted, other pages can also change the shared cart. `CheckoutPage.Valid` assumes they do not.
- The cart model assumes a mounted `CartProvider`: `CartStore`, the `CartPage` handlers and `CheckoutPage.cart` all dispatch to a live reducer. The root layout (src/app/layout.tsx:17-26) mounts only the auth and theme providers, and no modelled file mounts `CartProvider`. Without a provider, `useCart` returns the context's default value (src/context/cart-context.tsx:103-106): an always-empty cart whose `dispatch` does nothing. That case is not modelled.
- `useCart`'s missing-provider guard, the auth context, and the send-otp, verify-otp and register API routes are not part of this model.
- Nothing in the modelled pages dispatches ADD_ITEM (the product detail page is not part of this model); the reducer branch is modelled on its own.

## Findings

| source | as written | input that shows it | evidently intended | confidence | as-written member | corrected member |
|---|---|---|---|---|---|---|
| src/app/checkout/page.tsx:58-87 | `handlePlaceOrder` clears the cart and then sets step 4, but the empty-cart early return is checked before the step. The confirmation card at line 423 is never rendered. | Any non-empty cart on the review step; press "Place Order". | Show the order confirmation after placing the order. | not executed | Checkout.PlacedOrderShowsEmptyCart | Checkout.PlacedOrderShowsConfirmation |
