# putiikkipalvelu storefront core, modelled in Dafny

This project models the client-side logic of the putiikkipalvelu storefront template. The template is a Next.js shop whose pricing, stock, payments and persistence live behind an external SDK. What remains in the shop is a set of state machines and pure rules, modelled here:

- **Cart store** (`useCart`). The cart lines and the applied discount are fields of a class. Optimistic quantity changes take a snapshot, apply ±1 to the matching lines, and then either take the server's list or roll back. Validation can prune lines and drop the coupon. Applying and removing a discount each have their own success and failure rules.
- **Checkout.** The Paytrail and Stripe step machines, the shipment selector (radio value, the normalised selection, the free-shipping rule), and the mapping to the chosen shipment method.
- **Cart page and widgets.** The discount amount and the displayed total, the validation gate before checkout, the discount-code input, the add-to-cart stock gate, and the ticket-holder form.
- **Opening-hours calendar.** The initial month, month stepping, and the Monday-first grid padded to whole weeks.
- **Navigation.** Category paths, the mega-menu open counter, the mobile accordion with its depth limit, and the sticky header's scroll machine with its campaign bar.
- **Ticket scanner.** The session, PIN and event view machine, the use and check tabs with their loading guard, and the ticket result texts.
- **Structured data.** The LocalBusiness, Organization and CollectionPage JSON-LD builders, `getSEOValue` and the SEO fallbacks.
- **Other pages.** The reset-password form, the carousel's sorted copy, and the photo gallery's size cycle and lightbox.

Backend calls (the SDK's server actions) become parameters of type `Result<T, Thrown>`: the reply is either a value or the thrown failure. An async handler whose intermediate state can be observed is split in two: a `Begin…` method that sets the loading flags and returns the request, and a `Complete…` method that takes the reply. A wrapper method composes both for the sequential case. Prices are integer cents.

One module per source file, plus two shared modules:

- `wrappers.dfy`: `Option` and `Result`.
- `text.dfy`: the JavaScript string operations the code relies on. These are `trim`, `toUpperCase`, `startsWith`, `join`, truthiness, `||`, decimal printing, `padStart(2, "0")`, `Number` on digit strings, and the `<` order on strings.

## Model

| member | source | states |
|---|---|---|
| CartStore.ApplyDelta | src/hooks/use-cart.ts:112-118 | the optimistic map keeps the number of lines |
| CartStore.ApplyDeltaAt | src/hooks/use-cart.ts:113-116 | a line changes by exactly the delta iff its product id and variation id both match (an absent variation id matches a line without variation); every other line is unchanged, with no clamping at zero |
| CartStore.ApplyDeltaInverse | src/hooks/use-cart.ts:112-147 | applying -d after +d gives back the original lines, so a decrement undoes an increment |
| CartStore.ApplyDeltaNoMatch | src/hooks/use-cart.ts:113-116 | when no line matches, the optimistic write leaves the lines unchanged |
| CartStore.ApplyDeltaTotal | src/hooks/use-cart.ts:112-118 | the total quantity changes by delta times the number of matching lines |
| CartStore.ApplyErrorMessage | src/hooks/use-cart.ts:208-213 | an Error (or StorefrontError) contributes its own message; any other thrown value gets the generic apply-error message |
| CartStore.Rethrown | src/hooks/use-cart.ts:87-91 | a handler rethrows exactly when the backend call failed, and rethrows that same failure |
| CartStore.Cart.constructor | src/hooks/use-cart.ts:62-67 | the store starts empty, not loading, with no discount and no discount error |
| CartStore.Cart.SyncWithBackend | src/hooks/use-cart.ts:70-79 | success replaces the lines and failure keeps them; nothing is thrown; loading ends false; the discount fields are untouched |
| CartStore.Cart.AddItem | src/hooks/use-cart.ts:82-92 | requests quantity 1 of the product and variation; success takes the server's lines, failure keeps the lines and rethrows; loading ends false |
| CartStore.Cart.RemoveItem | src/hooks/use-cart.ts:95-105 | requests removal of the product and variation; success takes the server's lines, failure keeps them and rethrows; loading ends false |
| CartStore.Cart.BeginQuantityChange | src/hooks/use-cart.ts:109-125 | the snapshot is the lines before the write; the lines become ApplyDelta of the snapshot; the request carries the delta, never an absolute quantity; loading and discount are untouched |
| CartStore.Cart.SettleQuantityChange | src/hooks/use-cart.ts:126-133 | success takes the server's lines; failure restores the snapshot and rethrows |
| CartStore.Cart.IncrementQuantity | src/hooks/use-cart.ts:108-134 | sends delta +1; the lines end as the server's list on success or as the pre-call lines on failure, and the failure is rethrown |
| CartStore.Cart.DecrementQuantity | src/hooks/use-cart.ts:137-163 | sends delta -1; the lines end as the server's list on success or as the pre-call lines on failure, and the failure is rethrown |
| CartStore.Cart.ValidateCart | src/hooks/use-cart.ts:166-189 | sends the current lines with the campaigns; success takes the validated lines and, when the coupon was removed, clears the discount and sets the removal message, otherwise leaves the discount alone; failure keeps lines and discount and rethrows; loading ends false |
| CartStore.Cart.ApplyDiscount | src/hooks/use-cart.ts:192-217 | success stores the returned code, type and value and reports success with no error; failure keeps the discount, sets the error message, and returns that same message; discountLoading ends false |
| CartStore.Cart.RemoveDiscount | src/hooks/use-cart.ts:220-232 | success clears the discount and failure keeps it; the error is cleared; nothing is thrown; discountLoading ends false |
| CartStore.IncrementRollbackExample | src/hooks/use-cart.ts:108-134 | a failed increment of a line at quantity 2 shows 3 while pending and 2 after the rollback, and the request carries delta 1 |
| ShipmentSelector.Normalise | src/components/Checkout/SelectShipmentMethod.tsx:111-116 | the selection's shipment method id is the radio value's id |
| ShipmentSelector.NormalisePickupValue | src/components/Checkout/SelectShipmentMethod.tsx:104-116 | decoding a pickup point's radio value gives its shipment method id, its own id as pickup point and its service id |
| ShipmentSelector.NormaliseDeliveryValue | src/components/Checkout/SelectShipmentMethod.tsx:104-133 | decoding a home-delivery radio value gives its id with both pickup point and service id null |
| ShipmentSelector.NormaliseNeverMixes | src/components/Checkout/SelectShipmentMethod.tsx:111-116 | a delivery choice never carries pickup or service ids; a pickup choice carries exactly its own |
| ShipmentSelector.RadioValuesDistinct | src/components/Checkout/SelectShipmentMethod.tsx:104-109 | a pickup value never equals a delivery value, and two pickup values are equal iff their id, shipment method and service id agree |
| ShipmentSelector.FreeShippingInfoAgrees | src/components/Checkout/SelectShipmentMethod.tsx:62-93 | the free badge shows iff the threshold and total exist and total ≥ threshold; nothing shows when either is missing; otherwise "add more" shows threshold − total, which is positive |
| ShipmentSelector.FreeShippingMonotone | src/components/Checkout/SelectShipmentMethod.tsx:87-93 | a larger cart total keeps free shipping |
| ShipmentSelector.FormatDistanceMetres | src/components/Checkout/SelectShipmentMethod.tsx:95-97 | a null distance gives null; under 1000 m the integer metre value is shown; otherwise the kilometre form of the same value |
| ShipmentSelector.VisiblePickupPoints | src/components/Checkout/SelectShipmentMethod.tsx:182-185 | the shown points are the first min(4, n), or all n when "show all" is on (see also line 47) |
| ShipmentSelector.ToggleLabelReportsHidden | src/components/Checkout/SelectShipmentMethod.tsx:309-318 | the toggle exists iff n > 4; collapsed, its label reports the n − 4 hidden points |
| ShipmentSelector.ViewNoMethods | src/components/Checkout/SelectShipmentMethod.tsx:138-144 | missing lists default to empty, and with both lists empty only the no-methods message is rendered (see also lines 50-51) |
| ShipmentSelector.Selector.constructor | src/components/Checkout/SelectShipmentMethod.tsx:43-44 | nothing is selected and the list starts collapsed |
| ShipmentSelector.Selector.HandleValueChange | src/components/Checkout/SelectShipmentMethod.tsx:101-116 | records the radio value and reports its normalised selection |
| ShipmentSelector.Selector.ToggleShowAll | src/components/Checkout/SelectShipmentMethod.tsx:309-318 | flips "show all" |
| CheckoutCommon.ChosenShipmentMethodRoundTrip | src/components/Checkout/PaytrailCheckoutPage.tsx:139-146 | no selection maps to null; a selection maps to its method id, its pickup point id as pickupId, and its service id |
| CheckoutCommon.ChosenDeliveryHasNoPickup | src/components/Checkout/PaytrailCheckoutPage.tsx:139-146 | a home-delivery choice reaches the payment call with no pickup id and no service id |
| CheckoutCommon.CartTotalAfterDiscountCases | src/components/Checkout/PaytrailCheckoutPage.tsx:32-39 | the selector's total is the cart total with no discount, total − value for a fixed amount, and total − round(total·value/100) for a percentage (see also line 204) |
| CheckoutCommon.CartTotalAfterPercentage | src/components/Checkout/StripeCheckoutPage.tsx:32-39 | a percentage between 0 and 100 keeps the selector's total between 0 and the cart total (see also line 169) |
| PaytrailCheckout.TicketOnlySkipsShipping | src/components/Checkout/PaytrailCheckoutPage.tsx:42 | shipping is required iff some line is not a ticket |
| PaytrailCheckout.StepTitlesShape | src/components/Checkout/PaytrailCheckoutPage.tsx:54-63 | three steps with shipping and two without; customer data first and payment last; the shipping step is present iff shipping is required |
| PaytrailCheckout.PaytrailCheckoutPage.constructor | src/components/Checkout/PaytrailCheckoutPage.tsx:44-52 | the wizard starts on step 1 with nothing loaded or selected |
| PaytrailCheckout.PaytrailCheckoutPage.HandleCustomerDataSubmit | src/components/Checkout/PaytrailCheckoutPage.tsx:65-123 | stores the customer data; a ticket-only cart creates the payment (success: payment data, step 2; failure: toast, step unchanged); a shipping cart requests options with postal code, lines, campaigns and discount amount (success: options, step 2; failure: toast, step and options unchanged); loading ends, except that a thrown shipping call leaves the page loading with nothing else changed |
| PaytrailCheckout.ShippingThrowExample | src/components/Checkout/PaytrailCheckoutPage.tsx:100-105 | a cart that needs shipping whose options call throws stays on step 1, loading, with no options and no toast |
| PaytrailCheckout.PaytrailCheckoutPage.OnSelect | src/components/Checkout/PaytrailCheckoutPage.tsx:203 | records the selected shipment |
| PaytrailCheckout.PaytrailCheckoutPage.HandlePaytrailCheckout | src/components/Checkout/PaytrailCheckoutPage.tsx:128-168 | invalid customer data aborts with no backend call and no step change; otherwise the chosen shipment method is sent, success stores the payment and moves to step 3, and failure keeps the step |
| PaytrailCheckout.PaytrailCheckoutPage.HandleGoBack | src/components/Checkout/PaytrailCheckoutPage.tsx:173-183 | steps back when step > 1; landing on step 1 clears the selection and keeps the customer data; at step 1 nothing changes |
| PaytrailCheckout.PaytrailCheckoutPage.CheckoutDisabled | src/components/Checkout/PaytrailCheckoutPage.tsx:228 | the proceed button is disabled until a shipment method is selected; OnSelect ensures it is enabled afterwards |
| StripeCheckout.StripeCheckoutPage.constructor | src/components/Checkout/StripeCheckoutPage.tsx:41-47 | the wizard starts on step 1 with nothing loaded or selected |
| StripeCheckout.StripeCheckoutPage.HandleCustomerDataSubmit | src/components/Checkout/StripeCheckoutPage.tsx:57-93 | stores the customer data; success stores the options and moves to step 2; failure shows the toast and stays on step 1; loading ends, except that a thrown shipping call leaves the page loading with nothing else changed |
| StripeCheckout.ShippingThrowExample | src/components/Checkout/StripeCheckoutPage.tsx:66-71 | a shipping options call that throws leaves the page on step 1, loading, with no options and no toast |
| StripeCheckout.StripeCheckoutPage.OnSelect | src/components/Checkout/StripeCheckoutPage.tsx:168 | records the selected shipment |
| StripeCheckout.StripeCheckoutPage.HandleStripeCheckout | src/components/Checkout/StripeCheckoutPage.tsx:95-135 | ignored while loading; invalid data resets loading with no call; success navigates to the returned URL and leaves loading on; failure resets loading and keeps the step |
| StripeCheckout.StripeCheckoutPage.HandleGoBack | src/components/Checkout/StripeCheckoutPage.tsx:138-149 | going back lands on step 1 and clears the selection when coming from step 2; at step 1 it is a no-op |
| StripeCheckout.StripeCheckoutPage.PayDisabled | src/components/Checkout/StripeCheckoutPage.tsx:195 | the pay button is disabled without a selection or while a payment starts; after OnSelect it is disabled iff loading |
| StripeCheckout.DoubleSubmitIgnored | src/components/Checkout/StripeCheckoutPage.tsx:97-99 | a second pay click while the first succeeded is ignored and the button stays disabled (see also line 195) |
| CartPage.RoundHundredthNearest | src/components/Cart/CartPage.tsx:33-36 | the rounding used for percentage discounts is within half a unit of the exact value |
| CartPage.PercentageDiscountBounds | src/components/Cart/CartPage.tsx:33-36 | for a percentage in 0..100 and a non-negative total, the discount lies between 0 and the total |
| CartPage.DiscountAmountCases | src/components/Cart/CartPage.tsx:29-40 | no discount gives 0; a fixed amount gives its value unchanged; a percentage gives the whole number of cents nearest to total·value/100, so 0 % or a zero total gives 0 |
| CartPage.DisplayedTotalRule | src/components/Cart/CartPage.tsx:318-320 | the shown total is total − discount iff a discount exists and its amount is positive, otherwise the total |
| CartPage.ShowDiscountInput | src/components/Cart/CartPage.tsx:284 | the discount-code input is offered only for a non-empty cart without campaign savings |
| CartPage.BuildChangeMessages | src/components/Cart/CartPage.tsx:89-124 | the messages built by the push sequence are the change-message list |
| CartPage.ChangeMessagesCount | src/components/Cart/CartPage.tsx:89-124 | one message per non-zero count or true flag, and none exactly when nothing changed |
| CartPage.ChangeMessagesOrder | src/components/Cart/CartPage.tsx:89-124 | removed items come first and the coupon message last |
| CartPage.CartPageState.constructor | src/components/Cart/CartPage.tsx:43-44 | not validating, no banner, no toast, no navigation |
| CartPage.CartPageState.BeginCheckout | src/components/Cart/CartPage.tsx:69-73 | a no-op while validating; otherwise clears the banner and starts validation |
| CartPage.CartPageState.CompleteCheckout | src/components/Cart/CartPage.tsx:74-133 | a failure result shows the error toast and stays; changes set the banner and block navigation; no changes navigate to /payment/checkout; validation ends in these three cases, while a thrown validateCart ends the handler at the await and leaves the page validating with nothing else changed |
| CartPage.CartPageState.OnItemsChanged | src/components/Cart/CartPage.tsx:62-67 | a change of the cart lines clears the banner |
| CartPage.CartPageState.CheckoutDisabled | src/components/Cart/CartPage.tsx:362 | the checkout button is disabled while the cart loads or a validation is pending; BeginCheckout ensures it holds once a checkout starts |
| CartPage.CheckoutGateExample | src/components/Cart/CartPage.tsx:89-129 | a validation that removed a line blocks checkout and does not navigate |
| CartPage.CheckoutThrowExample | src/components/Cart/CartPage.tsx:70-74 | a validateCart that throws leaves the checkout button disabled (line 362) and the page where it was |
| DiscountCodeInput.NormaliseCodeIsNormal | src/components/Cart/DiscountCodeInput.tsx:28-29 | a non-blank code normalises to a non-empty, trimmed, upper-case code, and normalising again changes nothing |
| DiscountCodeInput.TypedCodeNormalisesAlike | src/components/Cart/DiscountCodeInput.tsx:29-93 | upper-casing on input changes neither the applied code nor whether it is blank |
| DiscountCodeInput.ViewRule | src/components/Cart/DiscountCodeInput.tsx:47-77 | the applied view shows iff a discount exists; otherwise the form shows the error, and its button is disabled while loading or blank (see also lines 104, 113-115) |
| DiscountCodeInput.DiscountCodeField.constructor | src/components/Cart/DiscountCodeInput.tsx:18 | the code starts empty |
| DiscountCodeInput.DiscountCodeField.OnChange | src/components/Cart/DiscountCodeInput.tsx:93 | typed input is stored upper-cased |
| DiscountCodeInput.DiscountCodeField.HandleApply | src/components/Cart/DiscountCodeInput.tsx:27-33 | a blank code makes no call; otherwise the trimmed, upper-cased code is applied, the input clears only on success, and the shown error is cleared on success or set to the store's message on failure |
| DiscountCodeInput.DiscountCodeField.HandleKeyDown | src/components/Cart/DiscountCodeInput.tsx:39-44 | Enter takes the apply path with both of its outcomes: a blank code changes nothing, otherwise the normalised code is sent, the field clears on success, the discount is the reply and the shown error is None or the store's message; any other key changes nothing |
| AddToCart.CountedLines | src/components/Cart/AddToCartButton.tsx:27-35 | the lines summed all belong to the product (and to the variation when one is selected) |
| AddToCart.CurrentCartQuantityIsSum | src/components/Cart/AddToCartButton.tsx:27-35 | the reduce equals the total quantity of the counted lines |
| AddToCart.CountsIsStoreMatch | src/components/Cart/AddToCartButton.tsx:27-35 | with a variation selected, the counted lines are the ones the cart store's quantity update matches |
| AddToCart.OutOfStockRule | src/components/Cart/AddToCartButton.tsx:23-38 | null stock is never out of stock; otherwise out of stock iff stock − cart quantity ≤ 0 |
| AddToCart.LabelPrecedence | src/components/Cart/AddToCartButton.tsx:81-85 | out of stock wins; "Lisätty" shows iff in stock and just added |
| AddToCart.ErrorToastRule | src/components/Cart/AddToCartButton.tsx:48-62 | CART_LIMIT_EXCEEDED selects the cart-limit toast and every other failure the generic one |
| AddToCart.AddToCartButton.constructor | src/components/Cart/AddToCartButton.tsx:18 | not yet added, no toast |
| AddToCart.AddToCartButton.HandleAddToCart | src/components/Cart/AddToCartButton.tsx:40-65 | a request is made iff the button is enabled; out of stock changes nothing; success sets "just added"; a failure result shows the error toast; a thrown addItem ends the handler at the await with nothing changed |
| AddToCart.AddToCartButton.Disabled | src/components/Cart/AddToCartButton.tsx:79 | the button is disabled exactly when out of stock, which is exactly when HandleAddToCart makes no request |
| TicketHolders.SetAt | src/components/Checkout/TicketHoldersForm.tsx:48-53 | assigning index i of a copied (possibly sparse) array sets that index only, padding new holes with absent entries |
| TicketHolders.EmptyHolders | src/components/Checkout/TicketHoldersForm.tsx:28-33 | cartQuantity empty holders, none for a non-positive quantity |
| TicketHolders.InitialForShape | src/components/Checkout/TicketHoldersForm.tsx:23-36 | the keys are the ticket lines' product ids, and each holds cartQuantity empty holders of a line with that id |
| TicketHolders.InitialForDistinct | src/components/Checkout/TicketHoldersForm.tsx:23-36 | with distinct product ids, each line's entry is exactly its cartQuantity empty holders |
| TicketHolders.InitialHolders | src/components/Checkout/TicketHoldersForm.tsx:23-36 | initialData is used verbatim when given; otherwise the holders are built by the loop over ticket lines |
| TicketHolders.UpdateHolderChangesOneField | src/components/Checkout/TicketHoldersForm.tsx:40-55 | only the named field of holders[productId][index] changes; other fields, indices and products stay; an absent product starts from an empty list |
| TicketHolders.UpdateBothNamesValid | src/components/Checkout/TicketHoldersForm.tsx:40-74 | setting non-blank first and last names clears that holder's missing-name error |
| TicketHolders.MissingFlags | src/components/Checkout/TicketHoldersForm.tsx:68-74 | one flag per index below cartQuantity |
| TicketHolders.ErrorArrayNonEmpty | src/components/Checkout/TicketHoldersForm.tsx:68-78 | the (sparse) error array is non-empty iff some index was flagged |
| TicketHolders.ItemErrorsRule | src/components/Checkout/TicketHoldersForm.tsx:68-74 | an error sits at index i < cartQuantity iff that holder is missing or has a blank trimmed name: below the array's end the entry says so, and no index between its end and cartQuantity misses a name; indices ≥ cartQuantity are never checked |
| TicketHolders.LineErrorsRule | src/components/Checkout/TicketHoldersForm.tsx:68-78 | a line has errors iff one of its first cartQuantity holders is missing a name |
| TicketHolders.AnyMissingByLine | src/components/Checkout/TicketHoldersForm.tsx:68-78 | hasErrors holds iff some line has errors |
| TicketHolders.ErrorsForRule | src/components/Checkout/TicketHoldersForm.tsx:76-78 | the errors map has a key exactly for the products of lines with at least one error, every entry is non-empty, and the map is empty iff nothing is missing |
| TicketHolders.ErrorsForPrefix | src/components/Checkout/TicketHoldersForm.tsx:61-79 | after the first k ticket lines every entry of the error map is non-empty, and the map is empty iff none of those lines has a missing name |
| TicketHolders.ErrorsForKeys | src/components/Checkout/TicketHoldersForm.tsx:61-79 | after the first k ticket lines a product is a key of the error map iff one of those lines for that product has an error |
| TicketHolders.CheckLine | src/components/Checkout/TicketHoldersForm.tsx:68-74 | the inner loop builds the item-error array for the first cartQuantity pieces (none for a non-positive quantity), and reports a missing name iff that array is non-empty |
| TicketHolders.ValidateHolders | src/components/Checkout/TicketHoldersForm.tsx:61-79 | the loop fills newErrors and hasErrors as the errors map and the any-missing flag |
| TicketHolders.TicketHoldersForm.constructor | src/components/Checkout/TicketHoldersForm.tsx:23-38 | the form starts from initialData or the built holders, with no errors |
| TicketHolders.TicketHoldersForm.UpdateField | src/components/Checkout/TicketHoldersForm.tsx:40-55 | the holders become the copy-on-write update |
| TicketHolders.TicketHoldersForm.HandleSubmit | src/components/Checkout/TicketHoldersForm.tsx:57-85 | errors are always replaced, and onSubmit(holders) is called iff there are no errors |
| OpeningHoursCalendar.ParseMonthPrefix | src/components/OpeningHoursCalendar.tsx:47-55 | split("-").map(Number) of a printed YYYY-MM prefix gives back its year and month |
| OpeningHoursCalendar.DateKeyFields | src/components/OpeningHoursCalendar.tsx:193 | a date key splits into the year, the padded month and the padded day, and each parses back |
| OpeningHoursCalendar.DateKeyInjective | src/components/OpeningHoursCalendar.tsx:193-195 | different days of the grid have different keys |
| OpeningHoursCalendar.ParseKeyMonth | src/components/OpeningHoursCalendar.tsx:52-55 | the first seven characters of a YYYY-MM-DD key parse to a month in 1..12 |
| OpeningHoursCalendar.Prefixes | src/components/OpeningHoursCalendar.tsx:52 | the month list holds each key's first seven characters |
| OpeningHoursCalendar.LeastAboveRule | src/components/OpeningHoursCalendar.tsx:52-53 | the first sorted month after the current one is the least month above it, and none exists iff no month is above it |
| OpeningHoursCalendar.GreatestRule | src/components/OpeningHoursCalendar.tsx:52-59 | the last sorted month is a listed month and no month is above it |
| OpeningHoursCalendar.InitialPrefixRule | src/components/OpeningHoursCalendar.tsx:37-62 | no keys: the current month; a key in the current month: the current month; else the least later month; else the latest listed month |
| OpeningHoursCalendar.InitialPrefixNone | src/components/OpeningHoursCalendar.tsx:37-62 | the initial month stays the current month exactly when there are no keys or some key lies in the current month |
| OpeningHoursCalendar.InitialPrefixSome | src/components/OpeningHoursCalendar.tsx:37-62 | a chosen month is one of the listed months: the least one after the current month if there is one, otherwise the latest listed month |
| OpeningHoursCalendar.InitialMonthValid | src/components/OpeningHoursCalendar.tsx:37-62 | with well-formed keys the initial month always exists and lies in 1..12 |
| OpeningHoursCalendar.MonthSteps | src/components/OpeningHoursCalendar.tsx:68-84 | next and previous keep the month in 1..12, move the month index by exactly one, and undo each other |
| OpeningHoursCalendar.StartOffsetRule | src/components/OpeningHoursCalendar.tsx:89 | the Monday-first offset is in 0..6: Monday gives 0, Sunday 6 |
| OpeningHoursCalendar.DayCells | src/components/OpeningHoursCalendar.tsx:93 | the day cells are 1..daysInMonth ascending |
| OpeningHoursCalendar.PaddingRule | src/components/OpeningHoursCalendar.tsx:94 | the padding is the least number of cells reaching a multiple of 7 |
| OpeningHoursCalendar.CellsShape | src/components/OpeningHoursCalendar.tsx:86-96 | the grid length is a multiple of 7 and less than offset + days + 7; day d sits at offset + d − 1; every other cell is null |
| OpeningHoursCalendar.BuildCells | src/components/OpeningHoursCalendar.tsx:91-95 | the three push loops build exactly that grid |
| OpeningHoursCalendar.CountWithPrefixIsCard | src/components/OpeningHoursCalendar.tsx:98-101 | the open-days count is the number of distinct keys starting with the month prefix |
| OpeningHoursCalendar.OpenDayCounted | src/components/OpeningHoursCalendar.tsx:98-101 | a month with an open day has a positive count (see also lines 193-195) |
| OpeningHoursCalendar.CalendarView.constructor | src/components/OpeningHoursCalendar.tsx:64-65 | the view starts on the given month |
| OpeningHoursCalendar.CalendarView.Mount | src/components/OpeningHoursCalendar.tsx:37-65 | the mounted calendar opens on the initial month chosen from the keys and the current month |
| OpeningHoursCalendar.CalendarView.GoNext | src/components/OpeningHoursCalendar.tsx:68-75 | moves to the next month: December wraps to January of the next year |
| OpeningHoursCalendar.CalendarView.GoPrev | src/components/OpeningHoursCalendar.tsx:77-84 | moves to the previous month: January wraps to December of the previous year |
| OpeningHoursCalendar.CalendarView.Cells | src/components/OpeningHoursCalendar.tsx:86-96 | the grid of the shown month, for the weekday of its first day |
| OpeningHoursCalendar.CalendarView.IsOpen | src/components/OpeningHoursCalendar.tsx:193-195 | a day is open iff its YYYY-MM-DD key has an entry |
| OpeningHoursCalendar.CalendarView.ShowsPlaceholder | src/components/OpeningHoursCalendar.tsx:103 | with no keys only the placeholder is rendered |
| OpeningHoursCalendar.CalendarView.OpenDayShown | src/components/OpeningHoursCalendar.tsx:98-103 | an open day of the shown month makes the footer count positive; with no keys no day is open and the count is 0 |
| Categories.BuildCategoryPath | src/components/Navigation/NavbarLinks.tsx:9-14 | an empty parent path gives the slug; otherwise parent + "/" + slug |
| Categories.PathExtendsParent | src/components/Navigation/MobileLinks.tsx:21-26 | a child's path starts with its parent's path and a slash, and ends with its own slug |
| NavbarLinks.IsMegaRule | src/components/Navigation/NavbarLinks.tsx:21-35 | missing children means no grandchildren and not mega; an item is mega iff it has grandchildren |
| NavbarLinks.GrandchildLinkShape | src/components/Navigation/NavbarLinks.tsx:87-104 | child links are /products/parent/child and grandchild links /products/parent/child/grandchild |
| NavbarLinks.MegaMenuCounter.constructor | src/components/Navigation/NavbarLinks.tsx:165 | the open count starts at 0 |
| NavbarLinks.MegaMenuCounter.HandleOpen | src/components/Navigation/NavbarLinks.tsx:168-174 | adds one and reports the menu open |
| NavbarLinks.MegaMenuCounter.HandleClose | src/components/Navigation/NavbarLinks.tsx:168-178 | takes max(0, c − 1), so the count never goes negative; the event reports open iff the count stays positive |
| NavbarLinks.CategoryNavItem.constructor | src/components/Navigation/NavbarLinks.tsx:33 | not hovered |
| NavbarLinks.CategoryNavItem.HandleEnter | src/components/Navigation/NavbarLinks.tsx:38-71 | hovering opens the dropdown iff the item has children, and only a mega item counts as an open |
| NavbarLinks.CategoryNavItem.HandleLeave | src/components/Navigation/NavbarLinks.tsx:43-46 | leaving closes the dropdown; only a mega item counts as a close, and it dispatches whether menus are still open, or nothing when the count was already 0 |
| NavbarLinks.HoverRoundTrip | src/components/Navigation/NavbarLinks.tsx:38-46 | entering and leaving a mega item restores the open count |
| MobileLinks.IndentClass | src/components/Navigation/MobileLinks.tsx:28-31 | the indent is class number min(depth, 2) of the three |
| MobileLinks.RowsBounded | src/components/Navigation/MobileLinks.tsx:101-108 | nested rows never go deeper than level 2, and every row's path extends the parent path plus "/" (see also lines 19, 47-50) |
| MobileLinks.ChildRowsBounded | src/components/Navigation/MobileLinks.tsx:101-108 | the rows of a list of children obey the same depth and path bounds |
| MobileLinks.TopLevelChildRows | src/components/Navigation/MobileLinks.tsx:228-235 | a top-level section's children start at depth 1 under the section's slug |
| MobileLinks.Toggled | src/components/Navigation/MobileLinks.tsx:140-142 | toggling gives null iff the same id was open, otherwise that id |
| MobileLinks.ToggleTwice | src/components/Navigation/MobileLinks.tsx:140-142 | toggling the same id twice restores the state when no section was open or that section was the open one; from another open section it ends with none open |
| MobileLinks.MobileMenu.constructor | src/components/Navigation/MobileLinks.tsx:131-134 | the sheet is closed and no section is open |
| MobileLinks.MobileMenu.ToggleCategory | src/components/Navigation/MobileLinks.tsx:140-142 | the toggled section flips and every other section is closed, so at most one is open |
| MobileLinks.MobileMenu.SetOpen | src/components/Navigation/MobileLinks.tsx:146 | the sheet follows its open flag |
| MobileLinks.MobileMenu.HandleLinkClick | src/components/Navigation/MobileLinks.tsx:136-138 | any link click closes the sheet |
| MobileLinks.MobileCategoryItem.constructor | src/components/Navigation/MobileLinks.tsx:46 | a nested category starts collapsed |
| MobileLinks.MobileCategoryItem.ToggleExpanded | src/components/Navigation/MobileLinks.tsx:54-56 | flips the expansion |
| MobileLinks.MobileCategoryItem.HandleCategoryClick | src/components/Navigation/MobileLinks.tsx:58-61 | a nested link click collapses the item and closes the sheet |
| StickyNavbar.NextScrolledRule | src/components/Navigation/StickyNavbar.tsx:35-41 | y ≤ 10 gives not scrolled; above that, scrolled iff y > last when y differs from it; an equal y keeps the state |
| StickyNavbar.AfterScrollsLast | src/components/Navigation/StickyNavbar.tsx:32-44 | after a run of scroll events the header is scrolled iff the last position is past 10 and below the one before it |
| StickyNavbar.CampaignEmoji | src/components/Navigation/StickyNavbar.tsx:22-29 | BUY_X_PAY_Y maps to the money bag, everything else to the target |
| StickyNavbar.Bar | src/components/Navigation/StickyNavbar.tsx:94-101 | one entry per campaign with its emoji, and a separator after every entry but the last |
| StickyNavbar.SeparatorsCount | src/components/Navigation/StickyNavbar.tsx:99-101 | n campaigns carry n − 1 separators |
| StickyNavbar.Header.constructor | src/components/Navigation/StickyNavbar.tsx:18-20 | not scrolled, menu closed, last position 0 |
| StickyNavbar.Header.HandleScroll | src/components/Navigation/StickyNavbar.tsx:32-44 | the scrolled flag follows the scroll rule and the last position becomes y on every event |
| StickyNavbar.Header.HandleMegaMenu | src/components/Navigation/StickyNavbar.tsx:46-59 | the mega-menu flag follows the event, and an open menu hides the campaign bar |
| StickyNavbar.Header.ShowCampaign | src/components/Navigation/StickyNavbar.tsx:58-59 | the campaign bar shows only at the top, with the mega menu closed and at least one campaign |
| StickyNavbar.BackToTop | src/components/Navigation/StickyNavbar.tsx:35-64 | back at the top with the menu closed, the campaign bar shows and the header is transparent |
| TicketScanner.Scanner.constructor | src/components/Scanner/TicketScanner.tsx:19-20 | no session and no selected event before restoring |
| TicketScanner.Scanner.CurrentView | src/components/Scanner/TicketScanner.tsx:56-70 | a session shows the dashboard; otherwise a selected event shows PIN entry; otherwise the event list |
| TicketScanner.Scanner.Restore | src/components/Scanner/TicketScanner.tsx:22-31 | a stored entry that parses becomes the session; one that does not is deleted and the session stays null; no entry changes nothing |
| TicketScanner.Scanner.HandleEventSelect | src/components/Scanner/TicketScanner.tsx:33-35 | sets only the selected event |
| TicketScanner.Scanner.HandlePinSuccess | src/components/Scanner/TicketScanner.tsx:37-42 | stores and sets the session {eventId, eventName}, clears the selected event, and shows the dashboard |
| TicketScanner.Scanner.HandleBack | src/components/Scanner/TicketScanner.tsx:44-46 | clears only the selected event, returning to the event list |
| TicketScanner.Scanner.HandleLogout | src/components/Scanner/TicketScanner.tsx:48-52 | removes the stored session and clears both fields |
| TicketScanner.ReloadRestores | src/components/Scanner/TicketScanner.tsx:22-42 | after a PIN success, a reload restores the same dashboard |
| PinEntry.PinForm.constructor | src/components/Scanner/PinEntry.tsx:14-16 | empty PIN, no error, not loading |
| PinEntry.PinForm.OnChange | src/components/Scanner/PinEntry.tsx:58 | stores the typed PIN |
| PinEntry.PinForm.BeginSubmit | src/components/Scanner/PinEntry.tsx:18-23 | clears the error, sets loading, and sends the event id with the PIN |
| PinEntry.PinForm.CompleteSubmit | src/components/Scanner/PinEntry.tsx:24-32 | success hands the returned event (not the prop) to the callback; a non-success result does nothing; a failure sets the invalid-PIN error; loading ends false |
| PinEntry.PinForm.SubmitDisabled | src/components/Scanner/PinEntry.tsx:69 | the submit button is disabled while loading or with an empty PIN; BeginSubmit ensures it is disabled during the call |
| PinEntry.Login | src/components/Scanner/PinEntry.tsx:18-33 | a successful PIN check switches the scanner to the dashboard of the returned event; otherwise the PIN entry stays |
| UseTicketTab.UseTab.constructor | src/components/Scanner/UseTicketTab.tsx:14-21 | no result, no error, empty code, not loading |
| UseTicketTab.UseTab.OnChange | src/components/Scanner/UseTicketTab.tsx:65 | stores the typed code |
| UseTicketTab.UseTab.BeginUseTicket | src/components/Scanner/UseTicketTab.tsx:23-28 | clears error and result, sets loading, and sends the code with the event id |
| UseTicketTab.UseTab.CompleteUseTicket | src/components/Scanner/UseTicketTab.tsx:29-35 | success sets the result to the response; failure sets the fixed error; loading ends false |
| UseTicketTab.UseTab.HandleScan | src/components/Scanner/UseTicketTab.tsx:38-58 | a scan while loading is ignored and changes nothing; otherwise the code is used |
| UseTicketTab.UseTab.HandleManualSubmit | src/components/Scanner/UseTicketTab.tsx:42-45 | a blank code is ignored; otherwise the trimmed code is used |
| UseTicketTab.UseTab.HandleReset | src/components/Scanner/UseTicketTab.tsx:47-55 | clears result, error and code, so the scanner shows again |
| UseTicketTab.UseTab.ShowsResult | src/components/Scanner/UseTicketTab.tsx:55 | the result card replaces the scanner exactly when there is a result; a successful CompleteUseTicket shows it, BeginUseTicket and HandleReset hide it |
| UseTicketTab.UseTab.ScannerPaused | src/components/Scanner/UseTicketTab.tsx:58 | the scanner is paused exactly while a call is in flight: from BeginUseTicket to CompleteUseTicket |
| UseTicketTab.UseTab.SubmitDisabled | src/components/Scanner/UseTicketTab.tsx:71 | the manual submit is disabled while loading or for a blank code |
| UseTicketTab.TrimmedCodeSent | src/components/Scanner/UseTicketTab.tsx:42-45 | a padded manual code is sent trimmed, and trimming it again changes nothing |
| CheckTicketTab.CheckTab.constructor | src/components/Scanner/CheckTicketTab.tsx:10-13 | no ticket, no error, empty code, not loading |
| CheckTicketTab.CheckTab.OnChange | src/components/Scanner/CheckTicketTab.tsx:57 | stores the typed code |
| CheckTicketTab.CheckTab.BeginCheck | src/components/Scanner/CheckTicketTab.tsx:15-19 | clears error and ticket, sets loading, sends the code |
| CheckTicketTab.CheckTab.CompleteCheck | src/components/Scanner/CheckTicketTab.tsx:20-80 | success stores the ticket and marks the result a success iff its status is VALID; failure sets "Lippua ei löytynyt"; loading ends false |
| CheckTicketTab.CheckTab.HandleScan | src/components/Scanner/CheckTicketTab.tsx:30-32 | a scan while loading is ignored; otherwise the code is checked |
| CheckTicketTab.CheckTab.HandleManualSubmit | src/components/Scanner/CheckTicketTab.tsx:34-37 | a blank code is ignored; otherwise the trimmed code is checked |
| CheckTicketTab.CheckTab.HandleReset | src/components/Scanner/CheckTicketTab.tsx:39-47 | clears ticket, error and code |
| CheckTicketTab.CheckTab.ShowsResult | src/components/Scanner/CheckTicketTab.tsx:47 | the result card replaces the scanner exactly when a ticket is stored; a successful CompleteCheck shows it, BeginCheck hides it |
| CheckTicketTab.CheckTab.ResultSuccess | src/components/Scanner/CheckTicketTab.tsx:80 | the card reports success iff the ticket status is VALID |
| CheckTicketTab.CheckTab.SubmitDisabled | src/components/Scanner/CheckTicketTab.tsx:63 | the manual submit is disabled while loading or for a blank code; BeginCheck ensures it is disabled during the call |
| CheckTicketTab.ScanDuringCheck | src/components/Scanner/CheckTicketTab.tsx:30-32 | a second scan during a check is dropped, and one after the reply is accepted |
| TicketResult.StatusLabel | src/components/Scanner/TicketResult.tsx:11-16 | a label exists iff the status is one of the four known codes, and it is non-empty |
| TicketResult.StatusTextRule | src/components/Scanner/TicketResult.tsx:55-74 | the status row shows the label or the raw status for unknown codes; the banner shows the message if given, else that status text |
| TicketResult.UsageTextRule | src/components/Scanner/TicketResult.tsx:46-49 | the text ends in " (rajaton)" iff maxUses is 0; otherwise it reads "used / max" |
| TicketResult.HolderRowRule | src/components/Scanner/TicketResult.tsx:69-71 | the holder row appears iff a first or last name exists, and shows the trimmed join |
| TicketResult.FormatPrice | src/components/Scanner/TicketResult.tsx:29-35 | a null price shows "-"; otherwise the price in euros |
| TicketResult.ValidUntilText | src/components/Scanner/TicketResult.tsx:77-80 | a missing end date shows "Ei päättymispäivää"; otherwise the formatted date |
| TicketResult.ColoursFor | src/components/Scanner/TicketResult.tsx:42-44 | success gives the green classes and failure the red ones |
| TicketResult.ColoursDistinguish | src/components/Scanner/TicketResult.tsx:42-44 | the colours depend only on, and determine, the success flag |
| StoreConfig.GetSEOValue | src/lib/actions/storeConfigActions.ts:29-31 | the value whenever it is present, including "" and 0; the fallback exactly when it is null or undefined |
| StoreConfig.GetSEOValueRule | src/lib/actions/storeConfigActions.ts:29-31 | a present value other than the fallback is never replaced, and applying twice equals applying once |
| StoreConfig.GetSEOValueKeepsEmpty | src/lib/actions/storeConfigActions.ts:30 | an empty string passes through `??`, unlike `||` |
| StoreConfig.DomainFallback | src/lib/actions/storeConfigActions.ts:16 | the fallback domain is the base URL setting when set, else https://example.com, and never empty |
| SchemaParts.FilterTruthy | src/components/StructuredData/LocalBusinessSchema.tsx:14-20 | keeping the truthy links never lengthens the list |
| SchemaParts.FilterTruthyMembers | src/components/StructuredData/LocalBusinessSchema.tsx:14-20 | a URL is listed iff it is non-empty and one of the links |
| SchemaParts.BuildSameAs | src/components/StructuredData/OrganizationSchema.tsx:12-18 | the conditional pushes list the truthy social URLs in the fixed order instagram, facebook, tiktok, youtube, pinterest, linkedin |
| SchemaParts.SameAsKey | src/components/StructuredData/LocalBusinessSchema.tsx:65 | the sameAs key is present iff the list is non-empty |
| SchemaParts.FullLogoUrl | src/components/StructuredData/LocalBusinessSchema.tsx:31 | a logo starting with "http" is kept; otherwise the domain is prefixed |
| SchemaParts.FullLogoUrlRule | src/components/StructuredData/OrganizationSchema.tsx:25 | the result always ends with the logo, and is absolute whenever the domain is |
| SchemaParts.BeforeT | src/components/StructuredData/LocalBusinessSchema.tsx:66-68 | the text before the first "T": a prefix with no "T", followed by "T" when shorter |
| SchemaParts.FoundingDate | src/components/StructuredData/OrganizationSchema.tsx:38-40 | present iff the founding date is set, and then its part before "T" |
| SchemaParts.FoundingDateOfTimestamp | src/components/StructuredData/LocalBusinessSchema.tsx:66-68 | an ISO timestamp yields its date part |
| LocalBusinessSchema.PaymentLabel | src/components/StructuredData/LocalBusinessSchema.tsx:23-29 | stripe gives the card text, paytrail gives "Paytrail", anything else passes through |
| LocalBusinessSchema.PaymentLabels | src/components/StructuredData/LocalBusinessSchema.tsx:23-29 | one label per method, in input order |
| LocalBusinessSchema.PaymentAcceptedAppend | src/components/StructuredData/LocalBusinessSchema.tsx:23-29 | the labels are joined with ", " in input order |
| LocalBusinessSchema.StripeAndPaytrail | src/components/StructuredData/LocalBusinessSchema.tsx:23-29 | stripe and paytrail give "Credit Card, Debit Card, Paytrail"; no methods give "" |
| LocalBusinessSchema.BuildStore | src/components/StructuredData/LocalBusinessSchema.tsx:4-87 | any failure yields null; otherwise the domain is the configured one or the base-URL fallback, @id is domain + "/#store", the logo is absolutised, sameAs and foundingDate follow their rules, and the payments are mapped |
| LocalBusinessSchema.SameAsOrder | src/components/StructuredData/LocalBusinessSchema.tsx:14-65 | no social links leave out the sameAs key, and a set Instagram URL comes first |
| OrganizationSchema.BuildOrganization | src/components/StructuredData/OrganizationSchema.tsx:4-53 | any failure yields null; otherwise the domain is the configured one or the base-URL fallback, and the name, URL, absolutised logo, sameAs and foundingDate follow their rules |
| OrganizationSchema.DefaultLogo | src/components/StructuredData/OrganizationSchema.tsx:25 | with no store logo, the relative fallback logo is prefixed with the domain, itself the configured domain or the base-URL fallback |
| CollectionPageSchema.OfferPrice | src/components/StructuredData/CollectionPageSchema.tsx:32 | the sale price when truthy, else the price |
| CollectionPageSchema.AvailabilityOf | src/components/StructuredData/CollectionPageSchema.tsx:47-50 | InStock iff the quantity is present and positive |
| CollectionPageSchema.Items | src/components/StructuredData/CollectionPageSchema.tsx:31-36 | the first min(12, n) products in order, item i built from product i |
| CollectionPageSchema.PageRule | src/components/StructuredData/CollectionPageSchema.tsx:31-50 | positions are index + 1, product @id and url are domain/product/slug, and prices and availability follow their rules |
| CollectionPageSchema.PageHeaderRule | src/components/StructuredData/CollectionPageSchema.tsx:24-30 | @id and url are domain/products/slug; the description defaults to "Browse products in <name> category"; numberOfItems is totalCount when truthy, else the product count |
| ResetPassword.SchemaRule | src/components/Auth/ResetPasswordForm.tsx:23-33 | accepted iff the password has at least 8 characters and the confirmation equals it; a mismatch is reported on confirmPassword |
| ResetPassword.ErrorMessage | src/components/Auth/ResetPasswordForm.tsx:68-73 | a string error is shown verbatim; any other error gets the fixed fallback text |
| ResetPassword.ResetPasswordForm.constructor | src/components/Auth/ResetPasswordForm.tsx:43-45 | not loading, no error, no success |
| ResetPassword.ResetPasswordForm.BeginSubmit | src/components/Auth/ResetPasswordForm.tsx:55-66 | clears error and success, sets loading, and sends the token with both passwords |
| ResetPassword.ResetPasswordForm.CompleteSubmit | src/components/Auth/ResetPasswordForm.tsx:65-107 | an error sets formError; success stores the returned message and schedules the redirect; a thrown failure propagates; loading ends false in every case |
| ResetPassword.ResetPasswordForm.HandleSubmit | src/components/Auth/ResetPasswordForm.tsx:55-107 | a form the schema (lines 23-33) rejects never reaches the backend; an accepted one is submitted and ends not loading |
| ResetPassword.ResetPasswordForm.SubmitDisabled | src/components/Auth/ResetPasswordForm.tsx:256 | the submit button is disabled while loading or after success; BeginSubmit ensures it is disabled during the call |
| Carousel.Insert | src/components/CarouselContentBlock.tsx:36 | inserting adds exactly one element to the multiset |
| Carousel.Reverse | src/components/CarouselContentBlock.tsx:35 | the row is reversed exactly for content on the right |
| Carousel.InsertSorted | src/components/CarouselContentBlock.tsx:36 | inserting into a sorted list keeps it sorted |
| Carousel.SortByOrderSorted | src/components/CarouselContentBlock.tsx:36 | the sorted items are in non-decreasing order of `order` |
| Carousel.SortByOrderPermutes | src/components/CarouselContentBlock.tsx:36 | sorting keeps every item, with its multiplicity |
| Carousel.SortByOrderCorrect | src/components/CarouselContentBlock.tsx:36-72 | the rendered list is sorted by order and is a permutation of the items |
| Carousel.SortByOrderStable | src/components/CarouselContentBlock.tsx:36 | items with equal order keep their input order, as the stable Array.prototype.sort does |
| PhotoGallery.Photos | src/components/Aboutpage/PhotoGallery.tsx:26-39 | one photo per item, keeping its src, with size pattern i mod 6 and the alt text or "" |
| PhotoGallery.PhotosCycle | src/components/Aboutpage/PhotoGallery.tsx:26-37 | sizes repeat every six photos and come from the fixed patterns |
| PhotoGallery.Columns | src/components/Aboutpage/PhotoGallery.tsx:48-52 | 2 columns below 400 px, 3 below 800, else 4 |
| PhotoGallery.ColumnsMonotone | src/components/Aboutpage/PhotoGallery.tsx:48-52 | a wider container never has fewer columns |
| PhotoGallery.Lightbox.constructor | src/components/Aboutpage/PhotoGallery.tsx:23 | the index starts at −1 and the lightbox is closed |
| PhotoGallery.Lightbox.Click | src/components/Aboutpage/PhotoGallery.tsx:54-68 | clicking photo i opens the lightbox at i |
| PhotoGallery.Lightbox.Close | src/components/Aboutpage/PhotoGallery.tsx:69-70 | closing resets the index to −1 |
| Text.TrimStart | src/components/Cart/DiscountCodeInput.tsx:29 | removes exactly the leading white space |
| Text.TrimEnd | src/components/Cart/DiscountCodeInput.tsx:29 | removes exactly the trailing white space |
| Text.BlankIffAllWhitespace | src/components/Scanner/UseTicketTab.tsx:43 | `!code.trim()` holds iff every character is white space |
| Text.TrimIdempotent | src/components/Scanner/UseTicketTab.tsx:43-44 | trimming twice equals trimming once |
| Text.ToUpper | src/components/Cart/DiscountCodeInput.tsx:93 | upper-casing keeps the length |
| Text.ToUpperIdempotent | src/components/Cart/DiscountCodeInput.tsx:29-93 | upper-casing twice equals upper-casing once |
| Text.TrimToUpperCommute | src/components/Cart/DiscountCodeInput.tsx:29 | trimming and upper-casing commute |
| Text.BlankToUpper | src/components/Cart/DiscountCodeInput.tsx:28-93 | upper-casing does not change blankness |
| Text.OrElse | src/components/StructuredData/CollectionPageSchema.tsx:26 | `s \|\| fallback` is s when truthy, else the fallback |
| Text.NatToString | src/components/OpeningHoursCalendar.tsx:47 | the decimal text of a number is non-empty and all digits |
| Text.ParseNatToString | src/components/OpeningHoursCalendar.tsx:55 | Number of the printed decimal text gives the number back |
| Text.Pad2RoundTrip | src/components/OpeningHoursCalendar.tsx:47 | padStart(2, "0") gives two digits for 0..99 that parse back to the value (see also line 193) |
| Text.LessTotal | src/components/OpeningHoursCalendar.tsx:52 | the default sort order on strings orders any two different strings |
| Text.LessTransitive | src/components/OpeningHoursCalendar.tsx:52 | the default sort order on strings is transitive |

## Left out

- The SDK server actions, cookies, e-mail, environment variables and the cart-restore route are not modelled. Each backend call is a parameter holding the reply the code receives: a `Result<T, Thrown>` where the awaited call can throw, and the `{success, data | error}` reply of the payment-session calls, which catch every failure themselves.
- PaytrailCheckout.PaytrailCheckoutPage, StripeCheckout.StripeCheckoutPage: the cart lines, the discount and the cart total are fixed when the page object is built. The pages re-read them from the cart store on every render; a cart change while a checkout page is open is not modelled.
- Concurrency: overlapping async calls, such as a late quantity rollback clobbering a newer reply, are out of scope. Every handler runs sequentially and atomically.
- Return-shape mismatches between the cart actions and their callers are not reconciled. Each caller is modelled against the shape it reads. In particular: `applyDiscount` reads `data.discount`; AddToCartButton reads `result.success` and `result.code`; CartPage reads `result.success` and `result.data` from `validateCart`; the checkout pages read `.success` and `.data` from the shipping options.
- The SDK helpers are opaque inputs. `getDiscountRemovalMessage` is a function parameter; `getDiscountApplyErrorMessage(undefined)` is the generic-message parameter. `calculateCartWithCampaigns`, `formatDiscountValue` and the `StorefrontError` class are not modelled: a thrown value is only classified as an Error with a message or not.
- CartPage.CalculateDiscountAmount: `Math.round(total * value / 100)` over floats is modelled on integer cents as `(total * value + 50) / 100`. With Dafny's Euclidean division that is `Math.round` (halves rounded up) for every integer amount, negative ones included; floating-point error is not modelled.
- Floats and locale formatting are not modelled: `toFixed` prices, kilometre distances, `toLocaleDateString` and `toLocaleString`. TicketResult.FormatPrice returns the price in cents and TicketResult.FormatDate the date it was given, not the rendered text. ShipmentSelector.FormatDistanceMetres gives the metre value for the kilometre case, not its decimal text.
- The customer-data zod schema is not shown; its verdict is a predicate parameter `schemaAccepts`.
- ResetPassword.SchemaRule: zod reports both reset-password rules independently. The model lists each failed rule once and does not model zod's error object.
- ResetPassword.SchemaRule: the 8-character minimum counts Dafny characters (code points), not UTF-16 code units as JavaScript's `length` does.
- JavaScript `Date` is not modelled. Today's year and month and the weekday of the first of the month are parameters. DaysInMonth uses the Gregorian rule.
- Timers are not modelled. The `setTimeout` that resets "just added" in AddToCartButton is left out. The redirect after a successful password reset is the flag `redirectScheduled`.
- Browser plumbing is not modelled: event listeners, the window `megamenu` event, `sessionStorage`, framer-motion, DOMPurify, Next `Image`/`Link`, toasts beyond their content, and CSS classes other than the ticket result colours. The scanner's stored session is an optional value and an optional raw text, and JSON parsing of the text is a parse-result parameter.
- NavbarLinks: the effect dispatches the megamenu event with `openCount > 0` on every change, including the initial `false` at mount. The model returns the event only from the open and close handlers. The mount dispatch is not modelled.
- Text.Trim, Text.ToUpper: white space and upper case cover ASCII, Latin-1 white space, the BOM and the Finnish letters å, ä, ö, not all of Unicode.
- Text.ParseNat, OpeningHoursCalendar.JsNumber: `Number` is modelled on digit strings only. Signs, white space, exponents and hex forms (`"+5"`, `" 5"`, `"1e1"`), which JavaScript parses, read as NaN here; only malformed calendar keys reach them.
- OpeningHoursCalendar: the keys of `days` are a sequence of strings. The entries' notes and the hover state are not modelled. A day is open when its key is present; an entry is always an object, so `!!entry` is key presence.
- Carousel.SortByOrder: items whose `order` is missing or NaN are not modelled. Every item has an integer order.
- TicketResult.CardFor and Carousel.Slides compose the proved rules into the rendered card and slides; they carry no contract of their own.
- MobileLinks.Rows: the accordion is modelled as the list of rows it renders (depth and path). The JSX nesting is not modelled.
- Rendering and fetching with no stateable rule are not part of this model: the homepage blocks, the scanner dashboard and event list, the QR scanner, the navbar shell, the sitemap, the storefront fetchers, and the forgot-password form.
