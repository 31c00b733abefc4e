/**
  The cart page: the discount-code amount, the total it shows, when the discount-code input is
  offered, and the checkout button's validation gate with its change report.
*/
module CartPage {
  import opened Wrappers
  import opened Text
  import opened StorefrontTypes
  import CartStore

  // ---------------------------------------------------------------------------
  // Discount amount and total
  // ---------------------------------------------------------------------------

  /** `Math.round(n / 100)` for an integer `n`: JavaScript rounds halves up (towards +infinity),
      which is floor division of `n + 50` by 100. */
  function RoundHundredth(n: int): int {
    (n + 50) / 100
  }

  /** The rounded value is the nearest integer to `n / 100`, halves going up. */
  lemma RoundHundredthNearest(n: int)
    ensures n - 50 < 100 * RoundHundredth(n) <= n + 50
  {
  }

  /** `calculateDiscountAmount(discount, cartTotal)`: no discount gives 0, a percentage gives the
      rounded share of the total, a fixed amount is taken as it is (in cents). */
  function CalculateDiscountAmount(discount: Option<AppliedDiscount>, cartTotal: int): int {
    match discount
    case None => 0
    case Some(d) =>
      match d.discountType
      case Percentage => RoundHundredth(cartTotal * d.discountValue)
      case FixedAmount => d.discountValue
  }

  /** A percentage between 0 and 100 of a non-negative total is between 0 and the total, and is
      the nearest whole cent to the exact share. */
  lemma PercentageDiscountBounds(code: string, percent: int, cartTotal: int)
    requires 0 <= percent <= 100 && 0 <= cartTotal
    ensures var a := CalculateDiscountAmount(Some(AppliedDiscount(code, Percentage, percent)), cartTotal);
      0 <= a <= cartTotal && cartTotal * percent - 50 < 100 * a <= cartTotal * percent + 50
  {
    var n := cartTotal * percent;
    assert 0 <= n <= cartTotal * 100 by {
      assert cartTotal * percent <= cartTotal * 100;
    }
    RoundHundredthNearest(n);
  }

  /** The discount amount is 0 without a discount, the value itself for a fixed amount, and for a
      percentage the whole number of cents nearest to `cartTotal * value / 100`, so a percentage
      of 0 or of a zero total gives nothing off. */
  lemma DiscountAmountCases(discount: Option<AppliedDiscount>, cartTotal: int)
    ensures discount.None? ==> CalculateDiscountAmount(discount, cartTotal) == 0
    ensures discount.Some? && discount.value.discountType == FixedAmount ==>
      CalculateDiscountAmount(discount, cartTotal) == discount.value.discountValue
    ensures discount.Some? && discount.value.discountType == Percentage ==>
      var n := cartTotal * discount.value.discountValue;
      n - 50 < 100 * CalculateDiscountAmount(discount, cartTotal) <= n + 50
    ensures (discount.Some? && discount.value.discountType == Percentage
             && (discount.value.discountValue == 0 || cartTotal == 0)) ==>
      CalculateDiscountAmount(discount, cartTotal) == 0
  {
    if discount.Some? && discount.value.discountType == Percentage {
      RoundHundredthNearest(cartTotal * discount.value.discountValue);
    }
  }

  /** The "Yhteensä" figure: the total less the discount when a discount is applied and takes
      something off, otherwise the total itself. */
  function DisplayedTotal(discount: Option<AppliedDiscount>, cartTotal: int): int {
    var amount := CalculateDiscountAmount(discount, cartTotal);
    if discount.Some? && amount > 0 then cartTotal - amount else cartTotal
  }

  /** The shown total never exceeds the cart total, and falls below it exactly when the discount
      amount is positive (by exactly that amount). */
  lemma DisplayedTotalRule(discount: Option<AppliedDiscount>, cartTotal: int)
    ensures DisplayedTotal(discount, cartTotal) <= cartTotal
    ensures DisplayedTotal(discount, cartTotal) < cartTotal <==> CalculateDiscountAmount(discount, cartTotal) > 0
    ensures CalculateDiscountAmount(discount, cartTotal) > 0 ==>
      DisplayedTotal(discount, cartTotal) == cartTotal - CalculateDiscountAmount(discount, cartTotal)
  {
  }

  /** The discount-code input is offered only for a non-empty cart without campaign savings. */
  predicate ShowDiscountInput(itemCount: nat, totalSavings: int) {
    itemCount > 0 && totalSavings == 0
  }

  // ---------------------------------------------------------------------------
  // Change report
  // ---------------------------------------------------------------------------

  function RemovedMessage(n: int): string {
    IntToString(n) + " tuotetta poistettiin (loppu varastosta tai poistettu)"
  }

  function QuantityMessage(n: int): string {
    IntToString(n) + " tuotteen määrää vähennettiin varastotilanteen mukaan"
  }

  function PriceMessage(n: int): string {
    IntToString(n) + " tuotteen hinta päivitettiin"
  }

  const CouponMessage := "Alennuskoodi poistettiin kampanja-alennuksen vuoksi"

  const ChangesBanner := "Tuotteissa on tapahtunut muutoksia tarkista ostoskori ennen jatkamista"
  const ChangesToastTitle := "Ostoskorissa on tapahtunut muutoksia. Tarkista ostoskori ennen jatkamista."
  const ValidationFailedFallback := "Ostoskorin tarkistus epäonnistui. Yritä uudelleen."
  const CheckoutPath := "/payment/checkout"

  /** `[m]` when `c` holds, `[]` otherwise: one conditional `push`. */
  function PushIf(c: bool, m: string): seq<string> {
    if c then [m] else []
  }

  /** The messages of the change toast, in the order removed, quantity, price, coupon. */
  function ChangeMessages(c: CartStore.Changes): seq<string> {
    PushIf(c.removedItems > 0, RemovedMessage(c.removedItems))
    + PushIf(c.quantityAdjusted > 0, QuantityMessage(c.quantityAdjusted))
    + PushIf(c.priceChanged > 0, PriceMessage(c.priceChanged))
    + PushIf(c.discountCouponRemoved, CouponMessage)
  }

  function Count(b: bool): nat {
    if b then 1 else 0
  }

  /** The `messages` array of `handleCheckout`, built by conditional pushes. */
  method BuildChangeMessages(changes: CartStore.Changes) returns (messages: seq<string>)
    ensures messages == ChangeMessages(changes)
  {
    ghost var removed := PushIf(changes.removedItems > 0, RemovedMessage(changes.removedItems));
    ghost var adjusted := PushIf(changes.quantityAdjusted > 0, QuantityMessage(changes.quantityAdjusted));
    ghost var repriced := PushIf(changes.priceChanged > 0, PriceMessage(changes.priceChanged));
    messages := [];
    if changes.removedItems > 0 {
      messages := messages + [RemovedMessage(changes.removedItems)];
    }
    assert messages == removed;
    if changes.quantityAdjusted > 0 {
      messages := messages + [QuantityMessage(changes.quantityAdjusted)];
    }
    assert messages == removed + adjusted;
    if changes.priceChanged > 0 {
      messages := messages + [PriceMessage(changes.priceChanged)];
    }
    assert messages == removed + adjusted + repriced;
    if changes.discountCouponRemoved {
      messages := messages + [CouponMessage];
    }
  }

  /** One message per reported kind of change, and a change report with nothing in it yields no
      messages (the toast then has an empty description). */
  lemma ChangeMessagesCount(c: CartStore.Changes)
    ensures |ChangeMessages(c)| == Count(c.removedItems > 0) + Count(c.quantityAdjusted > 0)
                                   + Count(c.priceChanged > 0) + Count(c.discountCouponRemoved)
    ensures ChangeMessages(c) == [] <==>
      c.removedItems <= 0 && c.quantityAdjusted <= 0 && c.priceChanged <= 0 && !c.discountCouponRemoved
  {
  }

  /** The coupon message comes last whenever it is present, and the removed-lines message first. */
  lemma ChangeMessagesOrder(c: CartStore.Changes)
    ensures c.discountCouponRemoved ==> ChangeMessages(c)[|ChangeMessages(c)| - 1] == CouponMessage
    ensures c.removedItems > 0 ==> ChangeMessages(c)[0] == RemovedMessage(c.removedItems)
  {
  }

  // ---------------------------------------------------------------------------
  // Checkout gate
  // ---------------------------------------------------------------------------

  /** The validation reply as the page reads it: a failure with an optional message, the
      validation data with its `hasChanges` flag, or the failure `validateCart` rethrows, which
      the awaiting handler does not catch. */
  datatype CheckoutValidation =
    | ValidationFailed(error: Option<string>)
    | Validated(hasChanges: bool, changes: CartStore.Changes)
    | ValidationThrew(thrown: Thrown)

  datatype Toast = Toast(title: string, description: string)

  class CartPageState {
    var isValidating: bool
    var validationError: Option<string>
    /** The toast last shown, and the route pushed, if any. */
    var toast: Option<Toast>
    var navigatedTo: Option<string>

    constructor ()
      ensures !isValidating && validationError == None && toast == None && navigatedTo == None
    {
      isValidating := false;
      validationError := None;
      toast := None;
      navigatedTo := None;
    }

    /** The first half of `handleCheckout`, up to the validation call: ignored while a validation
        is pending; otherwise marks validating and clears the banner. */
    method BeginCheckout() returns (started: bool)
      modifies this`isValidating, this`validationError
      ensures started == !old(isValidating)
      ensures isValidating && CheckoutDisabled(false)
      ensures validationError == (if started then None else old(validationError))
    {
      if isValidating {
        started := false;
        return;
      }
      started := true;
      isValidating := true;
      validationError := None;
    }

    /** The second half, once validation answered: a failure shows an error toast and stays; a
        report of changes shows the change toast, sets the banner and stays; otherwise the page
        moves to checkout. `isValidating` ends false in each of these cases; a thrown validation
        ends the handler at the `await`, leaving it validating with nothing shown. */
    method CompleteCheckout(result: CheckoutValidation)
      modifies this`isValidating, this`validationError, this`toast, this`navigatedTo
      ensures !result.ValidationThrew? ==> !isValidating
      ensures result.ValidationThrew? ==>
        isValidating == old(isValidating) && validationError == old(validationError)
        && toast == old(toast) && navigatedTo == old(navigatedTo)
      ensures result.ValidationFailed? ==>
        toast == Some(Toast("Virhe", OrElse(result.error, ValidationFailedFallback)))
        && navigatedTo == old(navigatedTo) && validationError == old(validationError)
      ensures result.Validated? && result.hasChanges ==>
        toast == Some(Toast(ChangesToastTitle, Join(ChangeMessages(result.changes), ". ")))
        && validationError == Some(ChangesBanner) && navigatedTo == old(navigatedTo)
      ensures result.Validated? && !result.hasChanges ==>
        navigatedTo == Some(CheckoutPath) && toast == old(toast) && validationError == old(validationError)
    {
      match result {
        case ValidationFailed(error) =>
          toast := Some(Toast("Virhe", OrElse(error, ValidationFailedFallback)));
          isValidating := false;
        case Validated(hasChanges, changes) =>
          if hasChanges {
            var messages := BuildChangeMessages(changes);
            toast := Some(Toast(ChangesToastTitle, Join(messages, ". ")));
            validationError := Some(ChangesBanner);
            isValidating := false;
          } else {
            isValidating := false;
            navigatedTo := Some(CheckoutPath);
          }
        case ValidationThrew(_) =>
      }
    }

    /** The effect on the cart lines changing: the banner is cleared. */
    method OnItemsChanged()
      modifies this`validationError
      ensures validationError == None
    {
      if validationError.Some? {
        validationError := None;
      }
    }

    /** The checkout button is disabled while the cart loads or a validation is pending. */
    predicate CheckoutDisabled(cartLoading: bool)
      reads this
    {
      cartLoading || isValidating
    }
  }

  /** Checkout navigation happens only for a validated cart with no changes, and then nothing is
      shown as a banner. */
  method CheckoutGateExample(changes: CartStore.Changes) returns (blocked: bool, navigated: bool)
    ensures blocked && !navigated
  {
    var page := new CartPageState();
    var started := page.BeginCheckout();
    page.CompleteCheckout(Validated(true, changes));
    blocked := page.validationError == Some(ChangesBanner);
    navigated := page.navigatedTo.Some?;
  }

  /** A validation that throws leaves the page validating: the checkout button stays disabled,
      even with the cart loaded, and the page does not move. */
  method CheckoutThrowExample(t: Thrown) returns (disabled: bool, navigated: bool)
    ensures disabled && !navigated
  {
    var page := new CartPageState();
    var started := page.BeginCheckout();
    page.CompleteCheckout(ValidationThrew(t));
    disabled := page.CheckoutDisabled(false);
    navigated := page.navigatedTo.Some?;
  }
}
