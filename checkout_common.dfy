/**
  What the two checkout pages share: the customer data they pass on, the request for shipping
  options, the shipment method sent to the payment provider, the total after the discount code,
  and the `{success, data | error}` replies of their backend calls.
*/
module CheckoutCommon {
  import opened Wrappers
  import opened StorefrontTypes
  import CartPage
  import ShipmentSelector

  /** The customer form's data; only the postal code is read by the pages themselves. */
  datatype CustomerData = CustomerData(postalCode: string, email: string, firstName: string, lastName: string)

  /** A backend reply as the pages read it: `{success: true, data}` or `{success: false, error?}`. */
  type Reply<T> = Result<T, Option<string>>

  /** The shipping-options reply: `getShippingOptions` catches nothing, so besides the reply the
      page reads, the awaited call can reject with a thrown failure. */
  type ShippingReply = Result<Reply<ShipmentSelector.ShipmentMethodsResponse>, Thrown>

  /** `getShippingOptions(postalCode, cartItems, campaigns, discountAmount)` */
  datatype ShippingRequest = ShippingRequest(
    postalCode: string,
    items: seq<CartItem>,
    campaigns: seq<Campaign>,
    discountAmount: int)

  /** The shipment method as the payment endpoints expect it (`pickupId` is the pickup point). */
  datatype ChosenShipmentMethod = ChosenShipmentMethod(
    shipmentMethodId: string,
    pickupId: Option<string>,
    serviceId: Option<string>)

  /** `chosenShipmentMethod`: the selection renamed field by field, or `null` without one. */
  function ToChosenShipmentMethod(selection: Option<ShipmentSelector.ShipmentSelection>): Option<ChosenShipmentMethod> {
    match selection
    case None => None
    case Some(s) => Some(ChosenShipmentMethod(s.shipmentMethodId, s.pickupPointId, s.serviceId))
  }

  /** The conversion loses nothing: the selection can be read back from what is sent. */
  lemma ChosenShipmentMethodRoundTrip(selection: Option<ShipmentSelector.ShipmentSelection>)
    ensures ToChosenShipmentMethod(selection).None? <==> selection.None?
    ensures ToChosenShipmentMethod(selection).Some? ==>
      var c := ToChosenShipmentMethod(selection).value;
      ShipmentSelector.ShipmentSelection(c.shipmentMethodId, c.pickupId, c.serviceId) == selection.value
  {
  }

  /** A home-delivery choice is sent with neither a pickup point nor a service. */
  lemma ChosenDeliveryHasNoPickup(option: ShipmentSelector.HomeDeliveryOption)
    ensures ToChosenShipmentMethod(Some(ShipmentSelector.Normalise(ShipmentSelector.DeliveryValue(option))))
         == Some(ChosenShipmentMethod(option.id, None, None))
  {
  }

  /** `cartTotalAfterDiscount`: the campaign total less the discount-code amount (the same rule as
      the cart page's `calculateDiscountAmount`); it is what the shipment selector compares with
      the free-shipping thresholds. */
  function CartTotalAfterDiscount(discount: Option<AppliedDiscount>, cartTotal: int): int {
    cartTotal - CartPage.CalculateDiscountAmount(discount, cartTotal)
  }

  /** Without a discount code the free-shipping comparison uses the cart total itself; with a
      fixed amount it uses the total less that amount; with a percentage it uses the total less
      that percentage of it, rounded to the nearest cent. */
  lemma CartTotalAfterDiscountCases(discount: Option<AppliedDiscount>, cartTotal: int)
    ensures discount.None? ==> CartTotalAfterDiscount(discount, cartTotal) == cartTotal
    ensures discount.Some? && discount.value.discountType == FixedAmount ==>
      CartTotalAfterDiscount(discount, cartTotal) == cartTotal - discount.value.discountValue
    ensures discount.Some? && discount.value.discountType == Percentage ==>
      CartTotalAfterDiscount(discount, cartTotal) == cartTotal - CartPage.RoundHundredth(cartTotal * discount.value.discountValue)
  {
  }

  /** A percentage code of at most 100 % leaves a non-negative total that is at most the cart total. */
  lemma CartTotalAfterPercentage(code: string, percent: int, cartTotal: int)
    requires 0 <= percent <= 100 && 0 <= cartTotal
    ensures 0 <= CartTotalAfterDiscount(Some(AppliedDiscount(code, Percentage, percent)), cartTotal) <= cartTotal
  {
    CartPage.PercentageDiscountBounds(code, percent, cartTotal);
  }

  datatype Toast = Toast(title: string, description: string)
}
