/**
  The storefront SDK's record types as the core reads them. Only the fields the core looks at
  are kept; prices and quantities are integers (cents, pieces).
*/
module StorefrontTypes {
  import opened Wrappers

  /** One cart line: the product's id, the chosen variation's id if any, the quantity, and
      whether the product is an event ticket. */
  datatype CartItem = CartItem(
    productId: string,
    variationId: Option<string>,
    cartQuantity: int,
    isTicket: bool)

  /** `"PERCENTAGE" | "FIXED_AMOUNT"` */
  datatype DiscountType = Percentage | FixedAmount

  /** The discount code applied to the cart; `discountValue` is a percentage or an amount in cents. */
  datatype AppliedDiscount = AppliedDiscount(code: string, discountType: DiscountType, discountValue: int)

  /** A campaign as the navigation bar and the cart read it. */
  datatype Campaign = Campaign(campaignType: string, name: string, isActive: bool)

  /** What a failed backend call throws: the SDK's `StorefrontError` (message and optional
      error code), any other `Error`, or a thrown value that is not an `Error` at all. */
  datatype Thrown =
    | StorefrontError(message: string, code: Option<string>)
    | PlainError(message: string)
    | NonError

  /** A ticketed event as the scanner lists it. */
  datatype TicketEvent = TicketEvent(id: string, name: string, location: string)

  /** A purchased ticket as the scanner shows it; price in cents, dates as ISO strings. */
  datatype PurchasedTicket = PurchasedTicket(
    status: string,
    usedCount: int,
    maxUses: int,
    firstName: Option<string>,
    lastName: Option<string>,
    price: Option<int>,
    validFrom: Option<string>,
    validUntil: Option<string>,
    customerEmail: string)
}
