/**
  The Stripe checkout wizard: customer data, then the shipment method; payment then continues on
  the URL Stripe returns.
*/
module StripeCheckout {
  import opened Wrappers
  import opened Text
  import opened StorefrontTypes
  import opened CheckoutCommon
  import ShipmentSelector

  /** The step list: always three entries, there is no ticket-only branch. */
  const StepTitles: seq<string> := ["Asiakastiedot", "Toimitustapa", "Tilausvahvistus"]

  /** `apiCreateStripeCheckoutSession(chosenShipmentMethod, customerData)` and its reply. */
  datatype SessionRequest = SessionRequest(shipment: Option<ChosenShipmentMethod>, customer: CustomerData)
  datatype StripeSession = StripeSession(url: string)

  const ShippingErrorTitle := "Virhe haettaessa toimitustapoja"
  const ShippingErrorFallback := "Yritä myöhemmin uudestaan"
  const PaymentErrorFallback := "Maksun käsittely epäonnistui. Yritä uudelleen."

  class StripeCheckoutPage {
    const cartItems: seq<CartItem>
    const campaigns: seq<Campaign>
    const discount: Option<AppliedDiscount>
    const cartTotal: int

    var isLoading: bool
    var customerData: Option<CustomerData>
    var shippingOptions: Option<ShipmentSelector.ShipmentMethodsResponse>
    var step: int
    var selectedShipping: Option<ShipmentSelector.ShipmentSelection>
    /** The URL the router was sent to, and the toast last shown, if any. */
    var navigatedTo: Option<string>
    var toast: Option<Toast>

    /** The page never advances past the shipment step: payment leaves the page instead. */
    ghost predicate Valid()
      reads this
    {
      1 <= step <= 2
    }

    constructor (cartItems: seq<CartItem>, campaigns: seq<Campaign>, discount: Option<AppliedDiscount>, cartTotal: int)
      ensures Valid()
      ensures this.cartItems == cartItems && this.campaigns == campaigns
      ensures this.discount == discount && this.cartTotal == cartTotal
      ensures !isLoading && customerData == None && shippingOptions == None && step == 1
      ensures selectedShipping == None && navigatedTo == None && toast == None
    {
      this.cartItems := cartItems;
      this.campaigns := campaigns;
      this.discount := discount;
      this.cartTotal := cartTotal;
      isLoading := false;
      customerData := None;
      shippingOptions := None;
      step := 1;
      selectedShipping := None;
      navigatedTo := None;
      toast := None;
    }

    function SelectorCartTotal(): int
      reads this
    {
      CartTotalAfterDiscount(discount, cartTotal)
    }

    /** `handleCustomerDataSubmit(data)`: as on the Paytrail page without the ticket-only branch; a
        thrown shipping call leaves the page loading with nothing else changed. */
    method HandleCustomerDataSubmit(data: Option<CustomerData>,
                                    reply: ShippingReply)
      returns (request: Option<ShippingRequest>)
      requires Valid()
      modifies this`isLoading, this`customerData, this`shippingOptions, this`step, this`toast
      ensures Valid()
      ensures customerData == data
      ensures data.None? ==>
        request == None && isLoading && step == old(step) && shippingOptions == old(shippingOptions)
        && toast == old(toast)
      ensures data.Some? ==>
        request == Some(ShippingRequest(data.value.postalCode, cartItems, campaigns, cartTotal - SelectorCartTotal()))
        && (reply.Success? ==> !isLoading)
        && (reply.Success? && reply.value.Success? ==>
              shippingOptions == Some(reply.value.value) && step == 2 && toast == old(toast))
        && (reply.Success? && reply.value.Failure? ==>
              shippingOptions == old(shippingOptions) && step == old(step)
              && toast == Some(Toast(ShippingErrorTitle, OrElse(reply.value.error, ShippingErrorFallback))))
        && (reply.Failure? ==>
              isLoading && shippingOptions == old(shippingOptions) && step == old(step) && toast == old(toast))
    {
      isLoading := true;
      customerData := data;
      if data.None? {
        request := None;
        return;
      }
      var discountAmount := cartTotal - CartTotalAfterDiscount(discount, cartTotal);
      request := Some(ShippingRequest(data.value.postalCode, cartItems, campaigns, discountAmount));
      if reply.Failure? {
        return;
      }
      match reply.value {
        case Success(options) =>
          shippingOptions := Some(options);
          step := 2;
        case Failure(error) =>
          toast := Some(Toast(ShippingErrorTitle, OrElse(error, ShippingErrorFallback)));
      }
      isLoading := false;
    }

    method OnSelect(selection: ShipmentSelector.ShipmentSelection)
      modifies this`selectedShipping
      ensures selectedShipping == Some(selection)
      ensures PayDisabled() <==> isLoading
    {
      selectedShipping := Some(selection);
    }

    /** `handleStripeCheckout()`. Ignored while `isLoading`. Rejected customer data reset
        `isLoading` and make no call. On success the router goes to the session URL and `isLoading`
        stays true (the page is being left); on failure a toast is shown and `isLoading` is reset.
        The step never changes. */
    method HandleStripeCheckout(schemaAccepts: CustomerData -> bool, reply: Reply<StripeSession>)
      returns (request: Option<SessionRequest>)
      requires Valid()
      modifies this`isLoading, this`navigatedTo, this`toast
      ensures Valid()
      ensures old(isLoading) ==>
        request == None && isLoading && navigatedTo == old(navigatedTo) && toast == old(toast)
      ensures !old(isLoading) && !(customerData.Some? && schemaAccepts(customerData.value)) ==>
        request == None && !isLoading && navigatedTo == old(navigatedTo) && toast == old(toast)
      ensures !old(isLoading) && customerData.Some? && schemaAccepts(customerData.value) ==>
        request == Some(SessionRequest(ToChosenShipmentMethod(selectedShipping), customerData.value))
        && (reply.Success? ==> navigatedTo == Some(reply.value.url) && isLoading && toast == old(toast))
        && (reply.Failure? ==>
              navigatedTo == old(navigatedTo) && !isLoading
              && toast == Some(Toast("Virhe", OrElse(reply.error, PaymentErrorFallback))))
    {
      if isLoading {
        request := None;
        return;
      }
      isLoading := true;
      if !(customerData.Some? && schemaAccepts(customerData.value)) {
        isLoading := false;
        request := None;
        return;
      }
      var chosen := match selectedShipping
        case Some(s) => Some(ChosenShipmentMethod(s.shipmentMethodId, s.pickupPointId, s.serviceId))
        case None => None;
      request := Some(SessionRequest(chosen, customerData.value));
      match reply {
        case Success(session) =>
          navigatedTo := Some(session.url);
        case Failure(error) =>
          toast := Some(Toast("Virhe", OrElse(error, PaymentErrorFallback)));
          isLoading := false;
      }
    }

    /** `handleGoBack()`: from step 2 back to step 1, dropping the selection; at step 1 a no-op. */
    method HandleGoBack()
      requires Valid()
      modifies this`step, this`selectedShipping
      ensures Valid()
      ensures step == 1
      ensures selectedShipping == (if old(step) == 2 then None else old(selectedShipping))
    {
      if step > 1 {
        var newStep := step - 1;
        step := newStep;
        if newStep == 1 {
          selectedShipping := None;
        }
      }
    }

    /** The pay button is disabled without a selection and while a payment is being started. */
    predicate PayDisabled()
      reads this
    {
      selectedShipping.None? || isLoading
    }
  }

  /** After a successful payment start the pay button stays disabled and a second click sends
      nothing. */
  method DoubleSubmitIgnored(data: CustomerData, selection: ShipmentSelector.ShipmentSelection, url: string)
    returns (first: Option<SessionRequest>, second: Option<SessionRequest>, disabled: bool)
    ensures first.Some? && second.None? && disabled
  {
    var page := new StripeCheckoutPage([], [], None, 0);
    var options := page.HandleCustomerDataSubmit(Some(data), Success(Success(ShipmentSelector.ShipmentMethodsResponse(None, None))));
    page.OnSelect(selection);
    var accept := (c: CustomerData) => true;
    first := page.HandleStripeCheckout(accept, Success(StripeSession(url)));
    second := page.HandleStripeCheckout(accept, Success(StripeSession(url)));
    disabled := page.PayDisabled();
  }

  /** A shipping-options call that throws leaves the page on the first step, still loading, with no
      options and no toast. */
  method ShippingThrowExample(data: CustomerData, t: Thrown)
    returns (loading: bool, step: int, noOptions: bool, noToast: bool)
    ensures loading && step == 1 && noOptions && noToast
  {
    var page := new StripeCheckoutPage([], [], None, 0);
    var request := page.HandleCustomerDataSubmit(Some(data), Failure(t));
    loading := page.isLoading;
    step := page.step;
    noOptions := page.shippingOptions.None?;
    noToast := page.toast.None?;
  }
}
