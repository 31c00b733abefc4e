/**
  The Paytrail checkout wizard: customer data, then (unless every cart line is a ticket) the
  shipment method, then the payment-method selection. Each backend call is given to its handler as
  the reply it produces.
*/
module PaytrailCheckout {
  import opened Wrappers
  import opened Text
  import opened StorefrontTypes
  import opened CheckoutCommon
  import ShipmentSelector

  /** `requiresShipping`: some cart line is not a ticket. */
  predicate RequiresShipping(items: seq<CartItem>) {
    exists i :: 0 <= i < |items| && !items[i].isTicket
  }

  /** A cart of tickets only (the empty cart included) skips the shipping step. */
  lemma TicketOnlySkipsShipping(items: seq<CartItem>)
    ensures !RequiresShipping(items) <==> forall i :: 0 <= i < |items| ==> items[i].isTicket
  {
  }

  /** The titles of the wizard's steps. */
  function StepTitles(requiresShipping: bool): seq<string> {
    if requiresShipping then ["Asiakastiedot", "Toimitustapa", "Maksutapa"]
    else ["Asiakastiedot", "Maksutapa"]
  }

  /** Three steps with shipping, two without; either way the customer data come first and the
      payment method last, and the shipping step appears exactly when shipping is needed. */
  lemma StepTitlesShape(requiresShipping: bool)
    ensures |StepTitles(requiresShipping)| == if requiresShipping then 3 else 2
    ensures StepTitles(requiresShipping)[0] == "Asiakastiedot"
    ensures StepTitles(requiresShipping)[|StepTitles(requiresShipping)| - 1] == "Maksutapa"
    ensures "Toimitustapa" in StepTitles(requiresShipping) <==> requiresShipping
  {
  }

  /** The session Paytrail returns (its provider list is only rendered). */
  datatype PaytrailSession = PaytrailSession(transactionId: string)

  /** `apiCreatePaytrailCheckoutSession(chosenShipmentMethod, customerData)` */
  datatype SessionRequest = SessionRequest(shipment: Option<ChosenShipmentMethod>, customer: CustomerData)

  /** The backend call a customer-data submit makes, if any. */
  datatype SubmitCall = NoCall | SessionCall(session: SessionRequest) | ShippingCall(shipping: ShippingRequest)

  const PaymentErrorTitle := "Virhe maksun käsittelyssä"
  const PaymentErrorFallback := "Tuntematon virhe"
  const ShippingErrorTitle := "Virhe haettaessa toimitustapoja"
  const ShippingErrorFallback := "Yritä myöhemmin uudestaan"

  class PaytrailCheckoutPage {
    /** The cart as the page read it, the campaigns and the campaign total. */
    const cartItems: seq<CartItem>
    const campaigns: seq<Campaign>
    const discount: Option<AppliedDiscount>
    const cartTotal: int

    var isLoading: bool
    var customerData: Option<CustomerData>
    var shippingOptions: Option<ShipmentSelector.ShipmentMethodsResponse>
    var step: int
    var selectedShipping: Option<ShipmentSelector.ShipmentSelection>
    var paytrailData: Option<PaytrailSession>
    /** The error toast last shown, if any. */
    var toast: Option<Toast>

    /** The step is one of the three; the payment step always has a session to show, and so has
        step 2 of a ticket-only cart. */
    ghost predicate Valid()
      reads this
    {
      1 <= step <= 3
      && (step == 3 ==> paytrailData.Some?)
      && (!RequiresShipping(cartItems) && step == 2 ==> paytrailData.Some?)
    }

    constructor (cartItems: seq<CartItem>, campaigns: seq<Campaign>, discount: Option<AppliedDiscount>, cartTotal: int)
      ensures Valid()
      ensures this.cartItems == cartItems && this.campaigns == campaigns
      ensures this.discount == discount && this.cartTotal == cartTotal
      ensures !isLoading && customerData == None && shippingOptions == None && step == 1
      ensures selectedShipping == None && paytrailData == None && toast == None
    {
      this.cartItems := cartItems;
      this.campaigns := campaigns;
      this.discount := discount;
      this.cartTotal := cartTotal;
      isLoading := false;
      customerData := None;
      shippingOptions := None;
      step := 1;
      selectedShipping := None;
      paytrailData := None;
      toast := None;
    }

    /** The total the shipment selector receives. */
    function SelectorCartTotal(): int
      reads this
    {
      CartTotalAfterDiscount(discount, cartTotal)
    }

    /** The step list shown above the wizard. */
    function Steps(): seq<string>
      reads this
    {
      StepTitles(RequiresShipping(cartItems))
    }

    /** `handleCustomerDataSubmit(data)`. A missing form value stops right after `isLoading` was
        set, so `isLoading` stays true. A ticket-only cart creates the payment session at once (no
        shipment): step 2 on success. Otherwise the shipping options are fetched for the postal
        code, with the cart, the campaigns and the discount amount: step 2 on success. A failure
        shows a toast and keeps the step and the earlier options. A thrown shipping call ends the
        handler at the `await`: the page stays loading with nothing else changed. */
    method HandleCustomerDataSubmit(data: Option<CustomerData>,
                                    sessionReply: Reply<PaytrailSession>,
                                    shippingReply: ShippingReply)
      returns (call: SubmitCall)
      requires Valid()
      modifies this`isLoading, this`customerData, this`shippingOptions, this`step, this`paytrailData, this`toast
      ensures Valid()
      ensures customerData == data
      ensures data.None? ==>
        call == NoCall && isLoading && step == old(step) && paytrailData == old(paytrailData)
        && shippingOptions == old(shippingOptions) && toast == old(toast)
      ensures data.Some? && (!RequiresShipping(cartItems) || shippingReply.Success?) ==> !isLoading
      ensures data.Some? && !RequiresShipping(cartItems) ==>
        call == SessionCall(SessionRequest(None, data.value)) && shippingOptions == old(shippingOptions)
        && (sessionReply.Success? ==>
              paytrailData == Some(sessionReply.value) && step == 2 && toast == old(toast))
        && (sessionReply.Failure? ==>
              paytrailData == old(paytrailData) && step == old(step)
              && toast == Some(Toast(PaymentErrorTitle, OrElse(sessionReply.error, PaymentErrorFallback))))
      ensures data.Some? && RequiresShipping(cartItems) ==>
        call == ShippingCall(ShippingRequest(data.value.postalCode, cartItems, campaigns,
                                             cartTotal - SelectorCartTotal()))
        && paytrailData == old(paytrailData)
        && (shippingReply.Success? && shippingReply.value.Success? ==>
              shippingOptions == Some(shippingReply.value.value) && step == 2 && toast == old(toast))
        && (shippingReply.Success? && shippingReply.value.Failure? ==>
              shippingOptions == old(shippingOptions) && step == old(step)
              && toast == Some(Toast(ShippingErrorTitle, OrElse(shippingReply.value.error, ShippingErrorFallback))))
        && (shippingReply.Failure? ==>
              isLoading && shippingOptions == old(shippingOptions) && step == old(step) && toast == old(toast))
    {
      isLoading := true;
      customerData := data;
      if data.None? {
        call := NoCall;
        return;
      }
      var customer := data.value;
      if !RequiresShipping(cartItems) {
        call := SessionCall(SessionRequest(None, customer));
        match sessionReply {
          case Success(session) =>
            paytrailData := Some(session);
            step := 2;
          case Failure(error) =>
            toast := Some(Toast(PaymentErrorTitle, OrElse(error, PaymentErrorFallback)));
        }
        isLoading := false;
        return;
      }
      var discountAmount := cartTotal - CartTotalAfterDiscount(discount, cartTotal);
      call := ShippingCall(ShippingRequest(customer.postalCode, cartItems, campaigns, discountAmount));
      if shippingReply.Failure? {
        return;
      }
      match shippingReply.value {
        case Success(options) =>
          shippingOptions := Some(options);
          step := 2;
        case Failure(error) =>
          toast := Some(Toast(ShippingErrorTitle, OrElse(error, ShippingErrorFallback)));
      }
      isLoading := false;
    }

    /** `onSelect` of the shipment selector. */
    method OnSelect(selection: ShipmentSelector.ShipmentSelection)
      modifies this`selectedShipping
      ensures selectedShipping == Some(selection) && !CheckoutDisabled()
    {
      selectedShipping := Some(selection);
    }

    /** `handlePaytrailCheckout()`. Customer data the schema rejects (or none at all) stop it
        before anything changes. Otherwise the session is created with the converted selection:
        step 3 on success; a toast and the same step on failure; `isLoading` ends false. */
    method HandlePaytrailCheckout(schemaAccepts: CustomerData -> bool, reply: Reply<PaytrailSession>)
      returns (request: Option<SessionRequest>)
      requires Valid()
      modifies this`isLoading, this`step, this`paytrailData, this`toast
      ensures Valid()
      ensures !(customerData.Some? && schemaAccepts(customerData.value)) ==>
        request == None && isLoading == old(isLoading) && step == old(step)
        && paytrailData == old(paytrailData) && toast == old(toast)
      ensures customerData.Some? && schemaAccepts(customerData.value) ==>
        request == Some(SessionRequest(ToChosenShipmentMethod(selectedShipping), customerData.value))
        && !isLoading
        && (reply.Success? ==> paytrailData == Some(reply.value) && step == 3 && toast == old(toast))
        && (reply.Failure? ==>
              paytrailData == old(paytrailData) && step == old(step)
              && toast == Some(Toast(PaymentErrorTitle, OrElse(reply.error, PaymentErrorFallback))))
    {
      if !(customerData.Some? && schemaAccepts(customerData.value)) {
        request := None;
        return;
      }
      isLoading := true;
      var chosen := match selectedShipping
        case Some(s) => Some(ChosenShipmentMethod(s.shipmentMethodId, s.pickupPointId, s.serviceId))
        case None => None;
      request := Some(SessionRequest(chosen, customerData.value));
      match reply {
        case Success(session) =>
          paytrailData := Some(session);
          step := 3;
        case Failure(error) =>
          toast := Some(Toast(PaymentErrorTitle, OrElse(error, PaymentErrorFallback)));
      }
      isLoading := false;
    }

    /** `handleGoBack()`: one step back from steps 2 and 3; arriving at step 1 drops the shipment
        selection. The customer data are kept; at step 1 nothing happens. */
    method HandleGoBack()
      requires Valid()
      modifies this`step, this`selectedShipping
      ensures Valid()
      ensures step == (if old(step) > 1 then old(step) - 1 else old(step))
      ensures selectedShipping == (if step == 1 && old(step) == 2 then None else old(selectedShipping))
    {
      if step > 1 {
        var newStep := step - 1;
        step := newStep;
        if newStep == 1 {
          selectedShipping := None;
        }
      }
    }

    /** The proceed button is disabled until a shipment method is selected. */
    predicate CheckoutDisabled()
      reads this
    {
      selectedShipping.None?
    }
  }

  /** A shipping-options call that throws leaves a cart that needs shipping on the first step, still
      loading, with no options and no toast. */
  method ShippingThrowExample(items: seq<CartItem>, data: CustomerData, t: Thrown)
    returns (loading: bool, step: int, noOptions: bool, noToast: bool)
    requires RequiresShipping(items)
    ensures loading && step == 1 && noOptions && noToast
  {
    var page := new PaytrailCheckoutPage(items, [], None, 0);
    var call := page.HandleCustomerDataSubmit(Some(data), Failure(None), Failure(t));
    loading := page.isLoading;
    step := page.step;
    noOptions := page.shippingOptions.None?;
    noToast := page.toast.None?;
  }
}
