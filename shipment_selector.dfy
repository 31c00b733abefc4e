/**
  The shipment-method selector of the checkout: how a radio choice becomes the selection handed to
  the checkout page, the free-shipping threshold rule, the distance text, and the shortened list
  of pickup points with its show-more toggle.
*/
module ShipmentSelector {
  import opened Wrappers
  import opened Text

  /** What the selector hands to the page: the method, and the pickup point and carrier service
      (both `null` for home delivery). */
  datatype ShipmentSelection = ShipmentSelection(
    shipmentMethodId: string,
    pickupPointId: Option<string>,
    serviceId: Option<string>)

  datatype PickupPoint = PickupPoint(
    id: string,
    shipmentMethodId: string,
    serviceId: Option<string>,
    price: int,
    distance: Option<int>,
    freeShippingThreshold: Option<int>)

  datatype HomeDeliveryOption = HomeDeliveryOption(id: string, price: int, freeShippingThreshold: Option<int>)

  /** The backend's shipping options; either list may be missing. */
  datatype ShipmentMethodsResponse = ShipmentMethodsResponse(
    homeDelivery: Option<seq<HomeDeliveryOption>>,
    pickupPoints: Option<seq<PickupPoint>>)

  /** The radio value: the JSON object a radio item carries, as it reads after `JSON.parse`. */
  datatype RadioKind = Pickup | Delivery
  datatype RadioValue = RadioValue(
    kind: RadioKind,
    shipmentMethodId: string,
    pickupPointId: Option<string>,
    serviceId: Option<string>)

  /** Number of pickup points shown before "show more". */
  const InitialPickupPoints := 4

  // ---------------------------------------------------------------------------
  // Radio values and the selection
  // ---------------------------------------------------------------------------

  /** `pickupValue(point)` */
  function PickupValue(point: PickupPoint): RadioValue {
    RadioValue(Pickup, point.shipmentMethodId, Some(point.id), point.serviceId)
  }

  /** `deliveryValue(option)`: only the kind and the method id. */
  function DeliveryValue(option: HomeDeliveryOption): RadioValue {
    RadioValue(Delivery, option.id, None, None)
  }

  /** The selection `handleValueChange` reports for a radio value. */
  function Normalise(v: RadioValue): (s: ShipmentSelection)
    ensures s.shipmentMethodId == v.shipmentMethodId
  {
    match v.kind
    case Pickup => ShipmentSelection(v.shipmentMethodId, v.pickupPointId, v.serviceId)
    case Delivery => ShipmentSelection(v.shipmentMethodId, None, None)
  }

  /** Choosing a pickup point reports that point, its method and its service. */
  lemma NormalisePickupValue(point: PickupPoint)
    ensures Normalise(PickupValue(point)) == ShipmentSelection(point.shipmentMethodId, Some(point.id), point.serviceId)
  {
  }

  /** Choosing a home-delivery option reports its id with no pickup point and no service. */
  lemma NormaliseDeliveryValue(option: HomeDeliveryOption)
    ensures Normalise(DeliveryValue(option)) == ShipmentSelection(option.id, None, None)
  {
  }

  /** A selection is a delivery selection (both ids null) unless the value is a pickup value;
      a delivery value never carries pickup data, whatever fields its JSON holds. */
  lemma NormaliseNeverMixes(v: RadioValue)
    ensures v.kind == Delivery ==> Normalise(v).pickupPointId == None && Normalise(v).serviceId == None
    ensures v.kind == Pickup ==> Normalise(v).pickupPointId == v.pickupPointId && Normalise(v).serviceId == v.serviceId
  {
  }

  /** Two pickup points give the same radio value only when they agree on id, method and service,
      and no pickup value equals a delivery value: the radio items can be told apart. */
  lemma RadioValuesDistinct(p: PickupPoint, q: PickupPoint, o: HomeDeliveryOption)
    ensures PickupValue(p) != DeliveryValue(o)
    ensures PickupValue(p) == PickupValue(q) <==>
      (p.id == q.id && p.shipmentMethodId == q.shipmentMethodId && p.serviceId == q.serviceId)
  {
  }

  // ---------------------------------------------------------------------------
  // Free shipping
  // ---------------------------------------------------------------------------

  /** `isFreeShipping(threshold)` for the cart total the selector was given (if any). */
  predicate IsFreeShipping(threshold: Option<int>, cartTotal: Option<int>) {
    threshold.Some? && cartTotal.Some? && cartTotal.value >= threshold.value
  }

  /** What `renderFreeShippingInfo` shows under an option. */
  datatype FreeShippingInfo = NoInfo | FreeBadge | AddMore(remaining: int)

  function RenderFreeShippingInfo(threshold: Option<int>, cartTotal: Option<int>): FreeShippingInfo {
    if threshold.None? || cartTotal.None? then NoInfo
    else if cartTotal.value >= threshold.value then FreeBadge
    else AddMore(threshold.value - cartTotal.value)
  }

  /** The badge and the free price styling agree; without a threshold or a total there is no
      messaging at all; the "add more" amount is what is missing, and it is positive. */
  lemma FreeShippingInfoAgrees(threshold: Option<int>, cartTotal: Option<int>)
    ensures RenderFreeShippingInfo(threshold, cartTotal) == FreeBadge <==> IsFreeShipping(threshold, cartTotal)
    ensures RenderFreeShippingInfo(threshold, cartTotal) == NoInfo <==> (threshold.None? || cartTotal.None?)
    ensures RenderFreeShippingInfo(threshold, cartTotal).AddMore? ==>
      var r := RenderFreeShippingInfo(threshold, cartTotal).remaining;
      r > 0 && cartTotal.value + r == threshold.value
  {
  }

  /** A larger cart total never loses free shipping. */
  lemma FreeShippingMonotone(threshold: Option<int>, total: int, more: int)
    requires total <= more
    requires IsFreeShipping(threshold, Some(total))
    ensures IsFreeShipping(threshold, Some(more))
  {
  }

  // ---------------------------------------------------------------------------
  // Distance
  // ---------------------------------------------------------------------------

  /** What `formatDistance` returns: whole metres as text, or a kilometre figure (its one-decimal
      text is float formatting and is not modelled). */
  datatype DistanceText = Metres(text: string) | Kilometres(meters: int)

  function FormatDistance(meters: Option<int>): Option<DistanceText> {
    match meters
    case None => None
    case Some(m) => if m < 1000 then Some(Metres(IntToString(m) + "m")) else Some(Kilometres(m))
  }

  /** No distance gives no text; below 1000 the text is the metre count followed by "m", and the
      count reads back from it. */
  lemma FormatDistanceMetres(meters: Option<int>)
    ensures FormatDistance(meters).None? <==> meters.None?
    ensures meters.Some? && 0 <= meters.value < 1000 ==>
      var t := FormatDistance(meters).value.text;
      |t| >= 2 && t[|t| - 1] == 'm' && ParseNat(t[..|t| - 1]) == Some(meters.value)
    ensures meters.Some? && meters.value >= 1000 ==> FormatDistance(meters) == Some(Kilometres(meters.value))
  {
    if meters.Some? && 0 <= meters.value < 1000 {
      var t := FormatDistance(meters).value.text;
      assert t[..|t| - 1] == NatToString(meters.value);
      ParseNatToString(meters.value);
    }
  }

  // ---------------------------------------------------------------------------
  // Lists and the show-more toggle
  // ---------------------------------------------------------------------------

  /** `shippingOptions?.pickupPoints ?? []` and `shippingOptions?.homeDelivery ?? []` */
  function PickupPointsOf(options: Option<ShipmentMethodsResponse>): seq<PickupPoint> {
    if options.Some? then options.value.pickupPoints.GetOr([]) else []
  }

  function HomeDeliveryOf(options: Option<ShipmentMethodsResponse>): seq<HomeDeliveryOption> {
    if options.Some? then options.value.homeDelivery.GetOr([]) else []
  }

  /** The pickup points rendered: all of them, or the first four. */
  function VisiblePickupPoints(points: seq<PickupPoint>, showAll: bool): (r: seq<PickupPoint>)
    ensures |r| == if showAll || |points| <= InitialPickupPoints then |points| else InitialPickupPoints
    ensures r == points[..|r|]
  {
    if showAll || |points| <= InitialPickupPoints then points else points[..InitialPickupPoints]
  }

  /** The show-more button's label, when the button exists. */
  function ToggleLabel(pointCount: nat, showAll: bool): Option<string> {
    if pointCount <= InitialPickupPoints then None
    else if showAll then Some("Näytä vähemmän (" + NatToString(InitialPickupPoints) + "/" + NatToString(pointCount) + ")")
    else Some("Näytä lisää (" + NatToString(pointCount - InitialPickupPoints) + " lisää)")
  }

  /** The button exists exactly when some points are hidden or could be; while collapsed its label
      reports how many are hidden, which is the number of points not rendered. */
  lemma ToggleLabelReportsHidden(points: seq<PickupPoint>)
    ensures ToggleLabel(|points|, false).Some? <==> |VisiblePickupPoints(points, false)| < |points|
    ensures ToggleLabel(|points|, true).Some? <==> |points| > InitialPickupPoints
    ensures ToggleLabel(|points|, false).Some? ==>
      ToggleLabel(|points|, false).value
        == "Näytä lisää (" + NatToString(|points| - |VisiblePickupPoints(points, false)|) + " lisää)"
  {
  }

  /** What the selector renders. */
  datatype SelectorView =
    | NoMethodsMessage
    | Sections(pickup: seq<PickupPoint>, delivery: seq<HomeDeliveryOption>, toggle: Option<string>)

  function View(options: Option<ShipmentMethodsResponse>, showAll: bool): SelectorView {
    var pickup := PickupPointsOf(options);
    var delivery := HomeDeliveryOf(options);
    if |pickup| == 0 && |delivery| == 0 then NoMethodsMessage
    else Sections(VisiblePickupPoints(pickup, showAll), delivery, ToggleLabel(|pickup|, showAll))
  }

  /** With no options, or with both lists missing or empty, only the "no shipping methods"
      message is rendered; otherwise every delivery option and the visible pickup points. */
  lemma ViewNoMethods(options: Option<ShipmentMethodsResponse>, showAll: bool)
    ensures View(options, showAll) == NoMethodsMessage <==>
      (options.None? || ((options.value.pickupPoints.None? || options.value.pickupPoints.value == [])
                         && (options.value.homeDelivery.None? || options.value.homeDelivery.value == [])))
    ensures View(options, showAll).Sections? ==>
      View(options, showAll).delivery == HomeDeliveryOf(options)
      && View(options, showAll).pickup == VisiblePickupPoints(PickupPointsOf(options), showAll)
  {
  }

  // ---------------------------------------------------------------------------
  // Component state
  // ---------------------------------------------------------------------------

  class Selector {
    var selectedValue: Option<RadioValue>
    var showAllPickupPoints: bool

    constructor ()
      ensures selectedValue == None && !showAllPickupPoints
    {
      selectedValue := None;
      showAllPickupPoints := false;
    }

    /** `handleValueChange(value)`: remembers the value and reports its selection to the page. */
    method HandleValueChange(v: RadioValue) returns (selection: ShipmentSelection)
      modifies this`selectedValue
      ensures selectedValue == Some(v)
      ensures selection == Normalise(v)
    {
      selectedValue := Some(v);
      selection := Normalise(v);
    }

    /** The show-more button: flips between all points and the first four. */
    method ToggleShowAll()
      modifies this`showAllPickupPoints
      ensures showAllPickupPoints == !old(showAllPickupPoints)
    {
      showAllPickupPoints := !showAllPickupPoints;
    }

    /** Whether the radio item carrying `v` is shown selected. */
    predicate IsSelected(v: RadioValue)
      reads this
    {
      selectedValue == Some(v)
    }
  }
}
