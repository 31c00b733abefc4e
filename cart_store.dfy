/**
  The cart store (`useCart`): the cart lines, a loading flag, the applied discount code and its
  loading flag and error. Every operation calls the backend, which is given to each method as the
  reply it produces (`Success(value)` or `Failure(thrown)`); a method returns the request it sent
  and, where the source rethrows, the rethrown failure.
*/
module CartStore {
  import opened Wrappers
  import opened StorefrontTypes

  // ---------------------------------------------------------------------------
  // Optimistic quantity change
  // ---------------------------------------------------------------------------

  /** `item.product.id === productId && item.variation?.id === variationId`; an absent variation
      id matches exactly the lines without a variation. */
  predicate Matches(item: CartItem, productId: string, variationId: Option<string>) {
    item.productId == productId && item.variationId == variationId
  }

  /** The optimistic update: every matching line's quantity moves by `delta` (no clamping),
      every other line is kept. */
  function ApplyDelta(items: seq<CartItem>, productId: string, variationId: Option<string>, delta: int)
    : (r: seq<CartItem>)
    ensures |r| == |items|
  {
    if items == [] then []
    else
      var head := if Matches(items[0], productId, variationId)
        then items[0].(cartQuantity := items[0].cartQuantity + delta)
        else items[0];
      [head] + ApplyDelta(items[1..], productId, variationId, delta)
  }

  /** Line by line: a matching line changes only in its quantity, by exactly `delta`; any other
      line is unchanged. */
  lemma {:induction false} ApplyDeltaAt(items: seq<CartItem>, productId: string,
                                         variationId: Option<string>, delta: int, i: nat)
    requires i < |items|
    ensures var r := ApplyDelta(items, productId, variationId, delta);
      r[i].productId == items[i].productId && r[i].variationId == items[i].variationId
      && r[i].isTicket == items[i].isTicket
      && r[i].cartQuantity == items[i].cartQuantity + (if Matches(items[i], productId, variationId) then delta else 0)
  {
    if i > 0 {
      ApplyDeltaAt(items[1..], productId, variationId, delta, i - 1);
    }
  }

  /** Decrementing after incrementing (or the other way round) gives the original lines back. */
  lemma {:induction false} ApplyDeltaInverse(items: seq<CartItem>, productId: string,
                                              variationId: Option<string>, delta: int)
    ensures ApplyDelta(ApplyDelta(items, productId, variationId, delta), productId, variationId, -delta) == items
  {
    if items != [] {
      ApplyDeltaInverse(items[1..], productId, variationId, delta);
    }
  }

  /** An update for a line that is not in the cart changes nothing. */
  lemma {:induction false} ApplyDeltaNoMatch(items: seq<CartItem>, productId: string,
                                              variationId: Option<string>, delta: int)
    requires forall i :: 0 <= i < |items| ==> !Matches(items[i], productId, variationId)
    ensures ApplyDelta(items, productId, variationId, delta) == items
  {
    if items != [] {
      ApplyDeltaNoMatch(items[1..], productId, variationId, delta);
    }
  }

  /** The sum of the quantities of all lines. */
  function TotalQuantity(items: seq<CartItem>): int {
    if items == [] then 0 else items[0].cartQuantity + TotalQuantity(items[1..])
  }

  /** The number of lines an update for `(productId, variationId)` touches. */
  function MatchCount(items: seq<CartItem>, productId: string, variationId: Option<string>): nat {
    if items == [] then 0
    else (if Matches(items[0], productId, variationId) then 1 else 0) + MatchCount(items[1..], productId, variationId)
  }

  /** The total quantity moves by `delta` once per matching line. */
  lemma {:induction false} ApplyDeltaTotal(items: seq<CartItem>, productId: string,
                                            variationId: Option<string>, delta: int)
    ensures TotalQuantity(ApplyDelta(items, productId, variationId, delta))
         == TotalQuantity(items) + delta * MatchCount(items, productId, variationId)
  {
    if items != [] {
      ApplyDeltaTotal(items[1..], productId, variationId, delta);
    }
  }

  // ---------------------------------------------------------------------------
  // Requests and replies
  // ---------------------------------------------------------------------------

  /** `apiAddToCart(productId, variationId, quantity)` */
  datatype AddRequest = AddRequest(productId: string, variationId: Option<string>, quantity: int)

  /** `apiRemoveFromCart(productId, variationId)` */
  datatype RemoveRequest = RemoveRequest(productId: string, variationId: Option<string>)

  /** `apiUpdateCartQuantity(productId, delta, variationId)`: a change, never an absolute quantity. */
  datatype QuantityRequest = QuantityRequest(productId: string, delta: int, variationId: Option<string>)

  /** `apiValidateCart(items, campaigns)` and `apiApplyDiscountCode(code, items, campaigns)` */
  datatype ValidateRequest = ValidateRequest(items: seq<CartItem>, campaigns: Option<seq<Campaign>>)
  datatype DiscountRequest = DiscountRequest(code: string, items: seq<CartItem>, campaigns: Option<seq<Campaign>>)

  /** What validation reports as changed. */
  datatype Changes = Changes(
    removedItems: int,
    quantityAdjusted: int,
    priceChanged: int,
    discountCouponRemoved: bool,
    discountRemovalReason: Option<string>)

  /** The validation response: the validated lines and the change report. */
  datatype ValidationResponse = ValidationResponse(items: seq<CartItem>, changes: Changes)

  /** The value `applyDiscount` resolves to. */
  datatype ApplyOutcome = ApplyOutcome(success: bool, error: Option<string>)

  /** The message shown for a failed discount code: the thrown error's own message when it is an
      `Error` (the SDK's `StorefrontError` included), otherwise the SDK's generic apply message. */
  function ApplyErrorMessage(thrown: Thrown, genericMessage: string): (m: string)
    ensures thrown.NonError? ==> m == genericMessage
    ensures !thrown.NonError? ==> m == thrown.message
  {
    match thrown
    case StorefrontError(message, _) => message
    case PlainError(message) => message
    case NonError => genericMessage
  }

  /** The rethrown failure of a reply, if it failed. */
  function Rethrown<R>(reply: Result<R, Thrown>): (t: Option<Thrown>)
    ensures t.Some? <==> reply.Failure?
    ensures t.Some? ==> t.value == reply.error
  {
    if reply.Failure? then Some(reply.error) else None
  }

  // ---------------------------------------------------------------------------
  // The store
  // ---------------------------------------------------------------------------

  class Cart {
    var items: seq<CartItem>
    var loading: bool
    var discount: Option<AppliedDiscount>
    var discountLoading: bool
    var discountError: Option<string>

    /** The store's initial state: an empty cart, nothing loading, no discount, no error. */
    constructor ()
      ensures items == [] && !loading && discount == None && !discountLoading && discountError == None
    {
      items := [];
      loading := false;
      discount := None;
      discountLoading := false;
      discountError := None;
    }

    /** `syncWithBackend`: never throws; the server's lines on success, the old lines on failure. */
    method SyncWithBackend(reply: Result<seq<CartItem>, Thrown>)
      modifies this`items, this`loading
      ensures items == (if reply.Success? then reply.value else old(items))
      ensures !loading
    {
      loading := true;
      match reply {
        case Success(serverItems) =>
          items := serverItems;
          loading := false;
        case Failure(_) =>
          loading := false;
      }
    }

    /** `addItem(product, variation)`: asks for one more piece; the server's lines on success; on
        failure the lines stay and the failure is rethrown. */
    method AddItem(productId: string, variationId: Option<string>, reply: Result<seq<CartItem>, Thrown>)
      returns (request: AddRequest, thrown: Option<Thrown>)
      modifies this`items, this`loading
      ensures request == AddRequest(productId, variationId, 1)
      ensures items == (if reply.Success? then reply.value else old(items))
      ensures !loading
      ensures thrown == Rethrown(reply)
    {
      loading := true;
      request := AddRequest(productId, variationId, 1);
      match reply {
        case Success(serverItems) =>
          items := serverItems;
          loading := false;
          thrown := None;
        case Failure(e) =>
          loading := false;
          thrown := Some(e);
      }
    }

    /** `removeItem(productId, variationId)`: the same success and failure rules as `addItem`. */
    method RemoveItem(productId: string, variationId: Option<string>, reply: Result<seq<CartItem>, Thrown>)
      returns (request: RemoveRequest, thrown: Option<Thrown>)
      modifies this`items, this`loading
      ensures request == RemoveRequest(productId, variationId)
      ensures items == (if reply.Success? then reply.value else old(items))
      ensures !loading
      ensures thrown == Rethrown(reply)
    {
      loading := true;
      request := RemoveRequest(productId, variationId);
      match reply {
        case Success(serverItems) =>
          items := serverItems;
          loading := false;
          thrown := None;
        case Failure(e) =>
          loading := false;
          thrown := Some(e);
      }
    }

    /** The first half of `incrementQuantity`/`decrementQuantity`, up to the backend call: takes a
        snapshot, writes the optimistic lines and builds the delta request. Nothing but `items`
        changes. */
    method BeginQuantityChange(productId: string, variationId: Option<string>, delta: int)
      returns (snapshot: seq<CartItem>, request: QuantityRequest)
      modifies this`items
      ensures snapshot == old(items)
      ensures items == ApplyDelta(snapshot, productId, variationId, delta)
      ensures request == QuantityRequest(productId, delta, variationId)
    {
      snapshot := items;
      items := ApplyDelta(snapshot, productId, variationId, delta);
      request := QuantityRequest(productId, delta, variationId);
    }

    /** The second half: the server's lines on success; on failure a roll-back to the snapshot and
        a rethrow. */
    method SettleQuantityChange(snapshot: seq<CartItem>, reply: Result<seq<CartItem>, Thrown>)
      returns (thrown: Option<Thrown>)
      modifies this`items
      ensures items == (if reply.Success? then reply.value else snapshot)
      ensures thrown == Rethrown(reply)
    {
      match reply {
        case Success(serverItems) =>
          items := serverItems;
          thrown := None;
        case Failure(e) =>
          items := snapshot;
          thrown := Some(e);
      }
    }

    /** `incrementQuantity(productId, variationId)`, run to completion without another call in
        between: sends `+1`; afterwards the server's lines or, on failure, the lines as before. */
    method IncrementQuantity(productId: string, variationId: Option<string>, reply: Result<seq<CartItem>, Thrown>)
      returns (request: QuantityRequest, thrown: Option<Thrown>)
      modifies this`items
      ensures request == QuantityRequest(productId, 1, variationId)
      ensures items == (if reply.Success? then reply.value else old(items))
      ensures thrown == Rethrown(reply)
    {
      var snapshot;
      snapshot, request := BeginQuantityChange(productId, variationId, 1);
      thrown := SettleQuantityChange(snapshot, reply);
    }

    /** `decrementQuantity(productId, variationId)`: the same with `-1`. */
    method DecrementQuantity(productId: string, variationId: Option<string>, reply: Result<seq<CartItem>, Thrown>)
      returns (request: QuantityRequest, thrown: Option<Thrown>)
      modifies this`items
      ensures request == QuantityRequest(productId, -1, variationId)
      ensures items == (if reply.Success? then reply.value else old(items))
      ensures thrown == Rethrown(reply)
    {
      var snapshot;
      snapshot, request := BeginQuantityChange(productId, variationId, -1);
      thrown := SettleQuantityChange(snapshot, reply);
    }

    /** `validateCart(campaigns)`: sends the current lines; on success takes the validated lines and,
        when the coupon was dropped, clears the discount and records the SDK's removal message
        (`removalMessage`, applied to the reported reason); returns the response. On failure
        nothing but `loading` changes and the failure is rethrown. */
    method ValidateCart(campaigns: Option<seq<Campaign>>, removalMessage: Option<string> -> string,
                        reply: Result<ValidationResponse, Thrown>)
      returns (request: ValidateRequest, response: Result<ValidationResponse, Thrown>)
      modifies this`items, this`loading, this`discount, this`discountError
      ensures request == ValidateRequest(old(items), campaigns)
      ensures response == reply
      ensures !loading
      ensures reply.Failure? ==>
        items == old(items) && discount == old(discount) && discountError == old(discountError)
      ensures reply.Success? ==> items == reply.value.items
      ensures reply.Success? && reply.value.changes.discountCouponRemoved ==>
        discount == None && discountError == Some(removalMessage(reply.value.changes.discountRemovalReason))
      ensures reply.Success? && !reply.value.changes.discountCouponRemoved ==>
        discount == old(discount) && discountError == old(discountError)
    {
      loading := true;
      request := ValidateRequest(items, campaigns);
      response := reply;
      match reply {
        case Success(data) =>
          items := data.items;
          loading := false;
          if data.changes.discountCouponRemoved {
            discount := None;
            discountError := Some(removalMessage(data.changes.discountRemovalReason));
          }
        case Failure(_) =>
          loading := false;
      }
    }

    /** `applyDiscount(code, campaigns)`: clears the error and sends the code with the current lines.
        On success stores the returned code, type and value and resolves to `{success: true}`; on
        failure keeps the discount, records the message and resolves to `{success: false, error}`
        with that same message (`genericMessage` is the SDK's text for a non-`Error` failure).
        Never throws. */
    method ApplyDiscount(code: string, campaigns: Option<seq<Campaign>>, genericMessage: string,
                         reply: Result<AppliedDiscount, Thrown>)
      returns (request: DiscountRequest, outcome: ApplyOutcome)
      modifies this`discount, this`discountLoading, this`discountError
      ensures request == DiscountRequest(code, items, campaigns)
      ensures !discountLoading
      ensures reply.Success? ==>
        discount == Some(reply.value) && discountError == None && outcome == ApplyOutcome(true, None)
      ensures reply.Failure? ==>
        var message := ApplyErrorMessage(reply.error, genericMessage);
        discount == old(discount) && discountError == Some(message)
        && outcome == ApplyOutcome(false, Some(message))
    {
      discountLoading := true;
      discountError := None;
      request := DiscountRequest(code, items, campaigns);
      match reply {
        case Success(data) =>
          discountLoading := false;
          discount := Some(AppliedDiscount(data.code, data.discountType, data.discountValue));
          outcome := ApplyOutcome(true, None);
        case Failure(e) =>
          var message := ApplyErrorMessage(e, genericMessage);
          discountLoading := false;
          discountError := Some(message);
          outcome := ApplyOutcome(false, Some(message));
      }
    }

    /** `removeDiscount()`: clears the error; on success the discount is gone, on failure it is kept.
        Never throws. */
    method RemoveDiscount(reply: Result<(), Thrown>)
      modifies this`discount, this`discountLoading, this`discountError
      ensures discount == (if reply.Success? then None else old(discount))
      ensures discountError == None
      ensures !discountLoading
    {
      discountLoading := true;
      discountError := None;
      match reply {
        case Success(_) =>
          discountLoading := false;
          discount := None;
        case Failure(_) =>
          discountLoading := false;
      }
    }
  }

  /** A failed increment of a line with quantity 2 shows 3 while the call is pending and 2 again
      after the roll-back; the backend is asked for `+1`. */
  method IncrementRollbackExample() returns (pending: int, settled: int, request: QuantityRequest)
    ensures pending == 3 && settled == 2
    ensures request.delta == 1
  {
    var cart := new Cart();
    var line := CartItem("p1", None, 2, false);
    cart.SyncWithBackend(Success([line]));
    var snapshot;
    snapshot, request := cart.BeginQuantityChange("p1", None, 1);
    ApplyDeltaAt(snapshot, "p1", None, 1, 0);
    pending := cart.items[0].cartQuantity;
    var thrown := cart.SettleQuantityChange(snapshot, Failure(NonError));
    settled := cart.items[0].cartQuantity;
  }
}
