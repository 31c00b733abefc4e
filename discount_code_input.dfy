/**
  The discount-code field of the cart page: the typed code is kept in upper case, and applying sends
  the trimmed, upper-cased code to the cart store.
*/
module DiscountCodeInput {
  import opened Wrappers
  import opened Text
  import opened StorefrontTypes
  import CartStore

  /** `code.trim().toUpperCase()`: the code as it is sent. */
  function NormaliseCode(code: string): string {
    ToUpper(Trim(code))
  }

  /** A normalised non-blank code is non-empty, has no white space at either end and is already in
      upper case, so normalising it again changes nothing. */
  lemma {:induction false} NormaliseCodeIsNormal(code: string)
    ensures !IsBlank(code) ==> NormaliseCode(code) != ""
    ensures Trim(NormaliseCode(code)) == NormaliseCode(code)
    ensures ToUpper(NormaliseCode(code)) == NormaliseCode(code)
    ensures NormaliseCode(NormaliseCode(code)) == NormaliseCode(code)
  {
    var t := Trim(code);
    TrimToUpperCommute(t);
    TrimIdempotent(code);
    ToUpperIdempotent(t);
  }

  /** Upper-casing while typing does not change what is sent. */
  lemma {:induction false} TypedCodeNormalisesAlike(typed: string)
    ensures NormaliseCode(ToUpper(typed)) == NormaliseCode(typed)
    ensures IsBlank(ToUpper(typed)) <==> IsBlank(typed)
  {
    TrimToUpperCommute(typed);
    ToUpperIdempotent(Trim(typed));
    BlankToUpper(typed);
  }

  /** What the component renders: the applied code with its remove button, or the form with its
      input, apply button and error line. */
  datatype DiscountView =
    | AppliedView(code: string, removeDisabled: bool)
    | FormView(code: string, inputDisabled: bool, applyDisabled: bool, error: Option<string>)

  function View(discount: Option<AppliedDiscount>, discountLoading: bool, discountError: Option<string>,
                code: string): DiscountView {
    if discount.Some? then AppliedView(discount.value.code, discountLoading)
    else FormView(code, discountLoading, discountLoading || IsBlank(code),
                  if Truthy(discountError) then discountError else None)
  }

  /** The applied view appears exactly when a discount is applied; otherwise the form shows, its
      apply button is disabled while loading or while the code is blank, and a non-empty error is
      shown. */
  lemma ViewRule(discount: Option<AppliedDiscount>, discountLoading: bool, discountError: Option<string>, code: string)
    ensures View(discount, discountLoading, discountError, code).AppliedView? <==> discount.Some?
    ensures discount.None? ==>
      (View(discount, discountLoading, discountError, code).applyDisabled <==> (discountLoading || IsBlank(code)))
    ensures discount.None? ==>
      (View(discount, discountLoading, discountError, code).error.Some? <==> Truthy(discountError))
  {
  }

  class DiscountCodeField {
    var code: string

    constructor ()
      ensures code == ""
    {
      code := "";
    }

    /** `onChange`: the typed text, upper-cased. */
    method OnChange(value: string)
      modifies this`code
      ensures code == ToUpper(value)
    {
      code := ToUpper(value);
    }

    /** `handleApply()`. A blank code makes no call. Otherwise the cart store applies the
        normalised code, and the field is cleared only when that succeeded. */
    method HandleApply(cart: CartStore.Cart, campaigns: Option<seq<Campaign>>, genericMessage: string,
                       reply: Result<AppliedDiscount, Thrown>)
      returns (request: Option<CartStore.DiscountRequest>)
      modifies this`code, cart`discount, cart`discountLoading, cart`discountError
      ensures IsBlank(old(code)) ==>
        request == None && code == old(code)
        && cart.discount == old(cart.discount) && cart.discountError == old(cart.discountError)
        && cart.discountLoading == old(cart.discountLoading)
      ensures !IsBlank(old(code)) ==>
        request == Some(CartStore.DiscountRequest(NormaliseCode(old(code)), cart.items, campaigns))
        && code == (if reply.Success? then "" else old(code))
        && cart.discount == (if reply.Success? then Some(reply.value) else old(cart.discount))
        && cart.discountError == (if reply.Success? then None
                                  else Some(CartStore.ApplyErrorMessage(reply.error, genericMessage)))
        && !cart.discountLoading
    {
      if IsBlank(code) {
        request := None;
        return;
      }
      var sent, outcome := cart.ApplyDiscount(ToUpper(Trim(code)), campaigns, genericMessage, reply);
      request := Some(sent);
      if outcome.success {
        code := "";
      }
    }

    /** `handleKeyDown`: Enter takes the apply path; any other key does nothing. */
    method HandleKeyDown(key: string, cart: CartStore.Cart, campaigns: Option<seq<Campaign>>,
                         genericMessage: string, reply: Result<AppliedDiscount, Thrown>)
      returns (request: Option<CartStore.DiscountRequest>)
      modifies this`code, cart`discount, cart`discountLoading, cart`discountError
      ensures key != "Enter" ==>
        request == None && code == old(code) && cart.discount == old(cart.discount)
        && cart.discountError == old(cart.discountError) && cart.discountLoading == old(cart.discountLoading)
      ensures key == "Enter" && IsBlank(old(code)) ==>
        request == None && code == old(code)
        && cart.discount == old(cart.discount) && cart.discountError == old(cart.discountError)
        && cart.discountLoading == old(cart.discountLoading)
      ensures key == "Enter" && !IsBlank(old(code)) ==>
        request == Some(CartStore.DiscountRequest(NormaliseCode(old(code)), cart.items, campaigns))
        && code == (if reply.Success? then "" else old(code))
        && cart.discount == (if reply.Success? then Some(reply.value) else old(cart.discount))
        && cart.discountError == (if reply.Success? then None
                                  else Some(CartStore.ApplyErrorMessage(reply.error, genericMessage)))
        && !cart.discountLoading
    {
      request := None;
      if key == "Enter" {
        request := HandleApply(cart, campaigns, genericMessage, reply);
      }
    }
  }
}
