/**
  The add-to-cart button: the stock left for the chosen product or variation, how many pieces of
  it the cart holds already, the out-of-stock gate, the label, and the error toasts.
*/
module AddToCart {
  import opened Wrappers
  import opened StorefrontTypes
  import CartStore

  /** A product, or one of its variations, with its stock (`null` for unlimited). */
  datatype Product = Product(id: string, quantity: Option<int>)
  datatype Variation = Variation(id: string, quantity: Option<int>)

  /** `availableStock`: the selected variation's stock, else the product's. */
  function AvailableStock(product: Product, selected: Option<Variation>): Option<int> {
    if selected.Some? then selected.value.quantity else product.quantity
  }

  /** Whether a cart line counts towards the chosen product: the same product id and, only when a
      variation is selected, the same variation id. */
  predicate Counts(item: CartItem, product: Product, selected: Option<Variation>) {
    item.productId == product.id && (selected.None? || item.variationId == Some(selected.value.id))
  }

  /** `currentCartQuantity`: the `reduce` from the left over the cart lines. */
  function CurrentCartQuantity(items: seq<CartItem>, product: Product, selected: Option<Variation>): int {
    if items == [] then 0
    else
      var last := items[|items| - 1];
      CurrentCartQuantity(items[..|items| - 1], product, selected) + (if Counts(last, product, selected) then last.cartQuantity else 0)
  }

  /** The lines that count, in cart order. */
  function CountedLines(items: seq<CartItem>, product: Product, selected: Option<Variation>): (r: seq<CartItem>)
    ensures forall i :: 0 <= i < |r| ==> Counts(r[i], product, selected)
    ensures |r| <= |items|
  {
    if items == [] then []
    else (if Counts(items[0], product, selected) then [items[0]] else []) + CountedLines(items[1..], product, selected)
  }

  lemma {:induction false} TotalQuantityAppend(a: seq<CartItem>, b: seq<CartItem>)
    ensures CartStore.TotalQuantity(a + b) == CartStore.TotalQuantity(a) + CartStore.TotalQuantity(b)
  {
    if a == [] {
      assert a + b == b;
    } else {
      assert (a + b)[0] == a[0] && (a + b)[1..] == a[1..] + b;
      TotalQuantityAppend(a[1..], b);
    }
  }

  lemma CountedLinesCons(a: CartItem, t: seq<CartItem>, product: Product, selected: Option<Variation>)
    ensures CountedLines([a] + t, product, selected)
      == (if Counts(a, product, selected) then [a] else []) + CountedLines(t, product, selected)
  {
    assert ([a] + t)[0] == a && ([a] + t)[1..] == t;
  }

  lemma {:induction false} CountedLinesAppend(a: seq<CartItem>, b: seq<CartItem>, product: Product, selected: Option<Variation>)
    ensures CountedLines(a + b, product, selected) == CountedLines(a, product, selected) + CountedLines(b, product, selected)
  {
    if a == [] {
      assert a + b == b;
    } else {
      var t := a[1..];
      var head := if Counts(a[0], product, selected) then [a[0]] else [];
      assert a == [a[0]] + t;
      assert a + b == [a[0]] + (t + b);
      calc {
        CountedLines(a + b, product, selected);
        { CountedLinesCons(a[0], t + b, product, selected); }
        head + CountedLines(t + b, product, selected);
        { CountedLinesAppend(t, b, product, selected); }
        head + (CountedLines(t, product, selected) + CountedLines(b, product, selected));
        (head + CountedLines(t, product, selected)) + CountedLines(b, product, selected);
        { CountedLinesCons(a[0], t, product, selected); }
        CountedLines(a, product, selected) + CountedLines(b, product, selected);
      }
    }
  }

  /** The fold is the total quantity of the lines that count. */
  lemma {:induction false} CurrentCartQuantityIsSum(items: seq<CartItem>, product: Product, selected: Option<Variation>)
    ensures CurrentCartQuantity(items, product, selected) == CartStore.TotalQuantity(CountedLines(items, product, selected))
  {
    if items != [] {
      var init, last := items[..|items| - 1], items[|items| - 1];
      assert items == init + [last];
      CurrentCartQuantityIsSum(init, product, selected);
      CountedLinesAppend(init, [last], product, selected);
      assert CountedLines([last], product, selected) == (if Counts(last, product, selected) then [last] else []) by {
        assert [last][1..] == [];
      }
      TotalQuantityAppend(CountedLines(init, product, selected), CountedLines([last], product, selected));
    }
  }

  /** With a variation selected, the lines that count are exactly the lines a quantity change for
      that product and variation would touch. */
  lemma CountsIsStoreMatch(item: CartItem, product: Product, v: Variation)
    ensures Counts(item, product, Some(v)) <==> CartStore.Matches(item, product.id, Some(v.id))
  {
  }

  /** `isOutOfStock`: a known stock that the cart already reaches. */
  predicate IsOutOfStock(stock: Option<int>, inCart: int) {
    stock.Some? && inCart >= stock.value
  }

  /** Unlimited stock is never out of stock; with a known stock, one piece less in the cart than
      the stock still allows adding. */
  lemma OutOfStockRule(stock: Option<int>, inCart: int)
    ensures stock.None? ==> !IsOutOfStock(stock, inCart)
    ensures stock.Some? ==> (IsOutOfStock(stock, inCart) <==> stock.value - inCart <= 0)
  {
  }

  /** The button label: out of stock first, then the just-added confirmation, then the default. */
  function Label(outOfStock: bool, isSuccess: bool): string {
    if outOfStock then "Ei varastossa" else if isSuccess then "Lisätty" else "Lisää ostoskoriin"
  }

  lemma LabelPrecedence(outOfStock: bool, isSuccess: bool)
    ensures outOfStock ==> Label(outOfStock, isSuccess) == "Ei varastossa"
    ensures Label(outOfStock, isSuccess) == "Lisätty" <==> !outOfStock && isSuccess
  {
  }

  /** The add result as the button reads it: `success`, an error `code` and an `error` text. */
  datatype AddResult = AddResult(success: bool, code: Option<string>, error: Option<string>)

  datatype Toast = Toast(title: string, description: Option<string>)

  const CartLimitCode := "CART_LIMIT_EXCEEDED"
  const GenericAddError := "Tuotteen lisääminen ostoskoriin epäonnistui. Yritä uudelleen."

  /** The error toast for a failed add. */
  function ErrorToast(result: AddResult): Toast {
    if result.code == Some(CartLimitCode) then Toast("Ostoskorin raja täynnä", result.error)
    else Toast("Virhe", Some(if result.error.Some? && result.error.value != "" then result.error.value else GenericAddError))
  }

  /** The cart-limit code, and only it, gets the cart-limit toast; every other failure gets a
      non-empty description. */
  lemma ErrorToastRule(result: AddResult)
    ensures ErrorToast(result).title == "Ostoskorin raja täynnä" <==> result.code == Some(CartLimitCode)
    ensures result.code != Some(CartLimitCode) ==>
      ErrorToast(result).description.Some? && ErrorToast(result).description.value != ""
  {
  }

  class AddToCartButton {
    var isSuccess: bool
    var toast: Option<Toast>

    constructor ()
      ensures !isSuccess && toast == None
    {
      isSuccess := false;
      toast := None;
    }

    /** `handleAddToCart()`: nothing when out of stock; otherwise the add is requested and either
        confirmed or reported in a toast. A failure `addItem` rethrows is not caught: the handler
        ends at the `await` with nothing changed. */
    method HandleAddToCart(items: seq<CartItem>, product: Product, selected: Option<Variation>,
                           reply: Result<AddResult, Thrown>)
      returns (requested: bool)
      modifies this`isSuccess, this`toast
      ensures requested == !Disabled(items, product, selected)
      ensures !requested ==> isSuccess == old(isSuccess) && toast == old(toast)
      ensures requested && reply.Success? && reply.value.success ==> isSuccess && toast == old(toast)
      ensures requested && reply.Success? && !reply.value.success ==>
        isSuccess == old(isSuccess) && toast == Some(ErrorToast(reply.value))
      ensures requested && reply.Failure? ==> isSuccess == old(isSuccess) && toast == old(toast)
    {
      var stock := AvailableStock(product, selected);
      var inCart := CurrentCartQuantity(items, product, selected);
      if stock.Some? && inCart >= stock.value {
        requested := false;
        return;
      }
      requested := true;
      if reply.Failure? {
        return;
      }
      var result := reply.value;
      if result.success {
        isSuccess := true;
      } else {
        toast := Some(ErrorToast(result));
      }
    }

    /** The button is disabled exactly when out of stock. */
    function Disabled(items: seq<CartItem>, product: Product, selected: Option<Variation>): bool {
      IsOutOfStock(AvailableStock(product, selected), CurrentCartQuantity(items, product, selected))
    }
  }
}
