/**
  The ticket-holder form of the checkout: one name record per ticket piece, kept per product id;
  updates are copy-on-write, and submitting checks every piece for a first and a last name.
  JavaScript arrays here may have holes, so an array is a sequence of optional entries.
*/
module TicketHolders {
  import opened Wrappers
  import opened Text
  import opened StorefrontTypes

  /** A holder record. A record made by `updateHolder` on a hole has only the field it set, so
      both fields are optional. */
  datatype Holder = Holder(firstName: Option<string>, lastName: Option<string>)

  /** `Record<string, TicketHolderData[]>` */
  type Holders = map<string, seq<Option<Holder>>>

  datatype Field = FirstName | LastName

  const EmptyHolder := Holder(Some(""), Some(""))
  const NameRequired := "Etu- ja sukunimi vaaditaan"

  // ---------------------------------------------------------------------------
  // Sparse arrays
  // ---------------------------------------------------------------------------

  /** `a[i] = x`: writing past the end grows the array, leaving holes in between. */
  function SetAt<T>(a: seq<Option<T>>, i: nat, x: T): (r: seq<Option<T>>)
    ensures |r| == if i < |a| then |a| else i + 1
    ensures r[i] == Some(x)
    ensures forall j :: 0 <= j < |r| && j != i ==> r[j] == (if j < |a| then a[j] else None)
  {
    if i < |a| then a[i := Some(x)] else a + Nones(i - |a|) + [Some(x)]
  }

  /** `a[i]`, `undefined` past the end. */
  function At<T>(a: seq<Option<T>>, i: nat): Option<T> {
    if i < |a| then a[i] else None
  }

  // ---------------------------------------------------------------------------
  // Initial state
  // ---------------------------------------------------------------------------

  /** `Array.from({length: n}, () => ({firstName: "", lastName: ""}))`; a negative length gives
      an empty array. */
  function EmptyHolders(n: int): (r: seq<Option<Holder>>)
    ensures |r| == if n <= 0 then 0 else n
    ensures forall i :: 0 <= i < |r| ==> r[i] == Some(EmptyHolder)
  {
    if n <= 0 then [] else EmptyHolders(n - 1) + [Some(EmptyHolder)]
  }

  /** The holders the loop over the ticket lines builds: each line writes its product's entry, so
      a later line of the same product overwrites an earlier one. */
  function InitialFor(items: seq<CartItem>): Holders {
    if items == [] then map[]
    else
      var last := items[|items| - 1];
      InitialFor(items[..|items| - 1])[last.productId := EmptyHolders(last.cartQuantity)]
  }

  /** There is an entry for exactly the ticket lines' products; every entry holds empty records
      only, as many as the quantity of the last line of that product. */
  lemma {:induction false} InitialForShape(items: seq<CartItem>)
    ensures InitialFor(items).Keys == set i | 0 <= i < |items| :: items[i].productId
    ensures forall p :: p in InitialFor(items) ==>
      exists i :: 0 <= i < |items| && items[i].productId == p && InitialFor(items)[p] == EmptyHolders(items[i].cartQuantity)
  {
    if items != [] {
      var init := items[..|items| - 1];
      InitialForShape(init);
      var m := InitialFor(items);
      forall p | p in m
        ensures exists i :: 0 <= i < |items| && items[i].productId == p && m[p] == EmptyHolders(items[i].cartQuantity)
      {
        if p != items[|items| - 1].productId {
          var i :| 0 <= i < |init| && init[i].productId == p && InitialFor(init)[p] == EmptyHolders(init[i].cartQuantity);
          assert items[i] == init[i];
        }
      }
      assert m.Keys == InitialFor(init).Keys + {items[|items| - 1].productId};
      assert forall i :: 0 <= i < |init| ==> init[i] == items[i];
    }
  }

  /** With one line per product, each product gets exactly `cartQuantity` empty records. */
  lemma InitialForDistinct(items: seq<CartItem>, k: nat)
    requires k < |items|
    requires forall i, j :: 0 <= i < j < |items| ==> items[i].productId != items[j].productId
    ensures items[k].productId in InitialFor(items)
    ensures InitialFor(items)[items[k].productId] == EmptyHolders(items[k].cartQuantity)
  {
    InitialForShape(items);
    var p := items[k].productId;
    var i :| 0 <= i < |items| && items[i].productId == p && InitialFor(items)[p] == EmptyHolders(items[i].cartQuantity);
    assert i == k;
  }

  /** The `useState` initialiser: the given data verbatim, else one empty record per ticket piece. */
  method InitialHolders(ticketItems: seq<CartItem>, initialData: Option<Holders>) returns (h: Holders)
    ensures h == if initialData.Some? then initialData.value else InitialFor(ticketItems)
  {
    if initialData.Some? {
      return initialData.value;
    }
    h := map[];
    for n := 0 to |ticketItems|
      invariant h == InitialFor(ticketItems[..n])
    {
      var item := ticketItems[n];
      assert ticketItems[..n + 1][..n] == ticketItems[..n];
      h := h[item.productId := EmptyHolders(item.cartQuantity)];
    }
    assert ticketItems[..|ticketItems|] == ticketItems;
  }

  // ---------------------------------------------------------------------------
  // updateHolder
  // ---------------------------------------------------------------------------

  /** `updateHolder(productId, index, field, value)`: a new map whose entry for the product is a
      copy of the old list (`|| []` when absent) with the record at `index` replaced by a copy
      that has `field` set. */
  function UpdateHolder(holders: Holders, productId: string, index: nat, field: Field, value: string): Holders {
    var list := if productId in holders then holders[productId] else [];
    var base := At(list, index).GetOr(Holder(None, None));
    var record := match field
      case FirstName => base.(firstName := Some(value))
      case LastName => base.(lastName := Some(value));
    holders[productId := SetAt(list, index, record)]
  }

  /** Only the named field of the one record changes: the other field, the other indices and the
      other products are as before, and a write past the end leaves holes. */
  lemma UpdateHolderChangesOneField(holders: Holders, productId: string, index: nat, field: Field, value: string)
    ensures var r := UpdateHolder(holders, productId, index, field, value);
      var list := if productId in holders then holders[productId] else [];
      && r.Keys == holders.Keys + {productId}
      && (forall p :: p in holders && p != productId ==> r[p] == holders[p])
      && |r[productId]| == (if index < |list| then |list| else index + 1)
      && (forall j :: 0 <= j < |r[productId]| && j != index ==> r[productId][j] == At(list, j))
      && r[productId][index].Some?
      && (field == FirstName ==>
            r[productId][index].value.firstName == Some(value)
            && r[productId][index].value.lastName == (if At(list, index).Some? then At(list, index).value.lastName else None))
      && (field == LastName ==>
            r[productId][index].value.lastName == Some(value)
            && r[productId][index].value.firstName == (if At(list, index).Some? then At(list, index).value.firstName else None))
  {
  }

  /** Setting both names of a piece makes it pass the name check when neither is blank. */
  lemma UpdateBothNamesValid(holders: Holders, productId: string, index: nat, first: string, last: string)
    requires !IsBlank(first) && !IsBlank(last)
    ensures var r := UpdateHolder(UpdateHolder(holders, productId, index, FirstName, first), productId, index, LastName, last);
      !MissingName(At(r[productId], index))
  {
  }

  // ---------------------------------------------------------------------------
  // Submit
  // ---------------------------------------------------------------------------

  /** `!holder?.firstName?.trim() || !holder?.lastName?.trim()`: a hole, or a name that is
      missing or blank. */
  predicate MissingName(h: Option<Holder>) {
    h.None? || h.value.firstName.None? || IsBlank(h.value.firstName.value)
    || h.value.lastName.None? || IsBlank(h.value.lastName.value)
  }

  /** `holders[productId] || []` */
  function HoldersOf(holders: Holders, productId: string): seq<Option<Holder>> {
    if productId in holders then holders[productId] else []
  }

  /** Which of the first `n` pieces miss a name. */
  function MissingFlags(list: seq<Option<Holder>>, n: nat): (f: seq<bool>)
    ensures |f| == n
  {
    seq(n, i requires 0 <= i < n => MissingName(At(list, i)))
  }

  /** The error array for the given flags: an error at each flagged piece, holes elsewhere, and
      no trailing holes (the writes `itemErrors[i] = …` in increasing `i`). */
  function ErrorArray(flags: seq<bool>): seq<Option<string>> {
    if flags == [] then []
    else
      var n := |flags| - 1;
      var e := ErrorArray(flags[..n]);
      if flags[n] then SetAt(e, n, NameRequired) else e
  }

  /** An error sits exactly at the flagged pieces, the array ends at the last flagged one, and no
      piece past its end is flagged. */
  lemma {:induction false} ErrorArrayAt(flags: seq<bool>)
    ensures |ErrorArray(flags)| <= |flags|
    ensures forall i :: 0 <= i < |ErrorArray(flags)| ==>
      ErrorArray(flags)[i] == if flags[i] then Some(NameRequired) else None
    ensures forall i :: |ErrorArray(flags)| <= i < |flags| ==> !flags[i]
    ensures |ErrorArray(flags)| > 0 ==> flags[|ErrorArray(flags)| - 1]
  {
    if flags != [] {
      var n := |flags| - 1;
      var init := flags[..n];
      ErrorArrayAt(init);
      var e := ErrorArray(init);
      assert forall i :: 0 <= i < n ==> init[i] == flags[i];
      if flags[n] {
        var r := SetAt(e, n, NameRequired);
        assert ErrorArray(flags) == r;
        forall i | 0 <= i < |r|
          ensures r[i] == if flags[i] then Some(NameRequired) else None
        {
          if i != n && i >= |e| {
            assert !init[i];
          }
        }
      }
    }
  }

  /** The error array is non-empty exactly when some piece is flagged. */
  lemma ErrorArrayNonEmpty(flags: seq<bool>)
    ensures |ErrorArray(flags)| > 0 <==> exists i :: 0 <= i < |flags| && flags[i]
  {
    ErrorArrayAt(flags);
    if exists i :: 0 <= i < |flags| && flags[i] {
      var i :| 0 <= i < |flags| && flags[i];
      assert i < |ErrorArray(flags)|;
    }
  }

  /** The `itemErrors` array after checking pieces `0 .. n-1`. */
  function ItemErrors(list: seq<Option<Holder>>, n: nat): seq<Option<string>> {
    ErrorArray(MissingFlags(list, n))
  }

  /** An error is recorded at piece `i < n` exactly when that piece misses a name (holes
      elsewhere), no piece past the array's end misses a name, and the array is non-empty exactly
      when some checked piece misses a name. */
  lemma ItemErrorsRule(list: seq<Option<Holder>>, n: nat)
    ensures |ItemErrors(list, n)| <= n
    ensures forall i :: 0 <= i < |ItemErrors(list, n)| ==>
      ItemErrors(list, n)[i] == if MissingName(At(list, i)) then Some(NameRequired) else None
    ensures forall i :: |ItemErrors(list, n)| <= i < n ==> !MissingName(At(list, i))
    ensures |ItemErrors(list, n)| > 0 <==> exists i :: 0 <= i < n && MissingName(At(list, i))
  {
    var f := MissingFlags(list, n);
    assert forall i :: 0 <= i < n ==> f[i] == MissingName(At(list, i));
    ErrorArrayAt(f);
    ErrorArrayNonEmpty(f);
  }

  /** Checking one more piece extends the flags by that piece's flag. */
  lemma MissingFlagsStep(list: seq<Option<Holder>>, n: nat)
    ensures MissingFlags(list, n + 1)[..n] == MissingFlags(list, n)
    ensures MissingFlags(list, n + 1)[n] == MissingName(At(list, n))
  {
  }

  /** The inner loop's step: checking piece `n` extends the array when it misses a name. */
  lemma ItemErrorsStep(list: seq<Option<Holder>>, n: nat)
    ensures ItemErrors(list, n + 1) ==
      if MissingName(At(list, n)) then SetAt(ItemErrors(list, n), n, NameRequired) else ItemErrors(list, n)
  {
    MissingFlagsStep(list, n);
  }

  /** How many pieces of a line are checked: `i < item.cartQuantity`. */
  function Pieces(item: CartItem): nat {
    if item.cartQuantity <= 0 then 0 else item.cartQuantity
  }

  /** The error array of one ticket line. */
  function LineErrors(holders: Holders, item: CartItem): seq<Option<string>> {
    ItemErrors(HoldersOf(holders, item.productId), Pieces(item))
  }

  /** The `newErrors` map after the first ticket lines: a line whose pieces all have names adds
      nothing (and does not remove an entry an earlier line of the same product made). */
  function ErrorsFor(items: seq<CartItem>, holders: Holders): map<string, seq<Option<string>>> {
    if items == [] then map[]
    else
      var last := items[|items| - 1];
      var m := ErrorsFor(items[..|items| - 1], holders);
      if |LineErrors(holders, last)| > 0 then m[last.productId := LineErrors(holders, last)] else m
  }

  /** Some piece of some ticket line misses a name. */
  predicate AnyMissing(items: seq<CartItem>, holders: Holders) {
    exists k, i :: 0 <= k < |items| && 0 <= i < items[k].cartQuantity && MissingName(At(HoldersOf(holders, items[k].productId), i))
  }

  /** A line reports an error exactly when one of its pieces misses a name. */
  lemma LineErrorsRule(holders: Holders, item: CartItem)
    ensures |LineErrors(holders, item)| > 0 <==>
      exists i :: 0 <= i < item.cartQuantity && MissingName(At(HoldersOf(holders, item.productId), i))
  {
    ItemErrorsRule(HoldersOf(holders, item.productId), Pieces(item));
  }

  /** Some piece misses a name exactly when some line reports an error. */
  lemma AnyMissingByLine(items: seq<CartItem>, holders: Holders)
    ensures AnyMissing(items, holders) <==> exists k :: 0 <= k < |items| && |LineErrors(holders, items[k])| > 0
  {
    forall k | 0 <= k < |items| {
      LineErrorsRule(holders, items[k]);
    }
  }

  /** One more ticket line extends the error map by that line's errors, if it has any. */
  lemma ErrorsForStep(items: seq<CartItem>, holders: Holders, k: nat)
    requires k < |items|
    ensures ErrorsFor(items[..k + 1], holders) ==
      if |LineErrors(holders, items[k])| > 0 then ErrorsFor(items[..k], holders)[items[k].productId := LineErrors(holders, items[k])]
      else ErrorsFor(items[..k], holders)
  {
    assert items[..k + 1][..k] == items[..k];
    assert items[..k + 1][k] == items[k];
  }

  /** Some of the first `k` ticket lines reports an error. */
  predicate SomeLineMissing(items: seq<CartItem>, holders: Holders, k: nat)
    requires k <= |items|
  {
    exists j :: 0 <= j < k && |LineErrors(holders, items[j])| > 0
  }

  lemma SomeLineMissingStep(items: seq<CartItem>, holders: Holders, k: nat)
    requires k < |items|
    ensures SomeLineMissing(items, holders, k + 1) == (SomeLineMissing(items, holders, k) || |LineErrors(holders, items[k])| > 0)
  {
  }

  /** The error map of the first `k` lines holds only non-empty arrays, and is empty exactly when
      none of those lines reports an error. */
  lemma {:induction false} ErrorsForPrefix(items: seq<CartItem>, holders: Holders, k: nat)
    requires k <= |items|
    ensures forall p :: p in ErrorsFor(items[..k], holders) ==> |ErrorsFor(items[..k], holders)[p]| > 0
    ensures ErrorsFor(items[..k], holders) == map[] <==> !SomeLineMissing(items, holders, k)
  {
    if k == 0 {
      assert items[..0] == [];
    } else {
      ErrorsForPrefix(items, holders, k - 1);
      ErrorsForStep(items, holders, k - 1);
      SomeLineMissingStep(items, holders, k - 1);
      if |LineErrors(holders, items[k - 1])| > 0 {
        assert items[k - 1].productId in ErrorsFor(items[..k], holders);
      }
    }
  }

  /** A product is a key of the error map of the first `k` lines exactly when one of those lines
      for that product reports an error. */
  lemma {:induction false} ErrorsForKeys(items: seq<CartItem>, holders: Holders, k: nat)
    requires k <= |items|
    ensures forall p :: p in ErrorsFor(items[..k], holders) <==>
      exists j :: 0 <= j < k && items[j].productId == p && |LineErrors(holders, items[j])| > 0
  {
    if k == 0 {
      assert items[..0] == [];
    } else {
      ErrorsForKeys(items, holders, k - 1);
      ErrorsForStep(items, holders, k - 1);
      forall p
        ensures p in ErrorsFor(items[..k], holders) <==>
          exists j :: 0 <= j < k && items[j].productId == p && |LineErrors(holders, items[j])| > 0
      {
        if p in ErrorsFor(items[..k], holders) && !(p in ErrorsFor(items[..k - 1], holders)) {
          assert items[k - 1].productId == p && |LineErrors(holders, items[k - 1])| > 0;
        }
        if exists j :: 0 <= j < k && items[j].productId == p && |LineErrors(holders, items[j])| > 0 {
          var j :| 0 <= j < k && items[j].productId == p && |LineErrors(holders, items[j])| > 0;
          if j == k - 1 {
            assert p in ErrorsFor(items[..k], holders);
          } else {
            assert p in ErrorsFor(items[..k - 1], holders);
          }
        }
      }
    }
  }

  /** Every entry of the error map is a non-empty array, the map has a key exactly for the
      products of lines with an error, and it is empty exactly when every piece has both names. */
  lemma ErrorsForRule(items: seq<CartItem>, holders: Holders)
    ensures forall p :: p in ErrorsFor(items, holders) ==> |ErrorsFor(items, holders)[p]| > 0
    ensures ErrorsFor(items, holders) == map[] <==> !AnyMissing(items, holders)
    ensures forall p :: p in ErrorsFor(items, holders) <==>
      exists k :: 0 <= k < |items| && items[k].productId == p && |LineErrors(holders, items[k])| > 0
  {
    ErrorsForPrefix(items, holders, |items|);
    ErrorsForKeys(items, holders, |items|);
    assert items[..|items|] == items;
    AnyMissingByLine(items, holders);
  }

  /** The inner loop of `handleSubmit` over the pieces of one ticket line. */
  method CheckLine(itemHolders: seq<Option<Holder>>, quantity: int) returns (itemErrors: seq<Option<string>>, missing: bool)
    ensures itemErrors == ItemErrors(itemHolders, if quantity <= 0 then 0 else quantity)
    ensures missing == (|itemErrors| > 0)
  {
    itemErrors := [];
    missing := false;
    var i := 0;
    while i < quantity
      invariant 0 <= i <= (if quantity <= 0 then 0 else quantity)
      invariant itemErrors == ItemErrors(itemHolders, i)
      invariant missing == (|itemErrors| > 0)
    {
      ItemErrorsStep(itemHolders, i);
      if MissingName(At(itemHolders, i)) {
        itemErrors := SetAt(itemErrors, i, NameRequired);
        missing := true;
      }
      i := i + 1;
    }
  }

  /** The validation loops of `handleSubmit`. */
  method ValidateHolders(items: seq<CartItem>, holders: Holders)
    returns (newErrors: map<string, seq<Option<string>>>, hasErrors: bool)
    ensures newErrors == ErrorsFor(items, holders)
    ensures hasErrors == AnyMissing(items, holders)
  {
    newErrors := map[];
    hasErrors := false;
    for k := 0 to |items|
      invariant newErrors == ErrorsFor(items[..k], holders)
      invariant hasErrors == SomeLineMissing(items, holders, k)
    {
      var item := items[k];
      var itemErrors, missing := CheckLine(HoldersOf(holders, item.productId), item.cartQuantity);
      assert itemErrors == LineErrors(holders, item);
      SomeLineMissingStep(items, holders, k);
      hasErrors := hasErrors || missing;
      ErrorsForStep(items, holders, k);
      if |itemErrors| > 0 {
        newErrors := newErrors[item.productId := itemErrors];
      }
    }
    assert items[..|items|] == items;
    AnyMissingByLine(items, holders);
  }

  // ---------------------------------------------------------------------------
  // The form
  // ---------------------------------------------------------------------------

  class TicketHoldersForm {
    const ticketItems: seq<CartItem>
    var holders: Holders
    var errors: map<string, seq<Option<string>>>
    /** The holders handed to `onSubmit`, each time it was called. */
    var submitted: seq<Holders>

    constructor (ticketItems: seq<CartItem>, initialData: Option<Holders>)
      ensures this.ticketItems == ticketItems
      ensures holders == if initialData.Some? then initialData.value else InitialFor(ticketItems)
      ensures errors == map[] && submitted == []
    {
      this.ticketItems := ticketItems;
      var initial := InitialHolders(ticketItems, initialData);
      holders := initial;
      errors := map[];
      submitted := [];
    }

    /** `updateHolder` through the state setter. */
    method UpdateField(productId: string, index: nat, field: Field, value: string)
      modifies this`holders
      ensures holders == UpdateHolder(old(holders), productId, index, field, value)
    {
      holders := UpdateHolder(holders, productId, index, field, value);
    }

    /** `handleSubmit`: the errors are always replaced, and `onSubmit(holders)` is called exactly
        when no piece misses a name. */
    method HandleSubmit()
      modifies this`errors, this`submitted
      ensures errors == ErrorsFor(ticketItems, holders)
      ensures submitted == if AnyMissing(ticketItems, holders) then old(submitted) else old(submitted) + [holders]
    {
      var newErrors, hasErrors := ValidateHolders(ticketItems, holders);
      errors := newErrors;
      if !hasErrors {
        submitted := submitted + [holders];
      }
    }
  }
}
