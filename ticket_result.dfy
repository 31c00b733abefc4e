/** The ticket card the scanner shows after a check or a use: banner, rows and colours. */
module TicketResult {
  import opened Wrappers
  import opened Text
  import opened StorefrontTypes

  /** `statusLabels[status]`: the Finnish label of the four known codes. */
  function StatusLabel(status: string): (r: Option<string>)
    ensures r.Some? <==> status in {"VALID", "USED", "EXPIRED", "CANCELLED"}
    ensures r.Some? ==> r.value != ""
  {
    if status == "VALID" then Some("Voimassa")
    else if status == "USED" then Some("Käytetty")
    else if status == "EXPIRED" then Some("Vanhentunut")
    else if status == "CANCELLED" then Some("Peruutettu")
    else None
  }

  /** The status row: the label, or the raw code when it has none. */
  function StatusText(status: string): string {
    OrElse(StatusLabel(status), status)
  }

  /** The banner: the message if non-empty, else the status row's text. */
  function BannerText(message: Option<string>, status: string): string {
    OrElse(message, OrElse(StatusLabel(status), status))
  }

  lemma StatusTextRule(message: Option<string>, status: string)
    ensures status in {"VALID", "USED", "EXPIRED", "CANCELLED"} ==> StatusText(status) == StatusLabel(status).value
    ensures status !in {"VALID", "USED", "EXPIRED", "CANCELLED"} ==> StatusText(status) == status
    ensures Truthy(message) ==> BannerText(message, status) == message.value
    ensures !Truthy(message) ==> BannerText(message, status) == StatusText(status)
  {
  }

  const Unlimited := " (rajaton)"

  /** `usageText` */
  function UsageText(t: PurchasedTicket): string {
    if t.maxUses == 0 then IntToString(t.usedCount) + Unlimited
    else IntToString(t.usedCount) + " / " + IntToString(t.maxUses)
  }

  lemma IntToStringEndsInDigit(i: int)
    ensures |IntToString(i)| > 0 && IsDigit(IntToString(i)[|IntToString(i)| - 1])
  {
  }

  /** The text marks unlimited use exactly when `maxUses` is 0; otherwise it ends with the
      maximum's digits. */
  lemma UsageTextRule(t: PurchasedTicket)
    ensures var u := UsageText(t); (|u| > 0 && u[|u| - 1] == ')') <==> t.maxUses == 0
    ensures t.maxUses != 0 ==> StartsWith(UsageText(t), IntToString(t.usedCount) + " / ")
  {
    IntToStringEndsInDigit(t.maxUses);
    var u := UsageText(t);
    if t.maxUses != 0 {
      var p := IntToString(t.usedCount) + " / ";
      assert u == p + IntToString(t.maxUses);
      assert u[..|p|] == p;
      assert u[|u| - 1] == IntToString(t.maxUses)[|IntToString(t.maxUses)| - 1];
    }
  }

  /** The holder row: shown when a first or last name is set, with the two joined by a space and
      trimmed. */
  function HolderRow(firstName: Option<string>, lastName: Option<string>): Option<string> {
    if Truthy(firstName) || Truthy(lastName) then Some(Trim(firstName.GetOr("") + " " + lastName.GetOr("")))
    else None
  }

  /** The row is absent exactly when neither name is set; two names with no surrounding white
      space show as "first last". */
  lemma HolderRowRule(firstName: Option<string>, lastName: Option<string>)
    ensures HolderRow(firstName, lastName).None? <==> !Truthy(firstName) && !Truthy(lastName)
    ensures (Truthy(firstName) && Truthy(lastName)
      && !IsWhitespace(firstName.value[0]) && !IsWhitespace(lastName.value[|lastName.value| - 1])) ==>
      HolderRow(firstName, lastName) == Some(firstName.value + " " + lastName.value)
  {
    if Truthy(firstName) && Truthy(lastName)
      && !IsWhitespace(firstName.value[0]) && !IsWhitespace(lastName.value[|lastName.value| - 1])
    {
      var s := firstName.value + " " + lastName.value;
      assert s[0] == firstName.value[0];
      assert TrimStart(s) == s;
      assert s[|s| - 1] == lastName.value[|lastName.value| - 1];
      assert TrimEnd(s) == s;
    }
  }

  /** A formatted value, or the fixed text shown in its place. */
  datatype Shown = Fixed(text: string) | Formatted(value: string)

  /** `formatPrice`: "-" for no price; otherwise the euro amount, whose locale text is not part
      of this model. */
  datatype PriceText = NoPrice | Euros(cents: int)

  function FormatPrice(cents: Option<int>): (r: PriceText)
    ensures r == NoPrice <==> cents.None?
    ensures cents.Some? ==> r == Euros(cents.value)
  {
    match cents
    case None => NoPrice
    case Some(c) => Euros(c)
  }

  /** `formatDate`: "-" for a missing or empty date, otherwise the date (formatted by locale). */
  function FormatDate(date: Option<string>): Shown {
    if Truthy(date) then Formatted(date.value) else Fixed("-")
  }

  const NoEndDate := "Ei päättymispäivää"

  /** The "valid until" row: the fixed no-end-date text when there is no end date. */
  function ValidUntilText(validUntil: Option<string>): (r: Shown)
    ensures !Truthy(validUntil) <==> r == Fixed(NoEndDate)
    ensures Truthy(validUntil) ==> r == FormatDate(validUntil)
  {
    if Truthy(validUntil) then FormatDate(validUntil) else Fixed(NoEndDate)
  }

  /** Border, background and status colours. */
  datatype Colours = Colours(border: string, background: string, status: string)

  function ColoursFor(success: bool): (r: Colours)
    ensures success ==> r == Colours("border-green-500", "bg-green-50", "text-green-700")
    ensures !success ==> r == Colours("border-red-500", "bg-red-50", "text-red-700")
  {
    if success then Colours("border-green-500", "bg-green-50", "text-green-700")
    else Colours("border-red-500", "bg-red-50", "text-red-700")
  }

  /** The colours are decided by the success flag alone, and the two flags look different. */
  lemma ColoursDistinguish(a: bool, b: bool)
    ensures ColoursFor(a) == ColoursFor(b) <==> a == b
  {
  }

  /** The rows of the card that carry a rule. */
  datatype Card = Card(
    colours: Colours,
    banner: string,
    holder: Option<string>,
    price: PriceText,
    status: string,
    usage: string,
    validUntil: Shown)

  function CardFor(success: bool, message: Option<string>, t: PurchasedTicket): Card {
    Card(ColoursFor(success), BannerText(message, t.status), HolderRow(t.firstName, t.lastName),
      FormatPrice(t.price), StatusText(t.status), UsageText(t), ValidUntilText(t.validUntil))
  }
}
