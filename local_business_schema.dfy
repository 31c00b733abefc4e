/** The schema.org `Store` description of the shop, from the store configuration. */
module LocalBusinessSchema {
  import opened Wrappers
  import opened Text
  import opened StorefrontTypes
  import opened StoreConfig
  import opened SchemaParts

  /** The fields of the `Store` object that carry a rule. */
  datatype Store = Store(
    id: string,
    name: string,
    description: string,
    url: string,
    logo: string,
    image: string,
    priceRange: string,
    paymentAccepted: string,
    sameAs: Option<seq<string>>,
    foundingDate: Option<string>)

  /** The label of one payment method. */
  function PaymentLabel(m: string): (r: string)
    ensures m == "stripe" ==> r == "Credit Card, Debit Card"
    ensures m == "paytrail" ==> r == "Paytrail"
    ensures m != "stripe" && m != "paytrail" ==> r == m
  {
    if m == "stripe" then "Credit Card, Debit Card"
    else if m == "paytrail" then "Paytrail"
    else m
  }

  function PaymentLabels(methods: seq<string>): (r: seq<string>)
    ensures |r| == |methods| && forall i :: 0 <= i < |methods| ==> r[i] == PaymentLabel(methods[i])
  {
    seq(|methods|, i requires 0 <= i < |methods| => PaymentLabel(methods[i]))
  }

  /** `paymentAccepted`: the labels joined with ", " in input order. */
  function PaymentAccepted(methods: seq<string>): string {
    Join(PaymentLabels(methods), ", ")
  }

  /** Adding a method appends its label after a comma. */
  lemma {:induction false} JoinAppend(parts: seq<string>, part: string, sep: string)
    requires |parts| > 0
    ensures Join(parts + [part], sep) == Join(parts, sep) + sep + part
  {
    if |parts| == 1 {
      assert (parts + [part])[1..] == [part];
    } else {
      assert (parts + [part])[0] == parts[0];
      assert (parts + [part])[1..] == parts[1..] + [part];
      JoinAppend(parts[1..], part, sep);
    }
  }

  lemma PaymentAcceptedAppend(methods: seq<string>, m: string)
    requires |methods| > 0
    ensures PaymentAccepted(methods + [m]) == PaymentAccepted(methods) + ", " + PaymentLabel(m)
  {
    assert PaymentLabels(methods + [m]) == PaymentLabels(methods) + [PaymentLabel(m)];
    JoinAppend(PaymentLabels(methods), PaymentLabel(m), ", ");
  }

  /** Both built-in providers enabled. */
  lemma StripeAndPaytrail()
    ensures PaymentAccepted(["stripe", "paytrail"]) == "Credit Card, Debit Card, Paytrail"
    ensures PaymentAccepted([]) == ""
  {
    PaymentAcceptedAppend(["stripe"], "paytrail");
    assert ["stripe"] + ["paytrail"] == ["stripe", "paytrail"];
  }

  /** `@id` */
  function StoreId(domain: string): string {
    domain + "/#store"
  }

  /** `LocalBusinessSchema`: `None` when the configuration cannot be read (the component renders
      nothing). `baseUrl` is the `NEXT_PUBLIC_BASE_URL` setting behind the fallback domain; the
      business type the component computes is never put into the object. */
  method BuildStore(config: Result<Config, Thrown>, baseUrl: Option<string>) returns (schema: Option<Store>)
    ensures schema.None? <==> config.Failure?
    ensures config.Success? ==>
      var c := config.value;
      var domain := GetSEOValue(c.seo.domain, DomainFallback(baseUrl));
      var logo := FullLogoUrl(GetSEOValue(c.store.logoUrl, LogoUrlFallback), domain);
      schema == Some(Store(
        StoreId(domain), c.store.name,
        GetSEOValue(c.seo.seoDescription, DescriptionFallback), domain, logo, logo,
        GetSEOValue(c.seo.priceRange, PriceRangeFallback),
        PaymentAccepted(c.paymentMethods),
        SameAsKey(FilterTruthy(SocialLinks(c.seo))),
        FoundingDate(c.seo.foundingDate)))
  {
    match config {
      case Failure(_) =>
        schema := None;
      case Success(c) =>
        var domain := GetSEOValue(c.seo.domain, DomainFallback(baseUrl));
        var logoUrl := GetSEOValue(c.store.logoUrl, LogoUrlFallback);
        var sameAs := BuildSameAs(c.seo);
        var fullLogoUrl := FullLogoUrl(logoUrl, domain);
        schema := Some(Store(
          StoreId(domain), c.store.name,
          GetSEOValue(c.seo.seoDescription, DescriptionFallback), domain, fullLogoUrl, fullLogoUrl,
          GetSEOValue(c.seo.priceRange, PriceRangeFallback),
            PaymentAccepted(c.paymentMethods),
          SameAsKey(sameAs),
          FoundingDate(c.seo.foundingDate)));
    }
  }

  /** With no social links configured the script has no `sameAs` key; with a configured
      Instagram link that link comes first. */
  lemma SameAsOrder(seo: SeoConfig)
    ensures (forall i :: 0 <= i < 6 ==> !Truthy(SocialLinks(seo)[i])) ==> SameAsKey(FilterTruthy(SocialLinks(seo))).None?
    ensures Truthy(seo.instagramUrl) ==> FilterTruthy(SocialLinks(seo))[0] == seo.instagramUrl.value
  {
    var list := FilterTruthy(SocialLinks(seo));
    if |list| > 0 {
      assert list[0] in list;
      FilterTruthyMembers(SocialLinks(seo), list[0]);
    }
  }
}
