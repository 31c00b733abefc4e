/** The store configuration the SEO components read, its fallbacks, and `getSEOValue`. */
module StoreConfig {
  import opened Wrappers
  import opened Text

  /** The SEO part of the configuration; absent settings are `None`. */
  datatype SeoConfig = SeoConfig(
    domain: Option<string>,
    seoDescription: Option<string>,
    priceRange: Option<string>,
    businessType: Option<string>,
    instagramUrl: Option<string>,
    facebookUrl: Option<string>,
    tiktokUrl: Option<string>,
    youtubeUrl: Option<string>,
    pinterestUrl: Option<string>,
    linkedinUrl: Option<string>,
    foundingDate: Option<string>)

  /** The store part of the configuration. */
  datatype StoreInfo = StoreInfo(
    name: string,
    logoUrl: Option<string>,
    city: string,
    country: string,
    currency: string,
    email: string)

  /** `StoreConfig`: SEO settings, store details and the enabled payment methods. */
  datatype Config = Config(seo: SeoConfig, store: StoreInfo, paymentMethods: seq<string>)

  /** `getSEOValue(value, fallback)`, that is `value ?? fallback`. */
  function GetSEOValue<T>(value: Option<T>, fallback: T): (r: T)
    ensures value.Some? ==> r == value.value
    ensures value.None? ==> r == fallback
  {
    match value
    case Some(v) => v
    case None => fallback
  }

  /** The fallback is used exactly when the value is absent, so applying the helper to its own
      result changes nothing. */
  lemma GetSEOValueRule<T>(value: Option<T>, fallback: T)
    ensures value.Some? && value.value != fallback ==> GetSEOValue(value, fallback) != fallback
    ensures GetSEOValue(Some(GetSEOValue(value, fallback)), fallback) == GetSEOValue(value, fallback)
  {
  }

  /** Unlike `||`, an empty string set in the configuration is kept. */
  lemma GetSEOValueKeepsEmpty(fallback: string)
    requires fallback != ""
    ensures GetSEOValue(Some(""), fallback) == ""
    ensures OrElse(Some(""), fallback) == fallback
  {
  }

  /** `SEO_FALLBACKS` */
  const TitleFallback := "Verkkokauppa"
  const DescriptionFallback := "Laadukkaat tuotteet verkossa - löydä suosikkisi helposti"
  const StoreNameFallback := "Verkkokauppa"
  const CityFallback := "Helsinki"
  const CountryFallback := "FI"
  const PriceRangeFallback := "€€"
  const BusinessTypeFallback := "Verkkokauppa"
  const LogoUrlFallback := "/logo.svg"
  const OpenGraphImageFallback := "/og-image.jpg"
  const TwitterImageFallback := "/twitter-image.jpg"
  const DefaultDomain := "https://example.com"

  /** `SEO_FALLBACKS.domain`: the base-URL setting, or the example domain when it is unset or
      empty. */
  function DomainFallback(baseUrl: Option<string>): (r: string)
    ensures Truthy(baseUrl) ==> r == baseUrl.value
    ensures !Truthy(baseUrl) ==> r == DefaultDomain
    ensures r != ""
  {
    OrElse(baseUrl, DefaultDomain)
  }
}
