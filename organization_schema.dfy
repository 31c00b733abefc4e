/** The schema.org `Organization` description of the shop, from the store configuration. */
module OrganizationSchema {
  import opened Wrappers
  import opened Text
  import opened StorefrontTypes
  import opened StoreConfig
  import opened SchemaParts

  /** The fields of the `Organization` object that carry a rule. */
  datatype Organization = Organization(
    name: string,
    url: string,
    logo: string,
    description: string,
    country: string,
    email: string,
    sameAs: Option<seq<string>>,
    foundingDate: Option<string>)

  /** `OrganizationSchema`: `None` when the configuration cannot be read. `baseUrl` is the
      `NEXT_PUBLIC_BASE_URL` setting behind the fallback domain. */
  method BuildOrganization(config: Result<Config, Thrown>, baseUrl: Option<string>) returns (schema: Option<Organization>)
    ensures schema.None? <==> config.Failure?
    ensures config.Success? ==>
      var c := config.value;
      var domain := GetSEOValue(c.seo.domain, DomainFallback(baseUrl));
      schema == Some(Organization(
        c.store.name, domain, FullLogoUrl(GetSEOValue(c.store.logoUrl, LogoUrlFallback), domain),
        GetSEOValue(c.seo.seoDescription, DescriptionFallback), c.store.country, c.store.email,
        SameAsKey(FilterTruthy(SocialLinks(c.seo))), FoundingDate(c.seo.foundingDate)))
  {
    match config {
      case Failure(_) =>
        schema := None;
      case Success(c) =>
        var domain := GetSEOValue(c.seo.domain, DomainFallback(baseUrl));
        var logoUrl := GetSEOValue(c.store.logoUrl, LogoUrlFallback);
        var sameAs := BuildSameAs(c.seo);
        schema := Some(Organization(
          c.store.name, domain, FullLogoUrl(logoUrl, domain),
          GetSEOValue(c.seo.seoDescription, DescriptionFallback), c.store.country, c.store.email,
          SameAsKey(sameAs), FoundingDate(c.seo.foundingDate)));
    }
  }

  /** Without a configured logo the organization's logo is the default logo under the domain. */
  method DefaultLogo(c: Config, baseUrl: Option<string>) returns (logo: string)
    requires c.store.logoUrl.None?
    ensures logo == GetSEOValue(c.seo.domain, DomainFallback(baseUrl)) + "/logo.svg"
  {
    var schema := BuildOrganization(Success(c), baseUrl);
    logo := schema.value.logo;
    assert !StartsWith(LogoUrlFallback, "http") by {
      assert LogoUrlFallback[0] == '/';
    }
  }
}
