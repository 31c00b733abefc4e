/**
  The pieces the Store and Organization structured-data scripts share: the `sameAs` list of
  social links, the absolute logo URL and the founding date.
*/
module SchemaParts {
  import opened Wrappers
  import opened Text
  import opened StoreConfig

  /** The social links in their fixed order: Instagram, Facebook, TikTok, YouTube, Pinterest,
      LinkedIn. */
  function SocialLinks(seo: SeoConfig): seq<Option<string>> {
    [seo.instagramUrl, seo.facebookUrl, seo.tiktokUrl, seo.youtubeUrl, seo.pinterestUrl, seo.linkedinUrl]
  }

  /** The truthy links, in order. */
  function FilterTruthy(links: seq<Option<string>>): (r: seq<string>)
    ensures |r| <= |links|
  {
    if links == [] then []
    else (if Truthy(links[0]) then [links[0].value] else []) + FilterTruthy(links[1..])
  }

  lemma {:induction false} FilterTruthyAppend(links: seq<Option<string>>, link: Option<string>)
    ensures FilterTruthy(links + [link]) == FilterTruthy(links) + (if Truthy(link) then [link.value] else [])
  {
    if links == [] {
      assert links + [link] == [link];
    } else {
      assert (links + [link])[0] == links[0];
      assert (links + [link])[1..] == links[1..] + [link];
      FilterTruthyAppend(links[1..], link);
    }
  }

  /** A string is listed exactly when it is one of the set, non-empty links. */
  lemma {:induction false} FilterTruthyMembers(links: seq<Option<string>>, s: string)
    ensures s in FilterTruthy(links) <==> s != "" && exists i :: 0 <= i < |links| && links[i] == Some(s)
  {
    if links != [] {
      FilterTruthyMembers(links[1..], s);
      if s != "" && exists i :: 0 <= i < |links| && links[i] == Some(s) {
        var i :| 0 <= i < |links| && links[i] == Some(s);
        if i > 0 {
          assert links[1..][i - 1] == Some(s);
        }
      }
      if exists i :: 0 <= i < |links[1..]| && links[1..][i] == Some(s) {
        var i :| 0 <= i < |links[1..]| && links[1..][i] == Some(s);
        assert links[i + 1] == Some(s);
      }
    }
  }

  /** The `sameAs` pushes. */
  method BuildSameAs(seo: SeoConfig) returns (sameAs: seq<string>)
    ensures sameAs == FilterTruthy(SocialLinks(seo))
  {
    var links := SocialLinks(seo);
    sameAs := [];
    for i := 0 to 6
      invariant sameAs == FilterTruthy(links[..i])
    {
      FilterTruthyAppend(links[..i], links[i]);
      assert links[..i + 1] == links[..i] + [links[i]];
      if Truthy(links[i]) {
        sameAs := sameAs + [links[i].value];
      }
    }
    assert links[..6] == links;
  }

  /** `...(sameAs.length > 0 && { sameAs })`: the key only for a non-empty list. */
  function SameAsKey(sameAs: seq<string>): (r: Option<seq<string>>)
    ensures r.Some? <==> |sameAs| > 0
    ensures r.Some? ==> r.value == sameAs
  {
    if |sameAs| > 0 then Some(sameAs) else None
  }

  /** A logo URL starting with "http" is kept; any other is taken relative to the domain. */
  function FullLogoUrl(logoUrl: string, domain: string): (r: string)
    ensures StartsWith(logoUrl, "http") ==> r == logoUrl
    ensures !StartsWith(logoUrl, "http") ==> r == domain + logoUrl
  {
    if StartsWith(logoUrl, "http") then logoUrl else domain + logoUrl
  }

  /** The logo URL always ends with the configured logo, and it is absolute whenever the domain
      is. */
  lemma FullLogoUrlRule(logoUrl: string, domain: string)
    ensures var r := FullLogoUrl(logoUrl, domain); |r| >= |logoUrl| && r[|r| - |logoUrl|..] == logoUrl
    ensures StartsWith(domain, "http") ==> StartsWith(FullLogoUrl(logoUrl, domain), "http")
  {
    var r := FullLogoUrl(logoUrl, domain);
    if !StartsWith(logoUrl, "http") {
      assert r[|r| - |logoUrl|..] == logoUrl;
      if StartsWith(domain, "http") {
        assert r[..4] == domain[..4];
      }
    }
  }

  /** `s.split("T")[0]`: the text before the first "T". */
  function BeforeT(s: string): (r: string)
    ensures |r| <= |s| && r == s[..|r|]
    ensures 'T' !in r
    ensures |r| < |s| ==> s[|r|] == 'T'
  {
    if s == [] || s[0] == 'T' then [] else [s[0]] + BeforeT(s[1..])
  }

  /** `...(foundingDate && { foundingDate: foundingDate.split("T")[0] })` */
  function FoundingDate(foundingDate: Option<string>): (r: Option<string>)
    ensures r.Some? <==> Truthy(foundingDate)
    ensures r.Some? ==> r.value == BeforeT(foundingDate.value)
  {
    if Truthy(foundingDate) then Some(BeforeT(foundingDate.value)) else None
  }

  lemma {:induction false} BeforeTSkips(a: string, b: string)
    requires 'T' !in a
    ensures BeforeT(a + b) == a + BeforeT(b)
  {
    if a != [] {
      assert (a + b)[0] == a[0] && (a + b)[1..] == a[1..] + b;
      BeforeTSkips(a[1..], b);
      assert [a[0]] + a[1..] == a;
    } else {
      assert a + b == b;
    }
  }

  /** An ISO timestamp keeps exactly its date. */
  lemma FoundingDateOfTimestamp(date: string, time: string)
    requires 'T' !in date && date != ""
    ensures FoundingDate(Some(date + "T" + time)) == Some(date)
  {
    assert date + "T" + time == date + ("T" + time);
    BeforeTSkips(date, "T" + time);
  }
}
