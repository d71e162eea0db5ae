/**
 * The SEO and structured-data builders of lib/seo.ts. Each builder reads the
 * site's base URL from the `NEXT_PUBLIC_SITE_URL` environment variable, here
 * the parameter `siteUrlEnv`, and falls back to the deployed URL.
 */
module Seo {
  import opened Optional

  const DefaultSiteUrl: string := "https://digital-services-showcase.vercel.app"
  const SiteName: string := "Digital Services Showcase"
  const SchemaContext: string := "https://schema.org"
  const ImageQuery: string := "?w=1200&h=630&fit=crop&auto=format,compress"
  const OgImageWidth: int := 1200
  const OgImageHeight: int := 630

  /** `process.env.NEXT_PUBLIC_SITE_URL || DefaultSiteUrl`: an unset or empty variable gives the default. */
  function BaseUrl(siteUrlEnv: Option<string>): (r: string)
    ensures r != ""
    ensures Truthy(siteUrlEnv) ==> r == siteUrlEnv.value
    ensures !Truthy(siteUrlEnv) ==> r == DefaultSiteUrl
  {
    if Truthy(siteUrlEnv) then siteUrlEnv.value else DefaultSiteUrl
  }

  // ---------------------------------------------------------------------------
  // generateMetadata
  // ---------------------------------------------------------------------------

  datatype OgType = Website | Article

  /** The `SEOMetadata` input. */
  datatype SeoInput = SeoInput(
    title: string,
    description: string,
    keywords: Option<seq<string>>,
    canonical: Option<string>,
    ogImage: Option<string>,
    ogType: Option<OgType>,
    publishedTime: Option<string>,
    modifiedTime: Option<string>,
    author: Option<string>)

  datatype OgImage = OgImage(url: string, width: int, height: int, alt: string)

  datatype OpenGraph = OpenGraph(
    title: string,
    description: string,
    url: string,
    siteName: string,
    images: seq<OgImage>,
    locale: string,
    ogType: OgType)

  datatype Twitter = Twitter(card: string, title: string, description: string, images: seq<string>)

  /** The page metadata record; `canonical` is `alternates.canonical`. */
  datatype PageMetadata = PageMetadata(
    title: string,
    description: string,
    keywords: Option<seq<string>>,
    openGraph: OpenGraph,
    twitter: Twitter,
    canonical: string)

  /** The page's absolute URL: the base URL followed by the canonical path when one is given. */
  function PageUrl(base: string, canonical: Option<string>): (r: string)
    ensures base <= r
    ensures !Truthy(canonical) ==> r == base
    ensures Truthy(canonical) ==> r[|base|..] == canonical.value
  {
    if Truthy(canonical) then base + canonical.value else base
  }

  function GenerateMetadata(data: SeoInput, siteUrlEnv: Option<string>): (m: PageMetadata)
    // title and description copied unchanged to the page, Open Graph and Twitter
    ensures m.title == m.openGraph.title == m.twitter.title == data.title
    ensures m.description == m.openGraph.description == m.twitter.description == data.description
    ensures m.keywords == data.keywords
    // one URL for the page, used by Open Graph and as the canonical link
    ensures m.openGraph.url == m.canonical == PageUrl(BaseUrl(siteUrlEnv), data.canonical)
    // images: none without an ogImage, else the same single resized URL on both cards
    ensures |m.openGraph.images| == |m.twitter.images| <= 1
    ensures |m.openGraph.images| == 1 <==> Truthy(data.ogImage)
    ensures |m.openGraph.images| == 1 ==>
      && m.openGraph.images[0] == OgImage(data.ogImage.value + ImageQuery, OgImageWidth, OgImageHeight, data.title)
      && m.twitter.images[0] == m.openGraph.images[0].url
    ensures m.openGraph.ogType == (if data.ogType.Some? then data.ogType.value else Website)
    ensures m.openGraph.siteName == SiteName && m.openGraph.locale == "en_US"
    ensures m.twitter.card == "summary_large_image"
  {
    var base := BaseUrl(siteUrlEnv);
    var url := PageUrl(base, data.canonical);
    var imageUrl := if Truthy(data.ogImage) then [data.ogImage.value + ImageQuery] else [];
    PageMetadata(
      data.title,
      data.description,
      data.keywords,
      OpenGraph(
        data.title,
        data.description,
        url,
        SiteName,
        if Truthy(data.ogImage) then [OgImage(imageUrl[0], OgImageWidth, OgImageHeight, data.title)] else [],
        "en_US",
        match data.ogType case Some(t) => t case None => Website),
      Twitter("summary_large_image", data.title, data.description, imageUrl),
      url)
  }

  // ---------------------------------------------------------------------------
  // Schema.org records
  // ---------------------------------------------------------------------------

  /** An `Organization` reference; the author of a case study carries no URL. */
  datatype OrganizationRef = OrganizationRef(name: string, url: Option<string>)

  /** The fields of a service record the schema reads; `startingPrice` is free text such as "From $1,500". */
  datatype Service = Service(slug: string, serviceName: string, shortDescription: string, startingPrice: Option<string>)

  datatype Offer = Offer(price: string, priceCurrency: string)

  /** A schema.org `Service`. */
  datatype ServiceSchema = ServiceSchema(
    context: string,
    name: string,
    description: string,
    provider: OrganizationRef,
    offers: Option<Offer>,
    url: string)

  /** The characters the price filter keeps: ASCII digits, `.` and `,`. */
  predicate IsPriceChar(c: char)
  {
    '0' <= c <= '9' || c == '.' || c == ','
  }

  /** `s.replace(/[^0-9.,]/g, '')`. */
  function PriceDigits(s: string): (r: string)
    ensures |r| <= |s|
    ensures forall i :: 0 <= i < |r| ==> IsPriceChar(r[i])
    ensures forall c :: c in r <==> c in s && IsPriceChar(c)
  {
    if |s| == 0 then ""
    else if IsPriceChar(s[0]) then [s[0]] + PriceDigits(s[1..])
    else PriceDigits(s[1..])
  }

  function GenerateServiceSchema(service: Service, siteUrlEnv: Option<string>): (r: ServiceSchema)
    ensures r.context == SchemaContext
    ensures r.name == service.serviceName && r.description == service.shortDescription
    ensures r.provider == OrganizationRef(SiteName, Some(BaseUrl(siteUrlEnv)))
    ensures r.offers.None? <==> !Truthy(service.startingPrice)
    ensures r.offers.Some? ==>
      r.offers.value == Offer(PriceDigits(service.startingPrice.value), "USD")
    ensures r.url == BaseUrl(siteUrlEnv) + "/services/" + service.slug
  {
    var base := BaseUrl(siteUrlEnv);
    ServiceSchema(
      SchemaContext,
      service.serviceName,
      service.shortDescription,
      OrganizationRef(SiteName, Some(base)),
      if Truthy(service.startingPrice) then Some(Offer(PriceDigits(service.startingPrice.value), "USD")) else None,
      base + "/services/" + service.slug)
  }

  /** The fields of a case-study record the schema reads; `featuredImage` is the image's imgix URL when there is an image. */
  datatype CaseStudy = CaseStudy(
    slug: string,
    projectName: string,
    projectSummary: string,
    featuredImage: Option<string>,
    createdAt: string,
    modifiedAt: string)

  /** A schema.org `Article`; `pageId` is `mainEntityOfPage['@id']`. */
  datatype CaseStudySchema = CaseStudySchema(
    context: string,
    headline: string,
    description: string,
    image: Option<string>,
    datePublished: string,
    dateModified: string,
    author: OrganizationRef,
    publisher: OrganizationRef,
    pageId: string)

  function GenerateCaseStudySchema(caseStudy: CaseStudy, siteUrlEnv: Option<string>): (r: CaseStudySchema)
    ensures r.context == SchemaContext
    ensures r.headline == caseStudy.projectName && r.description == caseStudy.projectSummary
    ensures r.image.None? <==> caseStudy.featuredImage.None?
    ensures r.image.Some? ==> r.image.value == caseStudy.featuredImage.value + ImageQuery
    ensures r.datePublished == caseStudy.createdAt && r.dateModified == caseStudy.modifiedAt
    ensures r.author == OrganizationRef(SiteName, None)
    ensures r.publisher == OrganizationRef(SiteName, Some(BaseUrl(siteUrlEnv)))
    ensures r.pageId == BaseUrl(siteUrlEnv) + "/case-studies/" + caseStudy.slug
  {
    var base := BaseUrl(siteUrlEnv);
    CaseStudySchema(
      SchemaContext,
      caseStudy.projectName,
      caseStudy.projectSummary,
      match caseStudy.featuredImage case Some(u) => Some(u + ImageQuery) case None => None,
      caseStudy.createdAt,
      caseStudy.modifiedAt,
      OrganizationRef(SiteName, None),
      OrganizationRef(SiteName, Some(base)),
      base + "/case-studies/" + caseStudy.slug)
  }

  /** A schema.org `Organization` with a US postal address and an English customer-service contact point. */
  datatype OrganizationSchema = OrganizationSchema(
    context: string,
    name: string,
    url: string,
    description: string,
    addressCountry: string,
    contactType: string,
    availableLanguage: string)

  function GenerateOrganizationSchema(siteUrlEnv: Option<string>): (r: OrganizationSchema)
    ensures r.url == BaseUrl(siteUrlEnv)
    ensures r.context == SchemaContext && r.name == SiteName
    ensures r.description == "Professional digital services for modern businesses"
    ensures r.addressCountry == "US" && r.contactType == "Customer Service" && r.availableLanguage == "English"
  {
    OrganizationSchema(SchemaContext, SiteName, BaseUrl(siteUrlEnv),
      "Professional digital services for modern businesses", "US", "Customer Service", "English")
  }

  // ---------------------------------------------------------------------------
  // generateBreadcrumbSchema
  // ---------------------------------------------------------------------------

  datatype Crumb = Crumb(name: string, url: string)
  datatype ListItem = ListItem(position: int, name: string, item: string)
  datatype BreadcrumbSchema = BreadcrumbSchema(context: string, items: seq<ListItem>)

  /** `items.map((item, index) => ...)`: the crumbs numbered from 1, each URL made absolute. */
  function ListItems(crumbs: seq<Crumb>, base: string): (r: seq<ListItem>)
    ensures |r| == |crumbs|
    ensures forall i :: 0 <= i < |r| ==> r[i] == ListItem(i + 1, crumbs[i].name, base + crumbs[i].url)
  {
    if |crumbs| == 0 then []
    else
      var last := crumbs[|crumbs| - 1];
      ListItems(crumbs[..|crumbs| - 1], base) + [ListItem(|crumbs|, last.name, base + last.url)]
  }

  function GenerateBreadcrumbSchema(crumbs: seq<Crumb>, siteUrlEnv: Option<string>): (r: BreadcrumbSchema)
    ensures r.context == SchemaContext
    ensures |r.items| == |crumbs|
    ensures forall i :: 0 <= i < |r.items| ==>
      && r.items[i].position == i + 1
      && r.items[i].name == crumbs[i].name
      && r.items[i].item == BaseUrl(siteUrlEnv) + crumbs[i].url
  {
    BreadcrumbSchema(SchemaContext, ListItems(crumbs, BaseUrl(siteUrlEnv)))
  }

  // ---------------------------------------------------------------------------
  // Properties across the builders
  // ---------------------------------------------------------------------------

  /** The price filter is idempotent: a filtered price passes through it unchanged. */
  lemma {:induction false} PriceDigitsIdempotent(s: string)
    ensures PriceDigits(PriceDigits(s)) == PriceDigits(s)
  {
    PriceDigitsKeepsClean(PriceDigits(s));
  }

  /** A string of digits, dots and commas only is left as it is. */
  lemma {:induction false} PriceDigitsKeepsClean(s: string)
    requires forall i :: 0 <= i < |s| ==> IsPriceChar(s[i])
    ensures PriceDigits(s) == s
  {
    if |s| > 0 {
      PriceDigitsKeepsClean(s[1..]);
      assert s == [s[0]] + s[1..];
    }
  }

  /** The filter works character by character: filtering a concatenation concatenates the filtered parts. */
  lemma {:induction false} PriceDigitsConcat(a: string, b: string)
    ensures PriceDigits(a + b) == PriceDigits(a) + PriceDigits(b)
  {
    if |a| == 0 {
      assert a + b == b;
    } else {
      assert (a + b)[1..] == a[1..] + b;
      PriceDigitsConcat(a[1..], b);
    }
  }

  /** Breadcrumb positions are consecutive: each is one more than the one before. */
  lemma BreadcrumbPositionsConsecutive(crumbs: seq<Crumb>, siteUrlEnv: Option<string>)
    ensures var items := GenerateBreadcrumbSchema(crumbs, siteUrlEnv).items;
      && (|items| > 0 ==> items[0].position == 1)
      && forall i :: 0 < i < |items| ==> items[i].position == items[i - 1].position + 1
  {
  }

  /**
   * Every page URL the builders emit starts with the same base URL: the canonical
   * (and Open Graph) URL, the service URL, the case-study `@id`, the organization
   * URL and each breadcrumb item. Image URLs are not page URLs and need not.
   */
  lemma UrlsShareBase(data: SeoInput, service: Service, caseStudy: CaseStudy, crumbs: seq<Crumb>, siteUrlEnv: Option<string>)
    ensures var base := BaseUrl(siteUrlEnv);
      && base <= GenerateMetadata(data, siteUrlEnv).canonical
      && base <= GenerateServiceSchema(service, siteUrlEnv).url
      && base <= GenerateCaseStudySchema(caseStudy, siteUrlEnv).pageId
      && base == GenerateOrganizationSchema(siteUrlEnv).url
      && forall i :: 0 <= i < |crumbs| ==> base <= GenerateBreadcrumbSchema(crumbs, siteUrlEnv).items[i].item
  {
  }
}
