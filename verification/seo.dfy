/**
 * The head tags the `SEO` component of `src/components/SEO/SEO.js` renders.
 *
 * The component is a pure function of its props. The rendered `<Helmet>`
 * children are modelled as an ordered sequence of tags; the caller's extra
 * meta and link tags, spread from arbitrary attribute objects, are kept as
 * attribute maps in their own constructors, and the structured data as its
 * serialised JSON text.
 */
module Seo {
  import opened Common

  const DefaultTitle := "Sameh Shehata Abdelaziz | Data Scientist & BI Analyst Portfolio"
  const DefaultDescription := "Experienced Data Scientist & BI Analyst with 15+ years in transforming complex datasets into actionable business insights. Expert in Python, R, Power BI, AI/ML, and cloud analytics."
  const DefaultKeywords := "data scientist, business intelligence, data analyst, machine learning, AI, Power BI, Tableau, Python, R, SQL, analytics, big data, data visualization, predictive modeling"
  const DefaultAuthor := "Sameh Shehata Abdelaziz"
  const DefaultImage := "https://samehshi.github.io/portfolio/og-image.png"
  const DefaultUrl := "https://samehshi.github.io/portfolio/"
  const SiteName := "Sameh Shehata Portfolio"
  const TitleSeparator := " | "
  const NoIndexRobots := "noindex, nofollow"
  const IndexRobots := "index, follow"
  const IndexGooglebot := "index, follow, max-snippet:-1, max-image-preview:large, max-video-preview:-1"
  const PreviewSuffix := " - Preview Image"
  const TwitterHandle := "@sameh_shi"

  /**
   * The fixed texts the component falls back on and the crawler directives
   * it renders. The lemmas about the rendered tags hold for any texts;
   * `Portfolio` holds the ones the component declares.
   */
  datatype Texts = Texts(
    defaultTitle: string,
    defaultDescription: string,
    defaultKeywords: string,
    defaultAuthor: string,
    defaultImage: string,
    defaultUrl: string,
    siteName: string,
    noIndexRobots: string,
    indexRobots: string,
    indexGooglebot: string)

  const Portfolio := Texts(DefaultTitle, DefaultDescription, DefaultKeywords, DefaultAuthor, DefaultImage,
    DefaultUrl, SiteName, NoIndexRobots, IndexRobots, IndexGooglebot)

  /** The props; an absent optional prop is `None`. */
  datatype Props = Props(
    title: Option<string>,
    description: Option<string>,
    keywords: Option<string>,
    author: Option<string>,
    pageType: Option<string>,               // `type`; "website" when undefined
    image: Option<string>,
    url: Option<string>,
    articlePublishedTime: Option<string>,
    articleModifiedTime: Option<string>,
    articleAuthor: Option<string>,
    articleSection: Option<string>,
    articleTags: seq<string>,               // [] when undefined
    noIndex: bool,                          // false when undefined
    canonicalUrl: Option<string>,
    structuredData: Option<string>,         // the object, as its JSON text
    additionalMetaTags: seq<map<string, string>>,
    additionalLinkTags: seq<map<string, string>>)

  /** Which attribute of a `<meta>` names it. */
  datatype Attr = Name | Property | HttpEquiv

  /** The fixed names the component gives its own meta tags. */
  datatype Key =
    | Description | Keywords | Author | Robots | Googlebot
    | OgType | OgTitle | OgDescription | OgImage | OgUrl | OgSiteName | OgLocale
    | OgImageWidth | OgImageHeight | OgImageAlt
    | ArticlePublishedTime | ArticleModifiedTime | ArticleAuthor | ArticleSection | ArticleTag
    | TwitterCard | TwitterTitle | TwitterDescription | TwitterImage | TwitterUrl | TwitterCreator
    | TwitterSite | TwitterImageAlt
    | FormatDetection | MobileWebAppCapable | AppleMobileWebAppCapable | AppleMobileWebAppStatusBarStyle
    | AppleMobileWebAppTitle | ContentLanguage | Language | GeoRegion | GeoCountry

  /** The attribute value each key is rendered as; distinct keys render distinct names. */
  function KeyName(k: Key): string
  {
    match k {
      case Description => "description"
      case Keywords => "keywords"
      case Author => "author"
      case Robots => "robots"
      case Googlebot => "googlebot"
      case OgType => "og:type"
      case OgTitle => "og:title"
      case OgDescription => "og:description"
      case OgImage => "og:image"
      case OgUrl => "og:url"
      case OgSiteName => "og:site_name"
      case OgLocale => "og:locale"
      case OgImageWidth => "og:image:width"
      case OgImageHeight => "og:image:height"
      case OgImageAlt => "og:image:alt"
      case ArticlePublishedTime => "article:published_time"
      case ArticleModifiedTime => "article:modified_time"
      case ArticleAuthor => "article:author"
      case ArticleSection => "article:section"
      case ArticleTag => "article:tag"
      case TwitterCard => "twitter:card"
      case TwitterTitle => "twitter:title"
      case TwitterDescription => "twitter:description"
      case TwitterImage => "twitter:image"
      case TwitterUrl => "twitter:url"
      case TwitterCreator => "twitter:creator"
      case TwitterSite => "twitter:site"
      case TwitterImageAlt => "twitter:image:alt"
      case FormatDetection => "format-detection"
      case MobileWebAppCapable => "mobile-web-app-capable"
      case AppleMobileWebAppCapable => "apple-mobile-web-app-capable"
      case AppleMobileWebAppStatusBarStyle => "apple-mobile-web-app-status-bar-style"
      case AppleMobileWebAppTitle => "apple-mobile-web-app-title"
      case ContentLanguage => "content-language"
      case Language => "language"
      case GeoRegion => "geo.region"
      case GeoCountry => "geo.country"
    }
  }

  datatype Tag =
    | Title(text: string)
    | Meta(attr: Attr, key: Key, content: string)
    | Link(rel: string, href: string)
    | ExtraMeta(attributes: map<string, string>)
    | ExtraLink(attributes: map<string, string>)
    | JsonLd(json: string)

  /** `value || fallback` for an optional string prop. */
  function Or(value: Option<string>, fallback: string): (r: string)
    ensures Truthy(value) ==> r == value.value
    ensures !Truthy(value) ==> r == fallback
  {
    if Truthy(value) then value.value else fallback
  }

  function FinalTitle(p: Props, x: Texts): string { Or(p.title, x.defaultTitle) }
  function FinalDescription(p: Props, x: Texts): string { Or(p.description, x.defaultDescription) }
  function FinalKeywords(p: Props, x: Texts): string { Or(p.keywords, x.defaultKeywords) }
  function FinalAuthor(p: Props, x: Texts): string { Or(p.author, x.defaultAuthor) }
  function FinalImage(p: Props, x: Texts): string { Or(p.image, x.defaultImage) }
  function FinalUrl(p: Props, x: Texts): string { Or(p.url, x.defaultUrl) }

  /** The canonical link: `canonicalUrl`, else the page URL, else the site URL. */
  function CanonicalHref(p: Props, x: Texts): (r: string)
    ensures Truthy(p.canonicalUrl) ==> r == p.canonicalUrl.value
    ensures !Truthy(p.canonicalUrl) && Truthy(p.url) ==> r == p.url.value
    ensures !Truthy(p.canonicalUrl) && !Truthy(p.url) ==> r == x.defaultUrl
  {
    Or(p.canonicalUrl, FinalUrl(p, x))
  }

  /** The `type` prop with its default: only an undefined type becomes "website". */
  function PageType(p: Props): string
  {
    if p.pageType.Some? then p.pageType.value else "website"
  }

  predicate IsArticle(p: Props)
  {
    PageType(p) == "article"
  }

  /** The document title: a custom title is followed by the site name. */
  function PageTitle(p: Props, x: Texts): string
  {
    if Truthy(p.title) && p.title.value != x.defaultTitle then p.title.value + TitleSeparator + x.siteName
    else FinalTitle(p, x)
  }

  /** The default title does not end in the site name, so it is never mistaken for a composed one. */
  lemma DefaultTitleNotComposed(t: string)
    ensures DefaultTitle != t + TitleSeparator + SiteName
  {
    var composed := t + TitleSeparator + SiteName;
    if |composed| == |DefaultTitle| {
      var k := |DefaultTitle| - 17;
      assert composed[k] == SiteName[|SiteName| - 17] == 'S';
      assert DefaultTitle[k] == 'A';
    }
  }

  /** The page title carries the site name exactly for a truthy title other than the default. */
  lemma PageTitleComposed(p: Props)
    ensures (exists t :: PageTitle(p, Portfolio) == t + TitleSeparator + SiteName) <==>
      Truthy(p.title) && p.title.value != DefaultTitle
    ensures Truthy(p.title) && p.title.value != DefaultTitle ==>
      PageTitle(p, Portfolio) == p.title.value + TitleSeparator + SiteName
    ensures !(Truthy(p.title) && p.title.value != DefaultTitle) ==> PageTitle(p, Portfolio) == DefaultTitle
  {
    if Truthy(p.title) && p.title.value != DefaultTitle {
      assert PageTitle(p, Portfolio) == p.title.value + TitleSeparator + SiteName;
    } else {
      forall t
        ensures PageTitle(p, Portfolio) != t + TitleSeparator + SiteName
      {
        DefaultTitleNotComposed(t);
      }
    }
  }

  function RobotsDirective(noIndex: bool, x: Texts): string
  {
    if noIndex then x.noIndexRobots else x.indexRobots
  }

  function GooglebotDirective(noIndex: bool, x: Texts): string
  {
    if noIndex then x.noIndexRobots else x.indexGooglebot
  }

  /** Both crawler directives are the blocking one exactly when `noIndex` is set. */
  lemma CrawlerDirectives(noIndex: bool)
    ensures RobotsDirective(noIndex, Portfolio) == NoIndexRobots <==> noIndex
    ensures GooglebotDirective(noIndex, Portfolio) == NoIndexRobots <==> noIndex
    ensures !noIndex ==> StartsWith(RobotsDirective(noIndex, Portfolio), "index")
  {
    if !noIndex {
      assert IndexRobots[..5] == "index";
    }
  }

  /** A meta tag for an optional value, present only when the value is truthy. */
  function Optional(key: Key, value: Option<string>): seq<Tag>
  {
    if Truthy(value) then [Meta(Property, key, value.value)] else []
  }

  function ArticleTagMetas(tags: seq<string>): (r: seq<Tag>)
    ensures |r| == |tags|
    ensures forall k :: 0 <= k < |tags| ==> r[k] == Meta(Property, ArticleTag, tags[k])
  {
    seq(|tags|, k requires 0 <= k < |tags| => Meta(Property, ArticleTag, tags[k]))
  }

  /** The article block: rendered only for articles. */
  function ArticleTags(p: Props): seq<Tag>
  {
    if IsArticle(p) then
      Optional(ArticlePublishedTime, p.articlePublishedTime)
      + Optional(ArticleModifiedTime, p.articleModifiedTime)
      + Optional(ArticleAuthor, p.articleAuthor)
      + Optional(ArticleSection, p.articleSection)
      + ArticleTagMetas(p.articleTags)
    else []
  }

  function BasicTags(p: Props, x: Texts): seq<Tag>
  {
    [ Title(PageTitle(p, x)),
      Meta(Name, Description, FinalDescription(p, x)),
      Meta(Name, Keywords, FinalKeywords(p, x)),
      Meta(Name, Author, FinalAuthor(p, x)),
      Meta(Name, Robots, RobotsDirective(p.noIndex, x)),
      Meta(Name, Googlebot, GooglebotDirective(p.noIndex, x)),
      Link("canonical", CanonicalHref(p, x)) ]
  }

  function OpenGraphTags(p: Props, x: Texts): seq<Tag>
  {
    [ Meta(Property, OgType, PageType(p)),
      Meta(Property, OgTitle, FinalTitle(p, x)),
      Meta(Property, OgDescription, FinalDescription(p, x)),
      Meta(Property, OgImage, FinalImage(p, x)),
      Meta(Property, OgUrl, FinalUrl(p, x)),
      Meta(Property, OgSiteName, x.siteName),
      Meta(Property, OgLocale, "en_US") ]
    + (if FinalImage(p, x) != "" then
         [ Meta(Property, OgImageWidth, "1200"),
           Meta(Property, OgImageHeight, "630"),
           Meta(Property, OgImageAlt, FinalTitle(p, x) + PreviewSuffix) ]
       else [])
  }

  function TwitterTags(p: Props, x: Texts): seq<Tag>
  {
    [ Meta(Name, TwitterCard, "summary_large_image"),
      Meta(Name, TwitterTitle, FinalTitle(p, x)),
      Meta(Name, TwitterDescription, FinalDescription(p, x)),
      Meta(Name, TwitterImage, FinalImage(p, x)),
      Meta(Name, TwitterUrl, FinalUrl(p, x)),
      Meta(Name, TwitterCreator, TwitterHandle),
      Meta(Name, TwitterSite, TwitterHandle) ]
    + (if FinalImage(p, x) != "" then [Meta(Name, TwitterImageAlt, FinalTitle(p, x) + PreviewSuffix)] else [])
  }

  const FixedTags := [
    Meta(Name, FormatDetection, "telephone=no"),
    Meta(Name, MobileWebAppCapable, "yes"),
    Meta(Name, AppleMobileWebAppCapable, "yes"),
    Meta(Name, AppleMobileWebAppStatusBarStyle, "default"),
    Meta(Name, AppleMobileWebAppTitle, "Sameh Portfolio"),
    Meta(HttpEquiv, ContentLanguage, "en-US"),
    Meta(Name, Language, "English"),
    Meta(Name, GeoRegion, "EG"),
    Meta(Name, GeoCountry, "Egypt")]

  function ExtraTags(p: Props): seq<Tag>
  {
    seq(|p.additionalMetaTags|, k requires 0 <= k < |p.additionalMetaTags| => ExtraMeta(p.additionalMetaTags[k]))
    + seq(|p.additionalLinkTags|, k requires 0 <= k < |p.additionalLinkTags| => ExtraLink(p.additionalLinkTags[k]))
  }

  function StructuredData(p: Props): seq<Tag>
  {
    if p.structuredData.Some? then [JsonLd(p.structuredData.value)] else []
  }

  /** Everything the component renders, in document order. */
  function Tags(p: Props, x: Texts): seq<Tag>
  {
    BasicTags(p, x) + OpenGraphTags(p, x) + ArticleTags(p) + TwitterTags(p, x) + FixedTags + ExtraTags(p) + StructuredData(p)
  }

  /** The tags the component renders with the texts it declares. */
  function ComponentTags(p: Props): seq<Tag>
  {
    Tags(p, Portfolio)
  }

  /** Membership in the rendered list is membership in one of its blocks. */
  lemma InTags(p: Props, x: Texts, t: Tag)
    ensures t in Tags(p, x) <==> (t in BasicTags(p, x) || t in OpenGraphTags(p, x) || t in ArticleTags(p)
      || t in TwitterTags(p, x) || t in FixedTags || t in ExtraTags(p) || t in StructuredData(p))
  {
  }

  /** The component's own meta names, block by block of the rendered list. */
  const BasicKeys := {Description, Keywords, Author, Robots, Googlebot}
  const OpenGraphKeys := {OgType, OgTitle, OgDescription, OgImage, OgUrl, OgSiteName, OgLocale,
    OgImageWidth, OgImageHeight, OgImageAlt}
  const ArticleKeys := {ArticlePublishedTime, ArticleModifiedTime, ArticleAuthor, ArticleSection, ArticleTag}
  const TwitterKeys := {TwitterCard, TwitterTitle, TwitterDescription, TwitterImage, TwitterUrl,
    TwitterCreator, TwitterSite, TwitterImageAlt}
  const AdditionalKeys := {FormatDetection, MobileWebAppCapable, AppleMobileWebAppCapable,
    AppleMobileWebAppStatusBarStyle, AppleMobileWebAppTitle, ContentLanguage, Language, GeoRegion, GeoCountry}

  /** The basic block holds the title, the canonical link and the basic meta names. */
  lemma BasicShape(p: Props, x: Texts)
    ensures forall t :: t in BasicTags(p, x) ==>
      t.Title? || t.Link? || (t.Meta? && t.attr == Name && t.key in BasicKeys)
  {
  }

  /** The Open Graph block holds only Open Graph properties. */
  lemma OpenGraphShape(p: Props, x: Texts)
    ensures forall t :: t in OpenGraphTags(p, x) ==> t.Meta? && t.attr == Property && t.key in OpenGraphKeys
  {
  }

  /** The article block holds only article properties, and nothing off article pages. */
  lemma ArticleShape(p: Props)
    ensures forall t :: t in ArticleTags(p) ==> t.Meta? && t.attr == Property && t.key in ArticleKeys
    ensures !IsArticle(p) ==> ArticleTags(p) == []
  {
  }

  /** The Twitter block holds only Twitter card names. */
  lemma TwitterShape(p: Props, x: Texts)
    ensures forall t :: t in TwitterTags(p, x) ==> t.Meta? && t.attr == Name && t.key in TwitterKeys
  {
  }

  /** The fixed block holds only the additional meta names. */
  lemma FixedShape()
    ensures forall t :: t in FixedTags ==> t.Meta? && t.key in AdditionalKeys
  {
  }

  /** The caller's extra tags and the structured data are never the component's own tags. */
  lemma OtherShapes(p: Props)
    ensures forall t :: t in ExtraTags(p) ==> t.ExtraMeta? || t.ExtraLink?
    ensures forall t :: t in StructuredData(p) ==> t.JsonLd?
  {
    forall t | t in ExtraTags(p)
      ensures t.ExtraMeta? || t.ExtraLink?
    {
      var k :| 0 <= k < |ExtraTags(p)| && ExtraTags(p)[k] == t;
    }
  }

  /** Nothing outside the basic block's shape is in the basic block. */
  lemma NotBasic(p: Props, x: Texts, t: Tag)
    requires !(t.Title? || t.Link? || (t.Meta? && t.key in BasicKeys))
    ensures t !in BasicTags(p, x)
  {
    BasicShape(p, x);
  }

  /** A tag that is not an Open Graph property is not in the Open Graph block. */
  lemma NotOpenGraph(p: Props, x: Texts, t: Tag)
    requires !(t.Meta? && t.key in OpenGraphKeys)
    ensures t !in OpenGraphTags(p, x)
  {
    OpenGraphShape(p, x);
  }

  /** A tag that is not an article property is not in the article block. */
  lemma NotArticle(p: Props, t: Tag)
    requires !(t.Meta? && t.key in ArticleKeys)
    ensures t !in ArticleTags(p)
  {
    ArticleShape(p);
  }

  /** A tag that is not a Twitter card name is not in the Twitter block. */
  lemma NotTwitter(p: Props, x: Texts, t: Tag)
    requires !(t.Meta? && t.key in TwitterKeys)
    ensures t !in TwitterTags(p, x)
  {
    TwitterShape(p, x);
  }

  /** Only the additional meta names are in the fixed block. */
  lemma NotFixed(t: Tag)
    requires !(t.Meta? && t.key in AdditionalKeys)
    ensures t !in FixedTags
  {
    FixedShape();
  }

  /** A tag of the component's own is neither one of the caller's extra tags nor the JSON-LD script. */
  lemma NotOther(p: Props, t: Tag)
    requires t.Meta? || t.Title? || t.Link?
    ensures t !in ExtraTags(p) && t !in StructuredData(p)
  {
    OtherShapes(p);
  }

  /** A title, a link or a meta name of no other block is rendered, if at all, in the basic block. */
  lemma InBasic(p: Props, x: Texts, t: Tag)
    requires t.Title? || t.Link? ||
      (t.Meta? && t.key !in OpenGraphKeys && t.key !in ArticleKeys && t.key !in TwitterKeys && t.key !in AdditionalKeys)
    ensures t in Tags(p, x) <==> t in BasicTags(p, x)
  {
    InTags(p, x, t);
    NotOpenGraph(p, x, t);
    NotArticle(p, t);
    NotTwitter(p, x, t);
    NotFixed(t);
    NotOther(p, t);
  }

  /** A meta name of no other block is rendered, if at all, in the Open Graph block. */
  lemma InOpenGraph(p: Props, x: Texts, t: Tag)
    requires t.Meta? && t.key !in BasicKeys && t.key !in ArticleKeys && t.key !in TwitterKeys && t.key !in AdditionalKeys
    ensures t in Tags(p, x) <==> t in OpenGraphTags(p, x)
  {
    InTags(p, x, t);
    NotBasic(p, x, t);
    NotArticle(p, t);
    NotTwitter(p, x, t);
    NotFixed(t);
    NotOther(p, t);
  }

  /** A meta name of no other block is rendered, if at all, in the article block. */
  lemma InArticle(p: Props, x: Texts, t: Tag)
    requires t.Meta? && t.key !in BasicKeys && t.key !in OpenGraphKeys && t.key !in TwitterKeys && t.key !in AdditionalKeys
    ensures t in Tags(p, x) <==> t in ArticleTags(p)
  {
    InTags(p, x, t);
    NotBasic(p, x, t);
    NotOpenGraph(p, x, t);
    NotTwitter(p, x, t);
    NotFixed(t);
    NotOther(p, t);
  }

  /** A meta name of no other block is rendered, if at all, in the Twitter block. */
  lemma InTwitter(p: Props, x: Texts, t: Tag)
    requires t.Meta? && t.key !in BasicKeys && t.key !in OpenGraphKeys && t.key !in ArticleKeys && t.key !in AdditionalKeys
    ensures t in Tags(p, x) <==> t in TwitterTags(p, x)
  {
    InTags(p, x, t);
    NotBasic(p, x, t);
    NotOpenGraph(p, x, t);
    NotArticle(p, t);
    NotFixed(t);
    NotOther(p, t);
  }

  /** The title tag is the page title, and the component writes no other. */
  lemma TitleTag(p: Props, x: Texts, text: string)
    ensures Title(text) in Tags(p, x) <==> text == PageTitle(p, x)
  {
    var t := Title(text);
    InBasic(p, x, t);
  }

  /** The description meta tag carries the prop or its default, and the component writes no other. */
  lemma DescriptionTag(p: Props, x: Texts, content: string)
    ensures Meta(Name, Description, content) in Tags(p, x) <==> content == FinalDescription(p, x)
  {
    var t := Meta(Name, Description, content);
    InBasic(p, x, t);
  }

  /** The keywords meta tag carries the prop or its default, and the component writes no other. */
  lemma KeywordsTag(p: Props, x: Texts, content: string)
    ensures Meta(Name, Keywords, content) in Tags(p, x) <==> content == FinalKeywords(p, x)
  {
    var t := Meta(Name, Keywords, content);
    InBasic(p, x, t);
  }

  /** The author meta tag carries the prop or its default, and the component writes no other. */
  lemma AuthorTag(p: Props, x: Texts, content: string)
    ensures Meta(Name, Author, content) in Tags(p, x) <==> content == FinalAuthor(p, x)
  {
    var t := Meta(Name, Author, content);
    InBasic(p, x, t);
  }

  /** `og:type` carries the `type` prop, "website" when it is not given. */
  lemma OpenGraphTypeTag(p: Props, x: Texts, content: string)
    ensures Meta(Property, OgType, content) in Tags(p, x) <==>
      content == (if p.pageType.Some? then p.pageType.value else "website")
  {
    var t := Meta(Property, OgType, content);
    InOpenGraph(p, x, t);
  }

  /** The robots meta tag carries the directive chosen by `noIndex`, and the component writes no other. */
  lemma RobotsTag(p: Props, x: Texts, content: string)
    ensures Meta(Name, Robots, content) in Tags(p, x) <==> content == RobotsDirective(p.noIndex, x)
  {
    var t := Meta(Name, Robots, content);
    InBasic(p, x, t);
  }

  /** The googlebot meta tag carries the directive chosen by `noIndex`, and the component writes no other. */
  lemma GooglebotTag(p: Props, x: Texts, content: string)
    ensures Meta(Name, Googlebot, content) in Tags(p, x) <==> content == GooglebotDirective(p.noIndex, x)
  {
    var t := Meta(Name, Googlebot, content);
    InBasic(p, x, t);
  }

  /** The canonical link points at `CanonicalHref`, and the component writes no other canonical link. */
  lemma CanonicalTag(p: Props, x: Texts, href: string)
    ensures Link("canonical", href) in Tags(p, x) <==> href == CanonicalHref(p, x)
  {
    var t := Link("canonical", href);
    InBasic(p, x, t);
  }

  /** The Open Graph title carries the final title, not the composed page title. */
  lemma OpenGraphTitleTag(p: Props, x: Texts, content: string)
    ensures Meta(Property, OgTitle, content) in Tags(p, x) <==> content == FinalTitle(p, x)
  {
    var t := Meta(Property, OgTitle, content);
    InOpenGraph(p, x, t);
  }

  /** The Twitter title carries the final title, not the composed page title. */
  lemma TwitterTitleTag(p: Props, x: Texts, content: string)
    ensures Meta(Name, TwitterTitle, content) in Tags(p, x) <==> content == FinalTitle(p, x)
  {
    var t := Meta(Name, TwitterTitle, content);
    InTwitter(p, x, t);
  }

  /**
   * With a non-empty default image (as `Portfolio` has) the final image is
   * never empty, so the Open Graph block ends with the image details.
   */
  lemma OpenGraphImage(p: Props, x: Texts)
    requires x.defaultImage != ""
    ensures OpenGraphTags(p, x)[7..] == [Meta(Property, OgImageWidth, "1200"), Meta(Property, OgImageHeight, "630"),
      Meta(Property, OgImageAlt, FinalTitle(p, x) + PreviewSuffix)]
  {
  }

  /** Each of the Open Graph image details is rendered. */
  lemma OpenGraphDetail(p: Props, x: Texts, i: int)
    requires x.defaultImage != "" && 7 <= i < 10
    ensures OpenGraphTags(p, x)[i] in Tags(p, x)
  {
    OpenGraphImage(p, x);
    InOpenGraph(p, x, OpenGraphTags(p, x)[i]);
  }

  /** The Open Graph image details are therefore always rendered. */
  lemma ImageDetails(p: Props, x: Texts)
    requires x.defaultImage != ""
    ensures Meta(Property, OgImageWidth, "1200") in Tags(p, x)
    ensures Meta(Property, OgImageHeight, "630") in Tags(p, x)
    ensures Meta(Property, OgImageAlt, FinalTitle(p, x) + PreviewSuffix) in Tags(p, x)
  {
    OpenGraphImage(p, x);
    OpenGraphDetail(p, x, 7);
    OpenGraphDetail(p, x, 8);
    OpenGraphDetail(p, x, 9);
  }

  /** Likewise the Twitter image alt text is always rendered. */
  lemma TwitterImageAltTag(p: Props, x: Texts)
    requires x.defaultImage != ""
    ensures Meta(Name, TwitterImageAlt, FinalTitle(p, x) + PreviewSuffix) in Tags(p, x)
  {
    var t := Meta(Name, TwitterImageAlt, FinalTitle(p, x) + PreviewSuffix);
    assert TwitterTags(p, x)[7] == t;
    InTwitter(p, x, t);
  }

  /** The article author is rendered exactly for a truthy value on an article page. */
  lemma ArticleAuthorTag(p: Props, x: Texts, content: string)
    ensures Meta(Property, ArticleAuthor, content) in Tags(p, x) <==>
      IsArticle(p) && Truthy(p.articleAuthor) && content == p.articleAuthor.value
  {
    var t := Meta(Property, ArticleAuthor, content);
    InArticle(p, x, t);
    ArticleBlock(p, t);
  }

  /** The publication time is rendered exactly for a truthy value on an article page. */
  lemma ArticlePublishedTag(p: Props, x: Texts, content: string)
    ensures Meta(Property, ArticlePublishedTime, content) in Tags(p, x) <==>
      IsArticle(p) && Truthy(p.articlePublishedTime) && content == p.articlePublishedTime.value
  {
    var t := Meta(Property, ArticlePublishedTime, content);
    InArticle(p, x, t);
    ArticleBlock(p, t);
  }

  /** Membership in the article block, field by field. */
  lemma ArticleBlock(p: Props, t: Tag)
    ensures t in ArticleTags(p) <==> (IsArticle(p) &&
      (t in Optional(ArticlePublishedTime, p.articlePublishedTime)
       || t in Optional(ArticleModifiedTime, p.articleModifiedTime)
       || t in Optional(ArticleAuthor, p.articleAuthor)
       || t in Optional(ArticleSection, p.articleSection)
       || t in ArticleTagMetas(p.articleTags)))
  {
  }

  /** Article tags are rendered, one per tag, exactly on article pages. */
  lemma ArticleTagTags(p: Props, x: Texts, tag: string)
    ensures Meta(Property, ArticleTag, tag) in Tags(p, x) <==> IsArticle(p) && tag in p.articleTags
  {
    var t := Meta(Property, ArticleTag, tag);
    InArticle(p, x, t);
    ArticleBlock(p, t);
    if tag in p.articleTags {
      var k :| 0 <= k < |p.articleTags| && p.articleTags[k] == tag;
      assert ArticleTagMetas(p.articleTags)[k] == t;
    }
    if t in ArticleTagMetas(p.articleTags) {
      var k :| 0 <= k < |p.articleTags| && ArticleTagMetas(p.articleTags)[k] == t;
    }
  }

  /** Regrouping the seven blocks around the article tags. */
  lemma Regroup(b: seq<Tag>, o: seq<Tag>, fields: seq<Tag>, metas: seq<Tag>, w: seq<Tag>, f: seq<Tag>,
                e: seq<Tag>, s: seq<Tag>)
    ensures b + o + (fields + metas) + w + f + e + s == (b + o + fields) + metas + (w + f + e + s)
  {
  }

  /** On an article page the article tags appear contiguously and in the order given. */
  lemma ArticleTagsInOrder(p: Props, x: Texts)
    requires IsArticle(p)
    ensures exists before, after :: Tags(p, x) == before + ArticleTagMetas(p.articleTags) + after
  {
    var fields := Optional(ArticlePublishedTime, p.articlePublishedTime)
      + Optional(ArticleModifiedTime, p.articleModifiedTime)
      + Optional(ArticleAuthor, p.articleAuthor)
      + Optional(ArticleSection, p.articleSection);
    var metas := ArticleTagMetas(p.articleTags);
    assert ArticleTags(p) == fields + metas;
    Regroup(BasicTags(p, x), OpenGraphTags(p, x), fields, metas, TwitterTags(p, x), FixedTags, ExtraTags(p),
      StructuredData(p));
    var before := BasicTags(p, x) + OpenGraphTags(p, x) + fields;
    var after := TwitterTags(p, x) + FixedTags + ExtraTags(p) + StructuredData(p);
    assert Tags(p, x) == before + metas + after;
  }

  /** The JSON-LD script is rendered exactly when structured data is given. */
  lemma StructuredDataTag(p: Props, x: Texts, json: string)
    ensures JsonLd(json) in Tags(p, x) <==> p.structuredData == Some(json)
  {
    var t := JsonLd(json);
    InTags(p, x, t);
    NotBasic(p, x, t);
    NotOpenGraph(p, x, t);
    NotArticle(p, t);
    NotTwitter(p, x, t);
    NotFixed(t);
    OtherShapes(p);
  }
}
