/**
  * Page `<head>` metadata: the per-page builder merges the configured defaults with an
  * optional stored entry field by field, and the post builder picks a post's own SEO
  * fields with fallbacks to its title and excerpt.
  */
module SeoMetadata {
  import opened Wrappers
  import opened Text
  import SeoPages
  import opened SeoStore

  const DefaultTitle: string := "Bright Leasing | Novated Leasing Made Easy"
  const DefaultDescription: string := "The smartest way to own and run a car. Novated leasing made easy \U{2014} save money, skip the hassle, and enjoy the car you really want."
  const DefaultKeywords: string := "novated leasing, salary packaging, car leasing, vehicle finance, Bright Leasing"
  const FallbackBaseUrl: string := "https://brightleasing.com.au"

  datatype Alternates = Alternates(canonical: string)

  datatype OpenGraph = OpenGraph(
    title: string,
    description: string,
    url: string,
    kind: string,
    images: Option<seq<string>>)

  datatype Twitter = Twitter(
    card: string,
    title: string,
    description: string,
    images: Option<seq<string>>)

  /** The metadata object, without its constant `robots` block. */
  datatype Metadata = Metadata(
    title: string,
    description: string,
    keywords: Option<seq<string>>,
    alternates: Alternates,
    openGraph: OpenGraph,
    twitter: Twitter)

  /** The caller's `overrides`: `Some` for every key the object has. */
  datatype Overrides = Overrides(
    title: Option<string>,
    description: Option<string>,
    keywords: Option<Option<seq<string>>>,
    alternates: Option<Alternates>,
    openGraph: Option<OpenGraph>,
    twitter: Option<Twitter>)

  const NoOverrides := Overrides(None, None, None, None, None, None)

  /** `process.env.NEXT_PUBLIC_BASE_URL || "https://brightleasing.com.au"` */
  function BaseUrl(env: Option<string>): (r: string)
    ensures r != ""
  {
    if env.Some? && env.value != "" then env.value else FallbackBaseUrl
  }

  /** `a || b` for an optional string: an absent or empty `a` gives `b`. */
  function OrElse(a: Option<string>, b: string): string {
    if a.Some? && a.value != "" then a.value else b
  }

  /** `parts.map((k) => k.trim())` */
  function TrimAll(parts: seq<string>): (r: seq<string>)
    ensures |r| == |parts|
  {
    seq(|parts|, i requires 0 <= i < |parts| => Trim(parts[i]))
  }

  /** `keywords ? keywords.split(",").map((k) => k.trim()) : undefined` */
  function KeywordList(keywords: Option<string>): Option<seq<string>> {
    if keywords.Some? && keywords.value != "" then Some(TrimAll(Split(keywords.value, ','))) else None
  }

  /** `{ ...computed, ...overrides }`: a key present in `overrides` replaces the computed value. */
  function ApplyOverrides(m: Metadata, o: Overrides): Metadata {
    Metadata(
      o.title.GetOr(m.title),
      o.description.GetOr(m.description),
      o.keywords.GetOr(m.keywords),
      o.alternates.GetOr(m.alternates),
      o.openGraph.GetOr(m.openGraph),
      o.twitter.GetOr(m.twitter))
  }

  /** `stored?.field ?? fallback`, where `field` is `None` when there is no stored entry. */
  function StoredOr(field: Option<string>, fallback: string): string {
    if field.Some? then field.value else fallback
  }

  /**
    * Metadata for the configured page `slug`, given what the store returned for it (`stored`)
    * and the configured base URL (`env`).
    */
  function BuildPageMetadata(slug: string, stored: Option<SeoEntry>, env: Option<string>, overrides: Overrides): (r: Metadata)
    ensures overrides.title.Some? ==> r.title == overrides.title.value
    ensures overrides.description.Some? ==> r.description == overrides.description.value
    ensures overrides.keywords.Some? ==> r.keywords == overrides.keywords.value
    ensures overrides.alternates.Some? ==> r.alternates == overrides.alternates.value
    ensures overrides.openGraph.Some? ==> r.openGraph == overrides.openGraph.value
    ensures overrides.twitter.Some? ==> r.twitter == overrides.twitter.value
    ensures overrides.openGraph.None? && overrides.title.None? ==> r.openGraph.title == r.title
    ensures overrides.openGraph.None? && overrides.description.None? ==> r.openGraph.description == r.description
    ensures overrides.openGraph.None? && overrides.alternates.None? ==> r.openGraph.url == r.alternates.canonical
    ensures overrides.twitter.None? && overrides.title.None? ==> r.twitter.title == r.title
    ensures overrides.twitter.None? && overrides.description.None? ==> r.twitter.description == r.description
    ensures overrides.alternates.None? ==> StartsWith(r.alternates.canonical, BaseUrl(env))
  {
    var r := ResolvePage(SeoPages.FindPage(slug), stored, env, overrides);
    assert overrides.alternates.None? ==> r.alternates.canonical[..|BaseUrl(env)|] == BaseUrl(env);
    r
  }

  /** The body of `BuildPageMetadata` once the page's configuration `config` has been looked up. */
  function ResolvePage(config: Option<SeoPages.SeoPageConfig>, stored: Option<SeoEntry>, env: Option<string>, overrides: Overrides): Metadata
  {
    var fallbackTitle := if config.Some? then config.value.defaultTitle else DefaultTitle;
    var fallbackDescription := if config.Some? then config.value.defaultDescription else DefaultDescription;
    var fallbackKeywords := if config.Some? then config.value.defaultKeywords.GetOr(DefaultKeywords) else DefaultKeywords;
    var title := StoredOr(if stored.Some? then stored.value.metaTitle else None, fallbackTitle);
    var description := StoredOr(if stored.Some? then stored.value.metaDescription else None, fallbackDescription);
    var keywords := StoredOr(if stored.Some? then stored.value.keywords else None, fallbackKeywords);
    var canonicalPath := if config.Some? then config.value.path else "/";
    var canonicalUrl := BaseUrl(env) + canonicalPath;
    ApplyOverrides(
      Metadata(
        title,
        description,
        KeywordList(Some(keywords)),
        Alternates(canonicalUrl),
        OpenGraph(title, description, canonicalUrl, "website", None),
        Twitter("summary_large_image", title, description, None)),
      overrides)
  }

  /**
    * Title, description and keywords are each resolved on their own: the stored value when
    * there is one, else the page's default, else the site-wide default; and the canonical URL
    * is the base URL followed by the page's path, or "/" for an unknown slug. Here `config` is
    * what looking the slug up in the page table gave.
    */
  lemma PageFieldsResolvedIndependently(config: Option<SeoPages.SeoPageConfig>, stored: Option<SeoEntry>, env: Option<string>)
    ensures var r := ResolvePage(config, stored, env, NoOverrides);
      && r.title == (if stored.Some? && stored.value.metaTitle.Some? then stored.value.metaTitle.value
                     else if config.Some? then config.value.defaultTitle else DefaultTitle)
      && r.description == (if stored.Some? && stored.value.metaDescription.Some? then stored.value.metaDescription.value
                           else if config.Some? then config.value.defaultDescription else DefaultDescription)
      && r.keywords == KeywordList(Some(
           if stored.Some? && stored.value.keywords.Some? then stored.value.keywords.value
           else if config.Some? && config.value.defaultKeywords.Some? then config.value.defaultKeywords.value
           else DefaultKeywords))
      && r.alternates.canonical == BaseUrl(env) + (if config.Some? then config.value.path else "/")
  {
  }

  /**
    * Overrides only replace: a key absent from `overrides` keeps the value computed without
    * any overrides.
    */
  lemma PageOverridesOnlyReplace(slug: string, stored: Option<SeoEntry>, env: Option<string>, overrides: Overrides)
    ensures var r := BuildPageMetadata(slug, stored, env, overrides);
      var plain := BuildPageMetadata(slug, stored, env, NoOverrides);
      && (overrides.title.None? ==> r.title == plain.title)
      && (overrides.description.None? ==> r.description == plain.description)
      && (overrides.keywords.None? ==> r.keywords == plain.keywords)
      && (overrides.alternates.None? ==> r.alternates == plain.alternates)
      && (overrides.openGraph.None? ==> r.openGraph == plain.openGraph)
      && (overrides.twitter.None? ==> r.twitter == plain.twitter)
  {
  }

  /** A known page with nothing stored gets exactly its configured defaults. */
  lemma KnownPageDefaults(p: SeoPages.SeoPageConfig, env: Option<string>)
    requires p in SeoPages.Table
    ensures var r := BuildPageMetadata(p.slug, None, env, NoOverrides);
      && r.title == p.defaultTitle
      && r.description == p.defaultDescription
      && r.keywords == KeywordList(p.defaultKeywords)
      && r.alternates.canonical == BaseUrl(env) + p.path
  {
    SeoPages.FindPageExact(p.slug, p);
    SeoPages.TableEntries();
  }

  /** A stored title with nothing else stored keeps the page's default description and keywords. */
  lemma OnlyTitleStored(p: SeoPages.SeoPageConfig, t: string, env: Option<string>)
    requires p in SeoPages.Table
    ensures var r := BuildPageMetadata(p.slug, Some(SeoEntry(p.slug, Some(t), None, None)), env, NoOverrides);
      && r.title == t
      && r.description == p.defaultDescription
      && r.keywords == KeywordList(p.defaultKeywords)
  {
    SeoPages.FindPageExact(p.slug, p);
    SeoPages.TableEntries();
  }

  /** `??` and not `||`: a stored empty title or description is used as it is. */
  lemma StoredEmptyStringKept(slug: string, e: SeoEntry, env: Option<string>)
    requires e.metaTitle == Some("") && e.metaDescription == Some("")
    ensures BuildPageMetadata(slug, Some(e), env, NoOverrides).title == ""
    ensures BuildPageMetadata(slug, Some(e), env, NoOverrides).description == ""
  {
  }

  /** An unknown slug with nothing stored gets the site-wide defaults and the canonical path "/". */
  lemma UnknownSlugDefaults(slug: string, env: Option<string>)
    requires forall i | 0 <= i < |SeoPages.Table| :: SeoPages.Table[i].slug != slug
    ensures var r := BuildPageMetadata(slug, None, env, NoOverrides);
      && r.title == DefaultTitle
      && r.description == DefaultDescription
      && r.keywords == KeywordList(Some(DefaultKeywords))
      && r.alternates.canonical == BaseUrl(env) + "/"
  {
    SeoPages.FindPageUnknown(slug);
  }

  /** The "home" entry's defaults are the site-wide ones, so an unknown slug renders like an unedited home page. */
  lemma HomeIsSiteDefault(slug: string, env: Option<string>)
    requires forall i | 0 <= i < |SeoPages.Table| :: SeoPages.Table[i].slug != slug
    ensures SeoPages.Table[0].slug == "home"
    ensures SeoPages.Table[0].defaultTitle == DefaultTitle
    ensures SeoPages.Table[0].defaultDescription == DefaultDescription
    ensures SeoPages.Table[0].defaultKeywords == Some(DefaultKeywords)
    ensures BuildPageMetadata(slug, None, env, NoOverrides) == BuildPageMetadata("home", None, env, NoOverrides)
  {
    UnknownSlugDefaults(slug, env);
    KnownPageDefaults(SeoPages.Table[0], env);
  }

  /**
    * What was saved is what is rendered: a stored entry with title `t`, description `d` and
    * keywords `k` gives exactly `t`, `d` and the keyword list of `k`, whatever the page's defaults.
    */
  lemma SavedEntryRendered(slug: string, t: string, d: string, k: string, env: Option<string>)
    ensures var r := BuildPageMetadata(slug, Some(SeoEntry(slug, Some(t), Some(d), Some(k))), env, NoOverrides);
      && r.title == t && r.description == d && r.keywords == KeywordList(Some(k))
  {
  }

  /**
    * Keywords become one token per comma-separated piece, each trimmed, so empty pieces stay
    * as empty tokens; an empty or absent value gives no keywords.
    */
  lemma KeywordTokens(k: Option<string>)
    ensures KeywordList(k).None? <==> k.None? || k.value == ""
    ensures k.Some? && k.value != "" ==>
      && |KeywordList(k).value| == Count(k.value, ',') + 1
      && (forall i | 0 <= i < |KeywordList(k).value| :: KeywordList(k).value[i] == Trim(Split(k.value, ',')[i]))
  {
    if k.Some? && k.value != "" {
      SplitCount(k.value, ',');
    }
  }

  /** For example, "a,, b" gives the tokens "a", "" and "b". */
  lemma EmptyKeywordTokenKept()
    ensures KeywordList(Some("a,, b")) == Some(["a", "", "b"])
  {
    SplitExample();
    TrimAllThree("a", "", " b");
    TrimSingle('a');
    TrimSpaceThen('b');
  }

  lemma TrimSingle(c: char)
    requires !IsSpace(c)
    ensures Trim([c]) == [c]
  {
    TrimFixed([c]);
  }

  lemma TrimSpaceThen(c: char)
    requires !IsSpace(c)
    ensures Trim([' ', c]) == [c]
  {
    assert LeadingSpaces([' ', c]) == 1 by {
      assert [' ', c][1..] == [c];
    }
    assert TrimStart([' ', c]) == [c];
    TrimSingle(c);
  }

  lemma TrimAllThree(a: string, b: string, c: string)
    ensures TrimAll([a, b, c]) == [Trim(a), Trim(b), Trim(c)]
  {
  }

  lemma SplitExample()
    ensures Split("a,, b", ',') == ["a", "", " b"]
  {
    var s := "a,, b";
    assert s[1..] == ",, b" && s[2..] == ", b" && s[3..] == " b" && s[4..] == "b" && s[5..] == "";
    var p4 := Split(s[4..], ',');
    assert p4 == ["b"] by {
      assert Split(s[5..], ',') == [[]];
      assert [s[4]] + [] == "b";
    }
    var p3 := Split(s[3..], ',');
    assert p3 == [" b"] by {
      assert [s[3]] + p4[0] == " b";
    }
    var p2 := Split(s[2..], ',');
    assert p2 == ["", " b"];
    var p1 := Split(s[1..], ',');
    assert p1 == ["", "", " b"];
    assert [s[0]] + p1[0] == "a";
    assert p1[1..] == ["", " b"];
  }

  // ---------------------------------------------------------------- posts

  /** The fields of a blog post that the post builder reads. */
  datatype Post = Post(
    title: string,
    excerpt: Option<string>,
    metaTitle: Option<string>,
    metaDescription: Option<string>,
    keywords: Option<string>,
    slug: string,
    coverImage: Option<string>)

  /** Metadata for a post published under `basePath` (such as "/blog/posts"). */
  function BuildPostMetadata(post: Post, basePath: string, env: Option<string>, overrides: Overrides): (r: Metadata)
    ensures overrides.title.Some? ==> r.title == overrides.title.value
    ensures overrides.description.Some? ==> r.description == overrides.description.value
    ensures overrides.keywords.Some? ==> r.keywords == overrides.keywords.value
    ensures overrides.alternates.Some? ==> r.alternates == overrides.alternates.value
    ensures overrides.openGraph.Some? ==> r.openGraph == overrides.openGraph.value
    ensures overrides.twitter.Some? ==> r.twitter == overrides.twitter.value
    ensures overrides.description.None? ==> r.description != ""
    ensures overrides.openGraph.None? && overrides.title.None? ==> r.openGraph.title == r.title
    ensures overrides.openGraph.None? && overrides.description.None? ==> r.openGraph.description == r.description
    ensures overrides.openGraph.None? && overrides.alternates.None? ==> r.openGraph.url == r.alternates.canonical
    ensures overrides.twitter.None? && overrides.title.None? ==> r.twitter.title == r.title
    ensures overrides.twitter.None? && overrides.description.None? ==> r.twitter.description == r.description
  {
    var canonicalUrl := BaseUrl(env) + basePath + "/" + post.slug;
    var title := OrElse(post.metaTitle, post.title);
    var description := OrElse(post.metaDescription, OrElse(post.excerpt, DefaultDescription));
    var images := if post.coverImage.Some? && post.coverImage.value != "" then Some([post.coverImage.value]) else None;
    ApplyOverrides(
      Metadata(
        title,
        description,
        KeywordList(post.keywords),
        Alternates(canonicalUrl),
        OpenGraph(title, description, canonicalUrl, "article", images),
        Twitter("summary_large_image", title, description, images)),
      overrides)
  }

  /**
    * Overrides only replace: a key absent from `overrides` keeps the value computed without
    * any overrides.
    */
  lemma PostOverridesOnlyReplace(post: Post, basePath: string, env: Option<string>, overrides: Overrides)
    ensures var r := BuildPostMetadata(post, basePath, env, overrides);
      var plain := BuildPostMetadata(post, basePath, env, NoOverrides);
      && (overrides.title.None? ==> r.title == plain.title)
      && (overrides.description.None? ==> r.description == plain.description)
      && (overrides.keywords.None? ==> r.keywords == plain.keywords)
      && (overrides.alternates.None? ==> r.alternates == plain.alternates)
      && (overrides.openGraph.None? ==> r.openGraph == plain.openGraph)
      && (overrides.twitter.None? ==> r.twitter == plain.twitter)
  {
  }

  /**
    * A post's title is its SEO title unless that is absent or empty, then its own title; its
    * description falls back through the excerpt to the site default, where an empty string
    * counts as absent; its canonical URL is base URL, base path, "/" and slug; and both
    * social blocks carry the cover image exactly when there is a non-empty one.
    */
  lemma PostFallbacks(post: Post, basePath: string, env: Option<string>)
    ensures var r := BuildPostMetadata(post, basePath, env, NoOverrides);
      && r.title == (if post.metaTitle.Some? && post.metaTitle.value != "" then post.metaTitle.value else post.title)
      && r.description == (if post.metaDescription.Some? && post.metaDescription.value != "" then post.metaDescription.value
                           else if post.excerpt.Some? && post.excerpt.value != "" then post.excerpt.value
                           else DefaultDescription)
      && r.alternates.canonical == BaseUrl(env) + basePath + "/" + post.slug
      && (r.openGraph.images.Some? <==> post.coverImage.Some? && post.coverImage.value != "")
      && (r.openGraph.images.Some? ==> r.openGraph.images.value == [post.coverImage.value])
      && r.twitter.images == r.openGraph.images
  {
  }
}
