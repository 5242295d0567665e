/**
  * The admin SEO page: the rows the editor starts from, one per configured page, each
  * the page's configuration followed by the stored title, description and keywords, or
  * the page's defaults where nothing is stored.
  */
module AdminSeoPage {
  import opened Wrappers
  import Arrays
  import opened SeoPages
  import opened SeoStore
  import SeoMetadata

  /** One editor row: the page's configuration and the three editable values. */
  datatype SeoPageData = SeoPageData(
    slug: string,
    path: string,
    displayLabel: string,
    defaultTitle: string,
    defaultDescription: string,
    defaultKeywords: Option<string>,
    metaTitle: string,
    metaDescription: string,
    keywords: string)

  /** `entries.find((entry) => entry.slug === slug)` */
  function FirstStored(entries: seq<SeoEntry>, slug: string): Option<SeoEntry> {
    Arrays.Find(entries, (e: SeoEntry) => e.slug == slug)
  }

  /** The row for one configured page, given the entries read from the store. */
  function MergeRow(page: SeoPageConfig, entries: seq<SeoEntry>): (row: SeoPageData)
    ensures row.slug == page.slug && row.path == page.path && row.displayLabel == page.displayLabel
    ensures row.defaultTitle == page.defaultTitle && row.defaultDescription == page.defaultDescription
    ensures row.defaultKeywords == page.defaultKeywords
  {
    var stored := FirstStored(entries, page.slug);
    SeoPageData(
      page.slug, page.path, page.displayLabel,
      page.defaultTitle, page.defaultDescription, page.defaultKeywords,
      if stored.Some? && stored.value.metaTitle.Some? then stored.value.metaTitle.value else page.defaultTitle,
      if stored.Some? && stored.value.metaDescription.Some? then stored.value.metaDescription.value else page.defaultDescription,
      if stored.Some? && stored.value.keywords.Some? then stored.value.keywords.value
      else if page.defaultKeywords.Some? then page.defaultKeywords.value
      else "")
  }

  /** `seoPages.map(...)`: one row per configured page, in the same order. */
  function MergeRows(pages: seq<SeoPageConfig>, entries: seq<SeoEntry>): (rows: seq<SeoPageData>)
    ensures |rows| == |pages|
  {
    seq(|pages|, i requires 0 <= i < |pages| => MergeRow(pages[i], entries))
  }

  /** What the page hands to the editor: the rows and the site's base URL. */
  datatype AdminView = AdminView(pages: seq<SeoPageData>, baseUrl: string)

  /** `AdminSeoPage()`, given the stored entries and the configured base URL. */
  function AdminSeoPageView(entries: seq<SeoEntry>, env: Option<string>): (v: AdminView)
    ensures |v.pages| == |Table|
    ensures v.pages == MergeRows(Table, entries)
    ensures v.baseUrl == SeoMetadata.BaseUrl(env) && v.baseUrl != ""
  {
    AdminView(MergeRows(Table, entries), SeoMetadata.BaseUrl(env))
  }

  /**
    * Row `i` is built from page `i`: its configuration is copied unchanged, and its three values
    * are the first stored entry's values with `??` semantics, the keywords falling back through
    * the page default to "".
    */
  lemma RowsFollowPages(pages: seq<SeoPageConfig>, entries: seq<SeoEntry>, i: nat)
    requires i < |pages|
    ensures var row := MergeRows(pages, entries)[i];
      var page := pages[i];
      var stored := FirstStored(entries, page.slug);
      && row.slug == page.slug && row.path == page.path && row.displayLabel == page.displayLabel
      && row.defaultTitle == page.defaultTitle && row.defaultDescription == page.defaultDescription
      && row.defaultKeywords == page.defaultKeywords
      && row.metaTitle == (if stored.Some? && stored.value.metaTitle.Some? then stored.value.metaTitle.value else page.defaultTitle)
      && row.metaDescription == (if stored.Some? && stored.value.metaDescription.Some? then stored.value.metaDescription.value else page.defaultDescription)
      && row.keywords == (if stored.Some? && stored.value.keywords.Some? then stored.value.keywords.value
                          else page.defaultKeywords.GetOr(""))
  {
  }

  /** With nothing stored for a page, its row shows the page's defaults, and keywords "" when it has none. */
  lemma UnsavedRowShowsDefaults(page: SeoPageConfig, entries: seq<SeoEntry>)
    requires forall j | 0 <= j < |entries| :: entries[j].slug != page.slug
    ensures MergeRow(page, entries).metaTitle == page.defaultTitle
    ensures MergeRow(page, entries).metaDescription == page.defaultDescription
    ensures MergeRow(page, entries).keywords == page.defaultKeywords.GetOr("")
  {
  }

  /**
    * When several entries share the page's slug, the first one is the one shown: a column it
    * leaves null falls back to the page's default, never to a later entry's value.
    */
  lemma FirstEntryWins(page: SeoPageConfig, entries: seq<SeoEntry>, j: nat)
    requires j < |entries| && entries[j].slug == page.slug
    requires forall k | 0 <= k < j :: entries[k].slug != page.slug
    ensures MergeRow(page, entries).metaTitle == entries[j].metaTitle.GetOr(page.defaultTitle)
    ensures MergeRow(page, entries).metaDescription == entries[j].metaDescription.GetOr(page.defaultDescription)
    ensures MergeRow(page, entries).keywords == entries[j].keywords.GetOr(page.defaultKeywords.GetOr(""))
  {
    var r := FirstStored(entries, page.slug);
    var i :| 0 <= i < |entries| && entries[i] == r.value && entries[i].slug == page.slug
      && forall k | 0 <= k < i :: entries[k].slug != page.slug;
    assert i == j;
  }

  /** `find` skips an element that does not match, wherever it is inserted. */
  lemma {:induction false} FindSkips<T>(xs: seq<T>, k: nat, x: T, matches: T -> bool)
    requires k <= |xs| && !matches(x)
    ensures Arrays.Find(xs[..k] + [x] + xs[k..], matches) == Arrays.Find(xs, matches)
  {
    var ys := xs[..k] + [x] + xs[k..];
    if k == 0 {
      assert ys[1..] == xs;
    } else {
      assert ys[0] == xs[0];
      assert ys[1..] == xs[1..][..k - 1] + [x] + xs[1..][k - 1..];
      FindSkips(xs[1..], k - 1, x, matches);
    }
  }

  /** A stored entry whose slug is not configured changes no row, wherever it sits among the entries. */
  lemma UnconfiguredEntryIgnored(pages: seq<SeoPageConfig>, entries: seq<SeoEntry>, k: nat, e: SeoEntry)
    requires k <= |entries|
    requires forall i | 0 <= i < |pages| :: pages[i].slug != e.slug
    ensures MergeRows(pages, entries[..k] + [e] + entries[k..]) == MergeRows(pages, entries)
  {
    var more := entries[..k] + [e] + entries[k..];
    forall i | 0 <= i < |pages|
      ensures MergeRows(pages, more)[i] == MergeRows(pages, entries)[i]
    {
      FindSkips(entries, k, e, (x: SeoEntry) => x.slug == pages[i].slug);
    }
  }

  /** The editor starts with the nine configured pages in table order, keyed by their slugs. */
  lemma AdminRowsMatchTable(entries: seq<SeoEntry>, env: Option<string>)
    ensures var v := AdminSeoPageView(entries, env);
      forall i | 0 <= i < |Table| :: v.pages[i].slug == Table[i].slug && v.pages[i].path == Table[i].path
    ensures |AdminSeoPageView(entries, env).pages| == 9
  {
    TableShape();
  }
}
