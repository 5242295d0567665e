/**
  * The SEO editor: a searchable list of page rows, at most one of them open for editing,
  * whose values can be changed in place, reverted to what the page was mounted with, or
  * saved through the server action.
  */
module SeoManager {
  import opened Wrappers
  import opened Text
  import Arrays
  import opened AdminSeoPage
  import opened SeoStore
  import opened SeoAction

  const DefaultBaseUrl: string := "https://brightleasing.com.au"
  /** The lengths beyond which the title and description indicators turn red. */
  const TitleLimit: nat := 60
  const DescriptionLimit: nat := 155

  // ---------------------------------------------------------------- search

  /** The row's label or slug contains the query, ignoring (ASCII) case. */
  predicate MatchesQuery(page: SeoPageData, query: string) {
    Contains(ToLower(page.displayLabel), ToLower(query)) || Contains(ToLower(page.slug), ToLower(query))
  }

  /** `pages.filter(...)`: the rows matching `query`, in list order. */
  function Filter(pages: seq<SeoPageData>, query: string): (r: seq<SeoPageData>)
    ensures |r| <= |pages|
    ensures forall i | 0 <= i < |r| :: r[i] in pages && MatchesQuery(r[i], query)
  {
    if pages == [] then []
    else (if MatchesQuery(pages[0], query) then [pages[0]] else []) + Filter(pages[1..], query)
  }

  /** Every matching row is kept. */
  lemma {:induction false} FilterKeepsMatches(pages: seq<SeoPageData>, query: string)
    ensures forall p | p in pages && MatchesQuery(p, query) :: p in Filter(pages, query)
  {
    if pages != [] {
      FilterKeepsMatches(pages[1..], query);
      forall p | p in pages && MatchesQuery(p, query)
        ensures p in Filter(pages, query)
      {
        if p != pages[0] {
          assert p in pages[1..];
        }
      }
    }
  }

  /** Filtering works piece by piece, so the kept rows stay in their list order. */
  lemma {:induction false} FilterAppend(a: seq<SeoPageData>, b: seq<SeoPageData>, query: string)
    ensures Filter(a + b, query) == Filter(a, query) + Filter(b, query)
  {
    if a == [] {
      assert a + b == b;
    } else {
      assert (a + b)[0] == a[0];
      assert (a + b)[1..] == a[1..] + b;
      FilterAppend(a[1..], b, query);
    }
  }

  /** Every string contains the empty string, so the empty query keeps every row. */
  lemma {:induction false} FilterEmptyQuery(pages: seq<SeoPageData>)
    ensures Filter(pages, "") == pages
  {
    if pages != [] {
      assert StartsWith(ToLower(pages[0].displayLabel), ToLower(""));
      FilterEmptyQuery(pages[1..]);
    }
  }

  // ---------------------------------------------------------------- row edits

  /** The keys of a row that `updatePage` may set. */
  datatype Field =
    | Slug | Path | Label | DefaultTitle | DefaultDescription | DefaultKeywords
    | MetaTitle | MetaDescription | Keywords

  /** A row's value under a key; only `defaultKeywords` may be absent. */
  function FieldValue(p: SeoPageData, f: Field): Option<string> {
    match f
    case Slug => Some(p.slug)
    case Path => Some(p.path)
    case Label => Some(p.displayLabel)
    case DefaultTitle => Some(p.defaultTitle)
    case DefaultDescription => Some(p.defaultDescription)
    case DefaultKeywords => p.defaultKeywords
    case MetaTitle => Some(p.metaTitle)
    case MetaDescription => Some(p.metaDescription)
    case Keywords => Some(p.keywords)
  }

  /** `{ ...p, [field]: value }` */
  function SetField(p: SeoPageData, f: Field, v: string): (r: SeoPageData)
    ensures FieldValue(r, f) == Some(v)
    ensures forall g | g != f :: FieldValue(r, g) == FieldValue(p, g)
  {
    match f
    case Slug => p.(slug := v)
    case Path => p.(path := v)
    case Label => p.(displayLabel := v)
    case DefaultTitle => p.(defaultTitle := v)
    case DefaultDescription => p.(defaultDescription := v)
    case DefaultKeywords => p.(defaultKeywords := Some(v))
    case MetaTitle => p.(metaTitle := v)
    case MetaDescription => p.(metaDescription := v)
    case Keywords => p.(keywords := v)
  }

  /** Two rows with the same value under every key are the same row. */
  lemma FieldsDetermineRow(p: SeoPageData, q: SeoPageData)
    requires forall f: Field :: FieldValue(p, f) == FieldValue(q, f)
    ensures p == q
  {
    assert FieldValue(p, Slug) == FieldValue(q, Slug);
    assert FieldValue(p, Path) == FieldValue(q, Path);
    assert FieldValue(p, Label) == FieldValue(q, Label);
    assert FieldValue(p, DefaultTitle) == FieldValue(q, DefaultTitle);
    assert FieldValue(p, DefaultDescription) == FieldValue(q, DefaultDescription);
    assert FieldValue(p, DefaultKeywords) == FieldValue(q, DefaultKeywords);
    assert FieldValue(p, MetaTitle) == FieldValue(q, MetaTitle);
    assert FieldValue(p, MetaDescription) == FieldValue(q, MetaDescription);
    assert FieldValue(p, Keywords) == FieldValue(q, Keywords);
  }

  /** `prev.map((p) => (p.slug === slug ? { ...p, [field]: value } : p))` */
  function UpdateRows(rows: seq<SeoPageData>, slug: string, f: Field, v: string): (r: seq<SeoPageData>)
    ensures |r| == |rows|
  {
    seq(|rows|, i requires 0 <= i < |rows| => if rows[i].slug == slug then SetField(rows[i], f, v) else rows[i])
  }

  /** `prev.map((p) => (p.slug === slug ? originalPage : p))` */
  function ReplaceRows(rows: seq<SeoPageData>, slug: string, original: SeoPageData): (r: seq<SeoPageData>)
    ensures |r| == |rows|
  {
    seq(|rows|, i requires 0 <= i < |rows| => if rows[i].slug == slug then original else rows[i])
  }

  /**
    * An update sets the named key of every row with the slug and changes nothing else: other
    * keys of those rows and all other rows keep their values.
    */
  lemma UpdateChangesOnlyNamedField(rows: seq<SeoPageData>, slug: string, f: Field, v: string, i: nat, g: Field)
    requires i < |rows|
    ensures rows[i].slug != slug ==> UpdateRows(rows, slug, f, v)[i] == rows[i]
    ensures rows[i].slug == slug ==>
      FieldValue(UpdateRows(rows, slug, f, v)[i], g) == (if g == f then Some(v) else FieldValue(rows[i], g))
  {
  }

  /**
    * Cancelling after an update of a key other than the slug gives what cancelling without it
    * gives: every edit of the row since the page was mounted is discarded.
    */
  lemma CancelDiscardsUpdates(rows: seq<SeoPageData>, slug: string, f: Field, v: string, original: SeoPageData)
    requires f != Slug
    ensures ReplaceRows(UpdateRows(rows, slug, f, v), slug, original) == ReplaceRows(rows, slug, original)
  {
    var updated := UpdateRows(rows, slug, f, v);
    forall i | 0 <= i < |rows|
      ensures updated[i].slug == rows[i].slug
    {
      if rows[i].slug == slug {
        assert FieldValue(updated[i], Slug) == FieldValue(rows[i], Slug);
      }
    }
  }

  // ---------------------------------------------------------------- save

  /** What the Save button sends for a row: an empty keywords string is sent as absent. */
  function PayloadOf(page: SeoPageData): (payload: UpsertSeoPayload)
    ensures payload.slug == page.slug
    ensures payload.metaTitle == page.metaTitle && payload.metaDescription == page.metaDescription
    ensures payload.keywords.None? <==> page.keywords == ""
    ensures payload.keywords.Some? ==> payload.keywords.value == page.keywords
  {
    UpsertSeoPayload(page.slug, page.metaTitle, page.metaDescription, if page.keywords != "" then Some(page.keywords) else None)
  }

  /** The indicators turn red past the limits; they only inform. */
  predicate TitleOverLimit(page: SeoPageData) {
    |page.metaTitle| > TitleLimit
  }

  predicate DescriptionOverLimit(page: SeoPageData) {
    |page.metaDescription| > DescriptionLimit
  }

  /** A row over either limit is still sent, with its title and description as they are. */
  lemma LengthFlagsAreAdvisory(page: SeoPageData)
    requires TitleOverLimit(page) || DescriptionOverLimit(page)
    ensures PayloadOf(page).metaTitle == page.metaTitle && PayloadOf(page).metaDescription == page.metaDescription
    ensures |PayloadOf(page).metaTitle| > TitleLimit || |PayloadOf(page).metaDescription| > DescriptionLimit
  {
  }

  /** How the awaited server action ended: it returned a result, or it threw. */
  datatype SaveOutcome = Returned(result: SaveResult) | Threw

  // ---------------------------------------------------------------- display

  /** `s.replace(/^https?:\/\//, '')`: a leading "https://" or "http://" removed, case-sensitively. */
  function StripScheme(s: string): (r: string)
    ensures |r| <= |s| && r == s[|s| - |r|..]
    ensures StartsWith(s, "https://") ==> |s| - |r| == 8
    ensures !StartsWith(s, "https://") && StartsWith(s, "http://") ==> |s| - |r| == 7
    ensures !StartsWith(s, "https://") && !StartsWith(s, "http://") ==> r == s
  {
    if StartsWith(s, "https://") then s[8..]
    else if StartsWith(s, "http://") then s[7..]
    else s
  }

  /** The address shown on a row: the base URL without its scheme, upper-cased, then the page's path. */
  function FullUrl(baseUrl: string, path: string): (r: string)
    ensures |r| == |StripScheme(baseUrl)| + |path|
    ensures r[|r| - |path|..] == path
    ensures forall i | 0 <= i < |StripScheme(baseUrl)| :: r[i] == UpperChar(StripScheme(baseUrl)[i])
  {
    var host := ToUpper(StripScheme(baseUrl));
    assert (host + path)[|host|..] == path;
    host + path
  }

  // ---------------------------------------------------------------- the component

  class Manager {
    /** The rows the component was mounted with. */
    const initialPages: seq<SeoPageData>
    const baseUrl: string
    var pages: seq<SeoPageData>
    var searchQuery: string
    var editingSlug: Option<string>
    var isSaving: bool

    /** `baseUrl` falls back to the site address only when the prop is absent. */
    constructor(initialPages: seq<SeoPageData>, baseUrl: Option<string>)
      ensures this.initialPages == initialPages && this.baseUrl == baseUrl.GetOr(DefaultBaseUrl)
      ensures pages == initialPages && searchQuery == "" && editingSlug == None && !isSaving
    {
      this.initialPages := initialPages;
      this.baseUrl := baseUrl.GetOr(DefaultBaseUrl);
      pages := initialPages;
      searchQuery := "";
      editingSlug := None;
      isSaving := false;
    }

    /** The rows on screen. */
    function FilteredPages(): seq<SeoPageData>
      reads this
    {
      Filter(pages, searchQuery)
    }

    /** Typing in the search box. */
    method SetSearchQuery(query: string)
      modifies this
      ensures searchQuery == query
      ensures pages == old(pages) && editingSlug == old(editingSlug) && isSaving == old(isSaving)
    {
      searchQuery := query;
    }

    /** `handleEdit(slug)`: opens one row; the row open before keeps whatever was typed into it. */
    method HandleEdit(slug: string)
      modifies this
      ensures editingSlug == Some(slug)
      ensures pages == old(pages) && searchQuery == old(searchQuery) && isSaving == old(isSaving)
    {
      editingSlug := Some(slug);
    }

    /** `updatePage(slug, field, value)` */
    method UpdatePage(slug: string, f: Field, v: string)
      modifies this
      ensures pages == UpdateRows(old(pages), slug, f, v)
      ensures searchQuery == old(searchQuery) && editingSlug == old(editingSlug) && isSaving == old(isSaving)
    {
      pages := UpdateRows(pages, slug, f, v);
    }

    /**
      * `handleCancel(slug)`: the rows with the slug get back the mount-time row with that slug,
      * if there is one, and no row stays open.
      */
    method HandleCancel(slug: string)
      modifies this
      ensures var original := Arrays.Find(initialPages, (p: SeoPageData) => p.slug == slug);
        pages == (if original.Some? then ReplaceRows(old(pages), slug, original.value) else old(pages))
      ensures editingSlug == None
      ensures searchQuery == old(searchQuery) && isSaving == old(isSaving)
    {
      var original := Arrays.Find(initialPages, (p: SeoPageData) => p.slug == slug);
      if original.Some? {
        pages := ReplaceRows(pages, slug, original.value);
      }
      editingSlug := None;
    }

    /**
      * The first half of `handleSave(slug)`, up to the awaited call: nothing happens for a slug
      * with no row; otherwise the component enters the saving state and sends the row's payload.
      * Lengths are not checked.
      */
    method HandleSaveStart(slug: string) returns (payload: Option<UpsertSeoPayload>)
      modifies this
      ensures var page := Arrays.Find(old(pages), (p: SeoPageData) => p.slug == slug);
        && (page.None? ==> payload.None? && isSaving == old(isSaving))
        && (page.Some? ==> payload == Some(PayloadOf(page.value)) && isSaving)
      ensures pages == old(pages) && searchQuery == old(searchQuery) && editingSlug == old(editingSlug)
    {
      var page := Arrays.Find(pages, (p: SeoPageData) => p.slug == slug);
      if page.None? {
        return None;
      }
      isSaving := true;
      payload := Some(PayloadOf(page.value));
    }

    /**
      * The second half of `handleSave`: a successful result closes the open row, a failed result
      * or a thrown error leaves it open, and either way the saving state ends.
      */
    method HandleSaveFinish(outcome: SaveOutcome)
      modifies this
      ensures editingSlug == (if outcome.Returned? && outcome.result.success then None else old(editingSlug))
      ensures !isSaving
      ensures pages == old(pages) && searchQuery == old(searchQuery)
    {
      if outcome.Returned? && outcome.result.success {
        editingSlug := None;
      }
      isSaving := false;
    }

    /** The Save button, which is disabled while a save is in flight. */
    method ClickSave(slug: string) returns (payload: Option<UpsertSeoPayload>)
      modifies this
      ensures old(isSaving) ==> payload.None? && isSaving
      ensures !old(isSaving) ==>
        var page := Arrays.Find(old(pages), (p: SeoPageData) => p.slug == slug);
        && (page.None? ==> payload.None? && isSaving == old(isSaving))
        && (page.Some? ==> payload == Some(PayloadOf(page.value)) && isSaving)
      ensures pages == old(pages) && searchQuery == old(searchQuery) && editingSlug == old(editingSlug)
    {
      if isSaving {
        return None;
      }
      payload := HandleSaveStart(slug);
    }

    /** The Cancel button, which is disabled while a save is in flight. */
    method ClickCancel(slug: string)
      modifies this
      ensures old(isSaving) ==> pages == old(pages) && editingSlug == old(editingSlug)
      ensures !old(isSaving) ==>
        var original := Arrays.Find(initialPages, (p: SeoPageData) => p.slug == slug);
        && pages == (if original.Some? then ReplaceRows(old(pages), slug, original.value) else old(pages))
        && editingSlug == None
      ensures searchQuery == old(searchQuery) && isSaving == old(isSaving)
    {
      if !isSaving {
        HandleCancel(slug);
      }
    }
  }
}
