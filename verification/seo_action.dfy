/**
  * The server action behind the editor's Save button: it writes one entry through the store
  * and, when the write succeeded, asks the framework to re-render the affected page and the
  * admin SEO page.
  */
module SeoAction {
  import opened Wrappers
  import opened SeoPages
  import opened SeoStore

  /** What the editor sends: `keywords` is optional. */
  datatype UpsertSeoPayload = UpsertSeoPayload(
    slug: string,
    metaTitle: string,
    metaDescription: string,
    keywords: Option<string>)

  /** One call of the store's save operation, with its four arguments. */
  datatype SaveCall = SaveCall(slug: string, metaTitle: string, metaDescription: string, keywords: Option<string>)

  const AdminSeoPath: string := "/admin/seo"

  /** The calls made to the store, in order. */
  class StoreLog {
    var calls: seq<SaveCall>

    constructor()
      ensures calls == []
    {
      calls := [];
    }

    /** `saveSeoEntry(slug, metaTitle, metaDescription, keywords)`; what it resolves to is `result`. */
    method Save(slug: string, metaTitle: string, metaDescription: string, keywords: Option<string>, result: SaveResult)
      returns (r: SaveResult)
      modifies this
      ensures calls == old(calls) + [SaveCall(slug, metaTitle, metaDescription, keywords)]
      ensures r == result
    {
      calls := calls + [SaveCall(slug, metaTitle, metaDescription, keywords)];
      r := result;
    }
  }

  /** The paths passed to `revalidatePath`, in order. */
  class CacheLog {
    var revalidated: seq<string>

    constructor()
      ensures revalidated == []
    {
      revalidated := [];
    }

    /** `revalidatePath(path)` */
    method RevalidatePath(path: string)
      modifies this
      ensures revalidated == old(revalidated) + [path]
    {
      revalidated := revalidated + [path];
    }
  }

  /**
    * The paths a save revalidates, given the configuration `config` found for its slug: none
    * after a failed save; after a successful one, the page's path when it is non-empty, then
    * the admin SEO page.
    */
  function RevalidationsFor(config: Option<SeoPageConfig>, success: bool): (paths: seq<string>)
    ensures !success ==> paths == []
    ensures success ==> |paths| >= 1 && paths[|paths| - 1] == AdminSeoPath
  {
    if !success then []
    else (if config.Some? && config.value.path != "" then [config.value.path] else []) + [AdminSeoPath]
  }

  /**
    * `upsertSeoEntryAction(payload)`, where `stored` is what the store's save resolves to: the
    * payload's fields go to the store unchanged, the paths of `RevalidationsFor` are revalidated
    * and the store's result is returned as it is.
    */
  method UpsertSeoEntryAction(payload: UpsertSeoPayload, stored: SaveResult, store: StoreLog, cache: CacheLog)
    returns (result: SaveResult)
    modifies store, cache
    ensures store.calls == old(store.calls) + [SaveCall(payload.slug, payload.metaTitle, payload.metaDescription, payload.keywords)]
    ensures cache.revalidated == old(cache.revalidated) + RevalidationsFor(FindPage(payload.slug), stored.success)
    ensures result == stored
  {
    result := store.Save(payload.slug, payload.metaTitle, payload.metaDescription, payload.keywords, stored);
    RevalidateAfterSave(result.success, FindPage(payload.slug), cache);
  }

  /** The branch after the save: `pageConfig` is the configuration found for the saved slug. */
  method RevalidateAfterSave(success: bool, pageConfig: Option<SeoPageConfig>, cache: CacheLog)
    modifies cache
    ensures cache.revalidated == old(cache.revalidated) + RevalidationsFor(pageConfig, success)
  {
    if success {
      if pageConfig.Some? && pageConfig.value.path != "" {
        cache.RevalidatePath(pageConfig.value.path);
      }
      cache.RevalidatePath(AdminSeoPath);
    }
  }

  /** A failed save revalidates nothing. */
  lemma FailedSaveRevalidatesNothing(slug: string)
    ensures RevalidationsFor(FindPage(slug), false) == []
  {
  }

  /** A successful save of a configured page revalidates that page's path, then the admin page. */
  lemma KnownSlugRevalidated(p: SeoPageConfig)
    requires p in Table
    ensures RevalidationsFor(FindPage(p.slug), true) == [p.path, AdminSeoPath]
  {
    FindPageExact(p.slug, p);
    TablePaths(p);
  }

  /** A successful save of an unknown slug revalidates only the admin page. */
  lemma UnknownSlugRevalidatesAdminOnly(slug: string)
    requires forall i | 0 <= i < |Table| :: Table[i].slug != slug
    ensures RevalidationsFor(FindPage(slug), true) == [AdminSeoPath]
  {
    FindPageUnknown(slug);
  }
}
