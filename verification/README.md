# Bright Leasing site: SEO metadata, the SEO editor and the admin content forms

A Dafny model of the logic inside a Next.js marketing site with a small content-management
area. The model has four parts.

- **SEO metadata resolution** (`seo_pages.dfy`, `seo_metadata.dfy`, `admin_seo_page.dfy`).
  - A compiled-in table of nine pages, keyed by slug.
  - The page builder merges the table's defaults with an optional stored entry, field by
    field, using `??`. It splits keywords on commas, builds the canonical URL, and mirrors
    the title and description into the Open Graph and Twitter blocks. Caller overrides win.
  - The post builder falls back with `||`.
  - The admin page merges the table with the stored entries into the editor's rows.
- **The SEO editor and its server action** (`seo_manager.dfy`, `seo_action.dfy`).
  - The editor is a `class` over the rows, the search query, the one row being edited and
    the saving flag. Its handlers are methods.
  - The server action is a method. It saves through the store, then appends the paths it
    revalidates to a log.
- **Helpers** (`url.dfy`, `bubble_menu.dfy`, `header.dfy`).
  - URL normalisation for social links.
  - The three-column navigation menu, with the stagger index of each link.
  - The header's admin-path test and its menu open/close state.
- **The content forms** (`section_titles.dfy` and one file per form).
  - Each form is a class. It holds the page props, the edited fields, and a shared
    section-title editor: edit, type, save and cancel.
  - Each form's save builds a payload object. The lemmas say which keys a save keeps,
    overwrites or drops.

Shared modules:

- `wrappers.dfy` has `Option`.
- `arrays.dfy` models `Array.prototype.find`.
- `text.dfy` models JavaScript's `startsWith`, `includes`, ASCII case mapping, `trim`, `split`/`join` on one character, and decimal rendering.
- `js.dfy` models untyped JavaScript values: truthiness, `??`, `||`, optional chaining and object spread.

Inputs that come from outside the code are parameters:

- `process.env.NEXT_PUBLIC_BASE_URL` is `env: Option<string>`.
- The entry the store returns is `stored: Option<SeoEntry>`.
- The store's save result is the `stored` argument of the action.
- What the awaited action did is a `SaveOutcome`.
- The router's pathname is `pathname: Option<string>`.
- The site's navigation links are `links`.

Two field names change because they are Dafny keywords:

- The configuration field `label` is `displayLabel`.
- A navigation link's `label` is `text`.

How the editor and its server action behave, as the code is written:

- Cancel restores the row the editor was mounted with: `handleCancel` looks the slug up in `initialPages` (`src/components/admin/seo/SeoManager.tsx:67-75`).
- Switching the edit target only changes `editingSlug`, so the previous row keeps its edits (`src/components/admin/seo/SeoManager.tsx:36-38`).
- Saving checks no lengths; the 60 and 155 character flags are only displayed (`src/components/admin/seo/SeoManager.tsx:163-167`, `198-202`).
- Saving works on any row, edited or not: `handleSave` looks the slug up in the current rows (`src/components/admin/seo/SeoManager.tsx:40-42`).
- A successful save leaves the rows as they are and only clears `editingSlug` (`src/components/admin/seo/SeoManager.tsx:53-55`).
- Revalidation, including that of `/admin/seo`, happens only after a successful save (`src/server-actions/seo.ts:22-32`).

## Model

| member | source | states |
|---|---|---|
| Arrays.Find | src/utils/seo.ts:14 | `find` gives none exactly when no element matches, otherwise an element that matches with no match before it |
| Arrays.FindUnique | src/config/seo-pages.ts:11-84 | when at most one element matches, `find` returns exactly the matching element |
| Js.CoalesceKeepsFalsy | src/components/admin/footer-inputs.tsx:15 | `??` keeps a falsy but non-nullish value that `\|\|` would replace |
| Js.SpreadKeys | src/components/admin/footer-inputs.tsx:58-60 | a spread keeps every unlisted key of the object and takes the listed ones |
| Text.ContainsAt | src/components/admin/seo/SeoManager.tsx:32-33 | `includes` holds exactly when the needle occurs at some position |
| Text.TrimBounds | src/utils/url.ts:11 | a trimmed string is empty or has no white space at either end |
| Text.TrimFixed | src/utils/url.ts:11 | trimming changes nothing exactly when neither end is white space |
| Text.TrimIdempotent | src/utils/url.ts:11 | trimming twice is trimming once |
| Text.TrimEmpty | src/utils/url.ts:7 | a string trims to "" exactly when it is all white space |
| Text.Split | src/utils/seo.ts:34 | `split` on one character always gives at least one piece |
| Text.SplitPiecesFree | src/utils/seo.ts:34 | no piece contains the separator |
| Text.SplitCount | src/utils/seo.ts:34 | there is one piece more than there are separators, so empty pieces are kept |
| Text.JoinSplit | src/utils/seo.ts:34 | joining the pieces with the separator gives back the string |
| Text.SplitJoin | src/utils/seo.ts:34 | splitting a join of separator-free pieces gives back the pieces |
| Text.NatToString | src/components/admin/privacy-policy-inputs.tsx:127-128 | the decimal rendering is a non-empty string of digits, one digit exactly below ten |
| Text.NatToStringInjective | src/components/admin/privacy-policy-inputs.tsx:127 | distinct numbers render differently |
| SeoPages.TableShape | src/config/seo-pages.ts:11-84 | the table has nine entries with pairwise distinct slugs |
| SeoPages.TableEntries | src/config/seo-pages.ts:11-84 | every path begins with "/", every default title and description is non-empty, every entry has default keywords and none sets `revalidatePaths` |
| SeoPages.TablePaths | src/config/seo-pages.ts:14-80 | a configured page's path is site-relative and non-empty |
| SeoPages.FindPageExact | src/config/seo-pages.ts:11-84 | looking a slug up gives the one entry with that slug, in both directions |
| SeoPages.FindPageUnknown | src/utils/seo.ts:14 | the lookup gives nothing exactly when no entry has the slug |
| SeoMetadata.BaseUrl | src/utils/seo.ts:27 | the base URL is never empty: an absent or empty setting gives the site address |
| SeoMetadata.TrimAll | src/utils/seo.ts:34 | one trimmed token per piece |
| SeoMetadata.BuildPageMetadata | src/utils/seo.ts:9-65 | each of the six override keys, when given, is the value of that key; otherwise Open Graph and Twitter carry the resolved title and description, `openGraph.url` is the canonical URL, and the canonical URL starts with the base URL |
| SeoMetadata.PageOverridesOnlyReplace | src/utils/seo.ts:63 | a key absent from the overrides keeps the value built without overrides |
| SeoMetadata.PageFieldsResolvedIndependently | src/utils/seo.ts:14-29 | title, description and keywords each resolve separately: stored value, else page default, else site default; the canonical URL is base URL plus the page path, or "/" |
| SeoMetadata.KnownPageDefaults | src/utils/seo.ts:14-34 | a configured page with nothing stored gets exactly its table defaults and path |
| SeoMetadata.OnlyTitleStored | src/utils/seo.ts:22-24 | storing only a title keeps the default description and keywords |
| SeoMetadata.StoredEmptyStringKept | src/utils/seo.ts:22-23 | a stored empty title or description is used, not replaced |
| SeoMetadata.UnknownSlugDefaults | src/utils/seo.ts:14-28 | an unknown slug gets the site-wide defaults and the canonical path "/" |
| SeoMetadata.HomeIsSiteDefault | src/utils/seo.ts:5-7 | the home entry's defaults are the site-wide constants, so an unknown slug renders like an unedited home page |
| SeoMetadata.SavedEntryRendered | src/utils/seo.ts:22-34 | a stored title, description and keywords are exactly what is rendered |
| SeoMetadata.KeywordTokens | src/utils/seo.ts:34 | no keywords exactly for an absent or empty value; otherwise one trimmed token per comma-separated piece |
| SeoMetadata.EmptyKeywordTokenKept | src/utils/seo.ts:34 | "a,, b" gives the tokens "a", "" and "b" |
| SeoMetadata.BuildPostMetadata | src/utils/seo.ts:71-129 | each of the six override keys, when given, is the value of that key; otherwise the description is never empty and both social blocks mirror the title, description and canonical URL |
| SeoMetadata.PostOverridesOnlyReplace | src/utils/seo.ts:127 | a key absent from the overrides keeps the value built without overrides |
| SeoMetadata.PostFallbacks | src/utils/seo.ts:84-125 | a post's title, description, canonical URL and images follow the `\|\|` chains; images exist exactly for a non-empty cover image |
| AdminSeoPage.MergeRow | src/app/admin/seo/page.tsx:13-14 | a row copies every configuration field unchanged |
| AdminSeoPage.MergeRows | src/app/admin/seo/page.tsx:11 | one row per configured page |
| AdminSeoPage.AdminSeoPageView | src/app/admin/seo/page.tsx:6-27 | the editor gets the table merged row by row with the stored entries, and the base URL resolved from the environment |
| AdminSeoPage.RowsFollowPages | src/app/admin/seo/page.tsx:11-18 | row `i` is built from page `i`: configuration copied; title and description `stored ?? default`; keywords `stored ?? default ?? ""` |
| AdminSeoPage.UnsavedRowShowsDefaults | src/app/admin/seo/page.tsx:15-17 | with nothing stored, a row shows the page's defaults, with keywords "" when it has none |
| AdminSeoPage.FirstEntryWins | src/app/admin/seo/page.tsx:12-19 | the first stored entry with the slug is the one shown; a column it leaves null shows the page default, not a later entry's value |
| AdminSeoPage.FindSkips | src/app/admin/seo/page.tsx:12 | `find` is unaffected by a non-matching element anywhere |
| AdminSeoPage.UnconfiguredEntryIgnored | src/app/admin/seo/page.tsx:12 | a stored entry with an unconfigured slug changes no row |
| AdminSeoPage.AdminRowsMatchTable | src/app/admin/seo/page.tsx:11 | the nine rows follow the table's order, slugs and paths |
| SeoAction.StoreLog.Save | src/server-actions/seo.ts:15-20 | the store is called once with the four fields, and its result is passed on |
| SeoAction.CacheLog.RevalidatePath | src/server-actions/seo.ts:27 | one path is appended to the revalidation log |
| SeoAction.RevalidationsFor | src/server-actions/seo.ts:22-31 | nothing after a failed save; after a success the list ends with "/admin/seo" |
| SeoAction.UpsertSeoEntryAction | src/server-actions/seo.ts:14-35 | the payload goes to the store unchanged, the revalidations for the save's outcome are logged, and the store's result is returned as it is |
| SeoAction.RevalidateAfterSave | src/server-actions/seo.ts:22-32 | the revalidations logged are exactly those for the outcome and the page found |
| SeoAction.FailedSaveRevalidatesNothing | src/server-actions/seo.ts:22 | a failed save revalidates no path |
| SeoAction.KnownSlugRevalidated | src/server-actions/seo.ts:24-31 | a successful save of a configured page revalidates its path, then "/admin/seo" |
| SeoAction.UnknownSlugRevalidatesAdminOnly | src/server-actions/seo.ts:26-31 | a successful save of an unknown slug revalidates only "/admin/seo" |
| SeoManager.Filter | src/components/admin/seo/SeoManager.tsx:31-34 | the shown rows are rows of the list that match the query |
| SeoManager.FilterKeepsMatches | src/components/admin/seo/SeoManager.tsx:31-34 | every matching row is shown |
| SeoManager.FilterAppend | src/components/admin/seo/SeoManager.tsx:31-34 | filtering works piece by piece, so list order is kept |
| SeoManager.FilterEmptyQuery | src/components/admin/seo/SeoManager.tsx:31-34 | the empty query shows every row |
| SeoManager.SetField | src/components/admin/seo/SeoManager.tsx:79 | the named key takes the value and every other key keeps its value |
| SeoManager.FieldsDetermineRow | src/components/admin/seo/SeoManager.tsx:8-18 | a row is determined by its nine keys |
| SeoManager.UpdateRows | src/components/admin/seo/SeoManager.tsx:77-81 | the update keeps the number of rows |
| SeoManager.ReplaceRows | src/components/admin/seo/SeoManager.tsx:70-72 | the replacement keeps the number of rows |
| SeoManager.UpdateChangesOnlyNamedField | src/components/admin/seo/SeoManager.tsx:77-81 | an update changes only the named key of the rows with the slug |
| SeoManager.CancelDiscardsUpdates | src/components/admin/seo/SeoManager.tsx:67-75 | cancelling after an edit of a non-slug key gives the same rows as cancelling without it |
| SeoManager.PayloadOf | src/components/admin/seo/SeoManager.tsx:46-51 | the save sends the row's slug, title and description; keywords are sent exactly when non-empty |
| SeoManager.LengthFlagsAreAdvisory | src/components/admin/seo/SeoManager.tsx:163-167 | a row over the 60 or 155 limit is still sent unchanged |
| SeoManager.StripScheme | src/components/admin/seo/SeoManager.tsx:119 | a leading "https://" or "http://" is removed, case-sensitively, and nothing else |
| SeoManager.FullUrl | src/components/admin/seo/SeoManager.tsx:119 | the shown address is the upper-cased host part followed by the path |
| SeoManager.Manager.constructor | src/components/admin/seo/SeoManager.tsx:25-29 | the base URL defaults only when absent; no query, no row open, not saving |
| SeoManager.Manager.SetSearchQuery | src/components/admin/seo/SeoManager.tsx:93 | only the query changes |
| SeoManager.Manager.HandleEdit | src/components/admin/seo/SeoManager.tsx:36-38 | the row is opened and no rows change, so a previous row keeps its edits |
| SeoManager.Manager.UpdatePage | src/components/admin/seo/SeoManager.tsx:77-81 | the rows become their update; nothing else changes |
| SeoManager.Manager.HandleCancel | src/components/admin/seo/SeoManager.tsx:67-75 | rows with the slug get the mount-time row back, or stay as they are if there is none; no row stays open |
| SeoManager.Manager.HandleSaveStart | src/components/admin/seo/SeoManager.tsx:40-51 | an unknown slug does nothing; otherwise saving starts with the row's payload |
| SeoManager.Manager.HandleSaveFinish | src/components/admin/seo/SeoManager.tsx:53-64 | only a successful result closes the row; saving ends in every case |
| SeoManager.Manager.ClickSave | src/components/admin/seo/SeoManager.tsx:209-210 | a click while saving sends nothing and keeps the saving flag; otherwise it is the start of `handleSave`: no payload and no change for an unknown slug, else the row's payload and saving starts; rows, query and open row never change |
| SeoManager.Manager.ClickCancel | src/components/admin/seo/SeoManager.tsx:216-217 | a click while saving changes nothing; otherwise it is `handleCancel`: the mount-time row comes back and no row stays open; query and saving flag are kept |
| Url.EnsureAbsoluteUrl | src/utils/url.ts:6-25 | no result exactly for an absent or blank input; every result starts with "http://" or "https://" |
| Url.UrlCases | src/utils/url.ts:7-24 | the four outcomes by what the trimmed input starts with |
| Url.UpperCaseSchemeNotRecognised | src/utils/url.ts:14 | "HTTP://x" gets a second scheme, as the test is case-sensitive |
| Url.ResultTrimmed | src/utils/url.ts:11-24 | a result has no white space at either end |
| Url.UrlIdempotent | src/utils/url.ts:6-25 | normalising twice is normalising once |
| BubbleMenu.CeilThird | src/components/core/BubbleMenu.tsx:142 | `ceil(n/3)` is the least `c` with `3c >= n` |
| BubbleMenu.Slice | src/components/core/BubbleMenu.tsx:170 | `slice` clamps to the length and is the plain slice in range |
| BubbleMenu.Render | src/components/core/BubbleMenu.tsx:38-41 | nothing is rendered exactly when the menu is closed |
| BubbleMenu.ItemsStagger | src/components/core/BubbleMenu.tsx:149 | numbering a column keeps its links |
| BubbleMenu.ColumnsPartitionLinks | src/components/core/BubbleMenu.tsx:142-198 | the three columns, read in order, are exactly the links |
| BubbleMenu.ColumnSizes | src/components/core/BubbleMenu.tsx:142-198 | each column has at most `ceil(n/3)` links; four links give 2, 2 and 0, and one link gives 1, 0 and 0 |
| BubbleMenu.StaggerIsPosition | src/components/core/BubbleMenu.tsx:149-205 | every link's stagger index is its position in the links |
| BubbleMenu.MenuDefaults | src/components/core/BubbleMenu.tsx:38 | the defaults are "Start In 60 Seconds" and "/images/brightlogo.png" |
| BubbleMenu.Socials | src/components/core/BubbleMenu.tsx:255-296 | no more icons than listed networks, and only for listed networks |
| BubbleMenu.SocialIconsDistinct | src/components/core/BubbleMenu.tsx:255-296 | with each network listed once, no two icons share a network |
| BubbleMenu.SocialIconsSound | src/components/core/BubbleMenu.tsx:255-296 | every icon links to its network's normalised, absolute URL |
| BubbleMenu.SocialIconsComplete | src/components/core/BubbleMenu.tsx:255-296 | every network with a non-blank field gets an icon |
| Header.HiddenOnAdminPaths | src/components/core/Header.tsx:35-37 | the header hides on "/admin", "/admin/seo" and "/administrator", shows on "/about-us", on "/Admin" (the prefix test is case-sensitive) and with no pathname, and stays hidden on every extension of a hidden path |
| Header.HeaderState.constructor | src/components/core/Header.tsx:25-27 | the prop defaults apply, and the menu starts closed |
| Header.HeaderState.Mount | src/components/core/Header.tsx:30-32 | mounting sets the loaded flag only |
| Header.HeaderState.ToggleMenu | src/components/core/Header.tsx:99 | a menu-button click negates the open flag, so two clicks restore it |
| Header.HeaderState.CloseMenu | src/components/core/Header.tsx:134 | closing leaves the menu closed |
| Header.HeaderState.MenuProps | src/components/core/Header.tsx:132-151 | hidden exactly on admin paths; otherwise both menus get the same open flag, text and logo |
| Header.ButtonTextDefaultsDiffer | src/components/core/Header.tsx:25 | the header's default "Start in 60 Seconds" differs from the menu's default |
| SectionTitles.TitleOr | src/components/admin/about-us-inputs.tsx:40-42 | the stored title if truthy, else the fallback |
| SectionTitles.TitleEditor.constructor | src/components/admin/about-us-inputs.tsx:39-45 | nothing is being edited and the buffer is "" |
| SectionTitles.TitleEditor.Edit | src/components/admin/about-us-inputs.tsx:50-53 | the key is being edited and its title is in the buffer |
| SectionTitles.TitleEditor.EditOrBlank | src/components/admin/privacy-policy-inputs.tsx:137-140 | as `Edit`, but a missing or empty title gives "" |
| SectionTitles.TitleEditor.Type | src/components/admin/about-us-inputs.tsx:131 | typing changes only the buffer |
| SectionTitles.TitleEditor.Save | src/components/admin/about-us-inputs.tsx:55-62 | the buffer becomes that key's title; editing ends |
| SectionTitles.TitleEditor.Cancel | src/components/admin/about-us-inputs.tsx:64-67 | editing ends and the titles are unchanged |
| SectionTitles.SaveWritesOneKey | src/components/admin/about-us-inputs.tsx:56-59 | saving writes only the given key |
| SectionTitles.EditThenSaveKeeps | src/components/admin/about-us-inputs.tsx:50-59 | editing and saving at once keeps an existing title |
| AboutUsInputs.InitialFields | src/components/admin/about-us-inputs.tsx:13-36 | one starting value per listed field |
| AboutUsInputs.InitialTitles | src/components/admin/about-us-inputs.tsx:39-43 | the titles are exactly hero, tabs and youtube, each the truthy stored title or "Hero Section", "Content Tabs", "YouTube Video" |
| AboutUsInputs.AboutUsForm.constructor | src/components/admin/about-us-inputs.tsx:13-45 | the fields and titles start from the stored content |
| AboutUsInputs.AboutUsForm.SetField | src/components/admin/about-us-inputs.tsx:13-36 | a setter changes only its field |
| AboutUsInputs.AboutUsForm.HandleSave | src/components/admin/about-us-inputs.tsx:69-96 | the payload is built from the current fields and titles |
| AboutUsInputs.InitialDefaults | src/components/admin/about-us-inputs.tsx:14-36 | falsy images start as "/placeholder.jpg", a falsy video id as "", and other fields as stored |
| AboutUsInputs.PayloadReplacesContent | src/components/admin/about-us-inputs.tsx:69-95 | top-level props are kept; `content` is exactly the twenty fields and `sectionTitles`, so other stored fields are dropped |
| AboutUsInputs.FieldCount | src/components/admin/about-us-inputs.tsx:73-92 | twenty distinct fields, the six images among them |
| FooterInputs.InitialTitles | src/components/admin/footer-inputs.tsx:28-31 | the titles are exactly logo and content, each the truthy stored title or "Footer Logo", "Footer Content" |
| FooterInputs.FooterForm.constructor | src/components/admin/footer-inputs.tsx:13-33 | the fields and titles start from the stored content |
| FooterInputs.FooterForm.SetField | src/components/admin/footer-inputs.tsx:243-363 | a setter or checkbox changes only its field |
| FooterInputs.FooterForm.HandleSave | src/components/admin/footer-inputs.tsx:56-79 | the payload is built from the current fields and titles |
| FooterInputs.PayloadKeepsProps | src/components/admin/footer-inputs.tsx:57-59 | top-level props are kept and `content` becomes the saved content |
| FooterInputs.SavedContentKeepsUnlisted | src/components/admin/footer-inputs.tsx:59-77 | unlisted stored fields are kept; the fields take the form's values; the logo is kept or defaults to "/images/brightlogo.png"; social links are saved as stored |
| FooterInputs.FieldNamesLeaveExtras | src/components/admin/footer-inputs.tsx:61-76 | the form's fields never clash with the logo, social or title keys |
| FormFields.StartingFields | src/components/admin/contact-inputs.tsx:13-23 | one starting value per listed field, in both the contact and the footer form |
| FormFields.StartingValues | src/components/admin/footer-inputs.tsx:15-25 | a bold flag starts false only when nothing is stored, a stored falsy value is kept, and other fields start as stored |
| ContactInputs.InitialTitles | src/components/admin/contact-inputs.tsx:26-29 | the titles are exactly hero and contact, each the truthy stored title or "Hero Section", "Contact Information Section" |
| ContactInputs.ContactForm.constructor | src/components/admin/contact-inputs.tsx:13-31 | the fields and titles start from the stored content |
| ContactInputs.ContactForm.SetField | src/components/admin/contact-inputs.tsx:13-23 | a setter or checkbox changes only its field |
| ContactInputs.ContactForm.HandleSave | src/components/admin/contact-inputs.tsx:54-73 | the payload is built from the current fields and titles |
| ContactInputs.PayloadKeepsProps | src/components/admin/contact-inputs.tsx:55-57 | top-level props are kept and `content` becomes the saved content |
| ContactInputs.SavedContentKeepsUnlisted | src/components/admin/contact-inputs.tsx:57-70 | unlisted stored fields are kept, the fields take the form's values, and the titles are the edited ones |
| ContactInputs.UnchangedSaveFillsBoldFlags | src/components/admin/contact-inputs.tsx:14-22 | saving straight after loading writes `false` for a missing bold flag and keeps a stored one |
| PrivacyPolicyInputs.SectionKey | src/components/admin/privacy-policy-inputs.tsx:127 | every key is "section" followed by a number |
| PrivacyPolicyInputs.SectionKeyInjective | src/components/admin/privacy-policy-inputs.tsx:127 | distinct sections have distinct keys |
| PrivacyPolicyInputs.SectionCount | src/components/admin/privacy-policy-inputs.tsx:46-70 | twenty-three labels, each with its own key |
| PrivacyPolicyInputs.SectionKeyNotTitles | src/components/admin/privacy-policy-inputs.tsx:162-185 | no section key is `sectionTitles` |
| PrivacyPolicyInputs.InitialTitles | src/components/admin/privacy-policy-inputs.tsx:124-131 | keys exactly `section1`..`section23`, each the stored title if truthy, else "Section i - label"; other stored keys are not carried over |
| PrivacyPolicyInputs.InitialFields | src/components/admin/privacy-policy-inputs.tsx:73-95 | one starting value per section |
| PrivacyPolicyInputs.PrivacyPolicyForm.constructor | src/components/admin/privacy-policy-inputs.tsx:73-133 | the sections and titles start from the stored content |
| PrivacyPolicyInputs.PrivacyPolicyForm.SetSection | src/components/admin/privacy-policy-inputs.tsx:97-121 | a setter changes only its section |
| PrivacyPolicyInputs.PrivacyPolicyForm.HandleSave | src/components/admin/privacy-policy-inputs.tsx:156-188 | the payload is built from the current sections and titles |
| PrivacyPolicyInputs.PayloadShape | src/components/admin/privacy-policy-inputs.tsx:156-188 | the payload is exactly the title, description, slug and content; content is exactly the sections and the titles |
| PrivacyPolicyInputs.DefaultTitles | src/components/admin/privacy-policy-inputs.tsx:47-69 | the first and last default titles, numbered from one |
| SiteLogoInputs.InitialLogo | src/components/admin/site-logo-inputs.tsx:12-14 | the logo starts truthy: the stored one if truthy, else the default |
| SiteLogoInputs.SiteLogoForm.constructor | src/components/admin/site-logo-inputs.tsx:11-14 | the logo starts from the stored content |
| SiteLogoInputs.SiteLogoForm.OnImageChange | src/components/admin/site-logo-inputs.tsx:56 | the chosen image becomes the logo |
| SiteLogoInputs.SiteLogoForm.HandleSave | src/components/admin/site-logo-inputs.tsx:18-26 | the payload carries the current logo |
| SiteLogoInputs.SaveChangesOnlyLogo | src/components/admin/site-logo-inputs.tsx:18-26 | only `content.siteLogo` changes; every other prop and content field is kept |
| SiteLogoInputs.UnchangedSaveIsIdentity | src/components/admin/site-logo-inputs.tsx:12-26 | saving a stored truthy logo unchanged gives the props back |
| SiteLogoInputs.MissingLogoSavesDefault | src/components/admin/site-logo-inputs.tsx:13 | without a stored logo the default is saved |

## Left out

- The data layer (`fetchSeoEntry`, `fetchSeoEntries`, `saveSeoEntry`, `getPage`, `updatePage`) is storage I/O whose code is not part of this model. What it returns is a parameter, and what the forms send it is the payload their `HandleSave` returns.
- Next.js `revalidatePath` is recorded in a plain log of paths, not performed. `src/server-actions/revalidate.ts` is not part of this model.
- The constant `robots` block of the metadata has no logic and is not modelled.
- Rendering is not modelled: JSX, styling, images, toasts, console output and the mobile menu's layout. `BubbleMenuMobile` is not part of this model. The header's `MenuProps` gives the props it passes to it.
- Animation delays are floating-point values; only the integer stagger index behind them is modelled.
- The `maxLength` attributes of the title and description inputs are enforced by the browser, not the code, and are not modelled.
- The save is asynchronous. `SeoManager.Manager.HandleSaveStart` and `HandleSaveFinish` are its two halves; interleavings between them are not modelled.
- The `useEffect` mount timing is not modelled. `Header.HeaderState.Mount` is the effect's body.
- Strings are sequences of Unicode scalar values, so `|s|` counts code points, while JavaScript's `.length` counts UTF-16 code units.
- SeoManager.TitleOverLimit, SeoManager.DescriptionOverLimit: a character outside the Basic Multilingual Plane counts once in the model and twice in the source, so 31 emoji are 31 characters here but 62 units (over the 60 limit) in the editor.
- `Text.ToLower`, `Text.ToUpper`: only ASCII letters change case, unlike the Unicode-wide JavaScript functions.
- `SeoManager.SetField`: `updatePage` can also name a key outside the nine row keys, adding a new key to the row. The model's rows have exactly the nine keys.
- `AdminSeoPage.MergeRow`: the row spreads the whole configuration, so it also carries `revalidatePaths`. No table entry sets that field, and the editor never reads it, so rows leave it out.
- `SeoMetadata.BuildPageMetadata`: overrides are limited to the six keys the builder computes. Other `Metadata` keys an override can add are not modelled.
- The content forms' non-title `Js.Value` fields are left untyped. Which values the inputs produce (text, booleans from checkboxes, image URLs) is not constrained.
