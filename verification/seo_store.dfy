/**
  * The shapes that cross the SEO storage boundary. The storage client itself
  * (fetch one entry, fetch all entries, save one entry) is not part of this model:
  * what it returns is an input to the operations that use it.
  */
module SeoStore {
  import opened Wrappers

  /** A stored SEO row; a `null` column is `None`. */
  datatype SeoEntry = SeoEntry(
    slug: string,
    metaTitle: Option<string>,
    metaDescription: Option<string>,
    keywords: Option<string>)

  /** What saving an entry resolves to: `{ success: true }` or `{ success: false, error }`. */
  datatype SaveResult = SaveResult(success: bool, error: Option<string>)
}
