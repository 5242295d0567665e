/** The compiled-in table of pages whose SEO metadata the admin can edit, keyed by slug. */
module SeoPages {
  import opened Wrappers
  import opened Text
  import Arrays

  datatype SeoPageConfig = SeoPageConfig(
    slug: string,
    path: string,
    displayLabel: string,
    defaultTitle: string,
    defaultDescription: string,
    defaultKeywords: Option<string>,
    revalidatePaths: Option<seq<string>>)

  /** The nine known pages, in declaration order. */
  const Table: seq<SeoPageConfig> := [
    SeoPageConfig("home", "/", "Home",
      "Bright Leasing | Novated Leasing Made Easy",
      "The smartest way to own and run a car. Novated leasing made easy \U{2014} save money, skip the hassle, and enjoy the car you really want.",
      Some("novated leasing, salary packaging, car leasing, vehicle finance, Bright Leasing"), None),
    SeoPageConfig("about", "/about-us", "About Us",
      "About Us | Bright Leasing",
      "Learn about Bright Leasing and our mission to make car ownership simple and affordable through novated leasing.",
      Some("about Bright Leasing, novated leasing company, car leasing experts"), None),
    SeoPageConfig("contact", "/contact", "Contact",
      "Contact Us | Bright Leasing",
      "Get in touch with Bright Leasing. Have questions about novated leasing? We're here to help!",
      Some("contact Bright Leasing, novated leasing inquiry, car leasing contact"), None),
    SeoPageConfig("blog", "/blog", "Blog",
      "Blog | Bright Leasing",
      "Read the latest articles and insights about novated leasing, car ownership, and vehicle finance.",
      Some("novated leasing blog, car leasing articles, vehicle finance tips"), None),
    SeoPageConfig("faqs", "/faqs", "FAQs",
      "Frequently Asked Questions | Bright Leasing",
      "Find answers to common questions about novated leasing, salary packaging, and car ownership.",
      Some("novated leasing FAQ, salary packaging questions, car leasing FAQ"), None),
    SeoPageConfig("team", "/team", "Team",
      "Our Team | Bright Leasing",
      "Meet the team at Bright Leasing, dedicated to making your car ownership journey simple and affordable.",
      Some("Bright Leasing team, novated leasing experts, car leasing professionals"), None),
    SeoPageConfig("privacy-policy", "/privacy-policy", "Privacy Policy",
      "Privacy Policy | Bright Leasing",
      "Read our privacy policy to understand how Bright Leasing collects, uses, and protects your personal information.",
      Some("privacy policy, data protection, Bright Leasing privacy"), None),
    SeoPageConfig("terms-and-conditions", "/terms-and-conditions", "Terms and Conditions",
      "Terms and Conditions | Bright Leasing",
      "Review the terms and conditions for using Bright Leasing services and novated leasing products.",
      Some("terms and conditions, Bright Leasing terms, novated leasing terms"), None),
    SeoPageConfig("terms-of-use", "/terms-of-use", "Terms of Use",
      "Terms of Use | Bright Leasing",
      "Read the terms of use for the Bright Leasing website and online services.",
      Some("terms of use, website terms, Bright Leasing terms"), None)
  ]

  /** `seoPages.find((page) => page.slug === slug)` */
  function FindPage(slug: string): Option<SeoPageConfig> {
    Arrays.Find(Table, (p: SeoPageConfig) => p.slug == slug)
  }

  /** No two entries share a slug. */
  predicate DistinctSlugs(pages: seq<SeoPageConfig>) {
    forall i, j | 0 <= i < j < |pages| :: pages[i].slug != pages[j].slug
  }

  /** The table has nine entries and its slugs are pairwise distinct. */
  lemma TableShape()
    ensures |Table| == 9
    ensures DistinctSlugs(Table)
  {
  }

  /**
    * Every entry has a site-relative path, a non-empty default title and description and
    * a default keyword list, and none sets `revalidatePaths`.
    */
  lemma TableEntries()
    ensures forall i | 0 <= i < |Table| ::
      && StartsWith(Table[i].path, "/")
      && Table[i].defaultTitle != ""
      && Table[i].defaultDescription != ""
      && Table[i].defaultKeywords.Some?
      && Table[i].revalidatePaths.None?
  {
  }

  /** A configured page's path is site-relative, so never empty. */
  lemma TablePaths(p: SeoPageConfig)
    requires p in Table
    ensures StartsWith(p.path, "/") && p.path != ""
  {
    TableEntries();
  }

  /** Since slugs are distinct, looking a slug up gives the one entry with that slug, or none. */
  lemma FindPageExact(slug: string, p: SeoPageConfig)
    ensures FindPage(slug) == Some(p) <==> p in Table && p.slug == slug
  {
    TableShape();
    Arrays.FindUnique(Table, (q: SeoPageConfig) => q.slug == slug, p);
  }

  /** An unknown slug finds nothing. */
  lemma FindPageUnknown(slug: string)
    ensures FindPage(slug).None? <==> forall i | 0 <= i < |Table| :: Table[i].slug != slug
  {
  }
}
