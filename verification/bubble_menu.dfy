/**
  * The full-screen navigation menu: the site's links laid out in three columns, each link
  * numbered for its entrance animation, the call-to-action button, the logo and an icon per
  * configured social profile.
  */
module BubbleMenu {
  import opened Wrappers
  import opened Text
  import Url

  const DefaultButtonText: string := "Start In 60 Seconds"
  const DefaultLogo: string := "/images/brightlogo.png"

  datatype NavLink = NavLink(href: string, text: string)

  /** The social profile fields; each may be absent. */
  datatype SocialMedia = SocialMedia(
    instagram: Option<string>,
    facebook: Option<string>,
    youtube: Option<string>,
    pinterest: Option<string>,
    linkedin: Option<string>,
    tiktok: Option<string>)

  datatype Network = Instagram | Facebook | YouTube | Pinterest | LinkedIn | TikTok

  /** The networks in the order their icons are laid out. */
  const Networks: seq<Network> := [Instagram, Facebook, YouTube, Pinterest, LinkedIn, TikTok]

  function Profile(s: SocialMedia, n: Network): Option<string> {
    match n
    case Instagram => s.instagram
    case Facebook => s.facebook
    case YouTube => s.youtube
    case Pinterest => s.pinterest
    case LinkedIn => s.linkedin
    case TikTok => s.tiktok
  }

  datatype MenuProps = MenuProps(
    isOpen: bool,
    headerButtonText: Option<string>,
    siteLogo: Option<string>,
    socialMedia: Option<SocialMedia>)

  /** A rendered link and the index its animation delay is computed from. */
  datatype LinkItem = LinkItem(link: NavLink, staggerIndex: nat)

  datatype SocialIcon = SocialIcon(network: Network, href: string)

  datatype Rendered =
    | Nothing
    | Menu(buttonText: string, logo: string,
           left: seq<LinkItem>, middle: seq<LinkItem>, right: seq<LinkItem>,
           socials: seq<SocialIcon>)

  /** `Math.ceil(n / 3)` for a length `n`. */
  function CeilThird(n: nat): (c: nat)
    ensures 3 * c >= n && 3 * c < n + 3
  {
    (n + 2) / 3
  }

  /** `xs.slice(start, end)` for non-negative bounds: both are clamped to the length. */
  function Slice<T>(xs: seq<T>, start: nat, end: nat): (r: seq<T>)
    ensures |r| <= |xs|
    ensures start <= end <= |xs| ==> r == xs[start..end]
  {
    var s := if start <= |xs| then start else |xs|;
    var e := if end <= |xs| then end else |xs|;
    if s <= e then xs[s..e] else []
  }

  /** Numbers the links of a column from `offset`. */
  function Stagger(links: seq<NavLink>, offset: nat): (r: seq<LinkItem>)
    ensures |r| == |links|
  {
    seq(|links|, i requires 0 <= i < |links| => LinkItem(links[i], offset + i))
  }

  /** The three columns and their stagger offsets `0`, `c` and `2c`, where `c = ceil(n / 3)`. */
  function Columns(links: seq<NavLink>): (seq<LinkItem>, seq<LinkItem>, seq<LinkItem>) {
    var c := CeilThird(|links|);
    (Stagger(Slice(links, 0, c), 0),
     Stagger(Slice(links, c, c * 2), c),
     Stagger(Slice(links, c * 2, |links|), c * 2))
  }

  /** An icon for each network whose field is non-empty and normalises to a URL, linking to that URL. */
  function Socials(s: Option<SocialMedia>, networks: seq<Network>): (r: seq<SocialIcon>)
    ensures |r| <= |networks|
    ensures forall i | 0 <= i < |r| :: r[i].network in networks
  {
    if networks == [] || s.None? then []
    else
      var field := Profile(s.value, networks[0]);
      var href := Url.EnsureAbsoluteUrl(field);
      (if field.Some? && field.value != "" && href.Some? then [SocialIcon(networks[0], href.value)] else [])
      + Socials(s, networks[1..])
  }

  /** With each network listed once, no network gets two icons. */
  lemma {:induction false} SocialIconsDistinct(s: Option<SocialMedia>, networks: seq<Network>)
    requires forall i, j | 0 <= i < j < |networks| :: networks[i] != networks[j]
    ensures forall i, j | 0 <= i < j < |Socials(s, networks)| ::
      Socials(s, networks)[i].network != Socials(s, networks)[j].network
  {
    if networks != [] && s.Some? {
      var rest := Socials(s, networks[1..]);
      SocialIconsDistinct(s, networks[1..]);
      var field := Profile(s.value, networks[0]);
      if field.Some? && field.value != "" && Url.EnsureAbsoluteUrl(field).Some? {
        var r := Socials(s, networks);
        assert r == [SocialIcon(networks[0], Url.EnsureAbsoluteUrl(field).value)] + rest;
        forall i, j | 0 <= i < j < |r|
          ensures r[i].network != r[j].network
        {
          assert r[j] == rest[j - 1];
          if i == 0 {
            assert rest[j - 1].network in networks[1..];
            var k :| 0 <= k < |networks[1..]| && networks[1..][k] == rest[j - 1].network;
            assert networks[k + 1] != networks[0];
          } else {
            assert r[i] == rest[i - 1];
          }
        }
      } else {
        assert Socials(s, networks) == rest;
      }
    }
  }

  /** The menu for the given props and navigation links. */
  function Render(props: MenuProps, links: seq<NavLink>): (r: Rendered)
    ensures !props.isOpen <==> r.Nothing?
  {
    if !props.isOpen then Nothing
    else
      var (left, middle, right) := Columns(links);
      Menu(props.headerButtonText.GetOr(DefaultButtonText), props.siteLogo.GetOr(DefaultLogo),
           left, middle, right, Socials(props.socialMedia, Networks))
  }

  /** The links of a column. */
  function Items(items: seq<LinkItem>): (r: seq<NavLink>)
    ensures |r| == |items|
  {
    seq(|items|, i requires 0 <= i < |items| => items[i].link)
  }

  /** Numbering a column does not change its links. */
  lemma ItemsStagger(links: seq<NavLink>, offset: nat)
    ensures Items(Stagger(links, offset)) == links
  {
  }

  /** Read in order, the three columns are exactly the navigation links. */
  lemma ColumnsPartitionLinks(links: seq<NavLink>)
    ensures var cols := Columns(links);
      Items(cols.0) + Items(cols.1) + Items(cols.2) == links
  {
    var n := |links|;
    var c := CeilThird(n);
    var a := if c <= n then c else n;
    var b := if 2 * c <= n then 2 * c else n;
    assert Slice(links, 0, c) == links[..a];
    assert Slice(links, c, c * 2) == links[a..b];
    assert Slice(links, c * 2, n) == links[b..];
    ItemsStagger(links[..a], 0);
    ItemsStagger(links[a..b], c);
    ItemsStagger(links[b..], c * 2);
    assert links[..a] + links[a..b] + links[b..] == links;
  }

  /**
    * Each column holds at most `ceil(n / 3)` links; the later columns can be empty, so four
    * links are laid out two, two and none, and one link leaves the middle column empty too.
    */
  lemma ColumnSizes(links: seq<NavLink>)
    ensures var (left, middle, right) := Columns(links);
      var c := CeilThird(|links|);
      && |left| <= c && |middle| <= c && |right| <= c
      && (|links| == 4 ==> |left| == 2 && |middle| == 2 && right == [])
      && (|links| <= 1 ==> middle == [] && right == [])
  {
  }

  /** Every link's stagger index is its position in the navigation links. */
  lemma StaggerIsPosition(links: seq<NavLink>)
    ensures var (left, middle, right) := Columns(links);
      && (forall i | 0 <= i < |left| :: left[i].staggerIndex < |links| && links[left[i].staggerIndex] == left[i].link)
      && (forall i | 0 <= i < |middle| :: middle[i].staggerIndex < |links| && links[middle[i].staggerIndex] == middle[i].link)
      && (forall i | 0 <= i < |right| :: right[i].staggerIndex < |links| && links[right[i].staggerIndex] == right[i].link)
  {
  }

  /** A closed menu renders nothing; an open one falls back to the default button text and logo. */
  lemma MenuDefaults(links: seq<NavLink>, social: Option<SocialMedia>)
    ensures Render(MenuProps(false, None, None, social), links) == Nothing
    ensures var r := Render(MenuProps(true, None, None, social), links);
      r.Menu? && r.buttonText == DefaultButtonText && r.logo == DefaultLogo
  {
  }

  /** The icon links to its network's field, normalised; a normalised URL is absolute. */
  predicate LinksProfile(s: SocialMedia, icon: SocialIcon) {
    && Url.EnsureAbsoluteUrl(Profile(s, icon.network)) == Some(icon.href)
    && (StartsWith(icon.href, "http://") || StartsWith(icon.href, "https://"))
  }

  /**
    * Every icon belongs to a network whose field is present and normalises to a URL, and it
    * links to that normalised URL, which is absolute.
    */
  lemma {:induction false} SocialIconsSound(s: SocialMedia, networks: seq<Network>)
    ensures forall icon | icon in Socials(Some(s), networks) :: LinksProfile(s, icon)
  {
    if networks != [] {
      SocialIconsSound(s, networks[1..]);
      var rest := Socials(Some(s), networks[1..]);
      var field := Profile(s, networks[0]);
      if field.Some? && field.value != "" && Url.EnsureAbsoluteUrl(field).Some? {
        assert Socials(Some(s), networks) == [SocialIcon(networks[0], Url.EnsureAbsoluteUrl(field).value)] + rest;
      } else {
        assert Socials(Some(s), networks) == rest;
      }
    }
  }

  /** Every listed network whose field is present and not blank gets an icon. */
  lemma {:induction false} SocialIconsComplete(s: SocialMedia, networks: seq<Network>, n: Network)
    requires n in networks && Profile(s, n).Some? && Trim(Profile(s, n).value) != ""
    ensures exists i | 0 <= i < |Socials(Some(s), networks)| :: Socials(Some(s), networks)[i].network == n
  {
    var icons := Socials(Some(s), networks);
    var field := Profile(s, networks[0]);
    if field.Some? && field.value != "" && Url.EnsureAbsoluteUrl(field).Some? {
      if n == networks[0] {
        assert icons[0].network == n;
      } else {
        SocialIconsComplete(s, networks[1..], n);
        var rest := Socials(Some(s), networks[1..]);
        var i :| 0 <= i < |rest| && rest[i].network == n;
        assert icons[i + 1] == rest[i];
      }
    } else {
      assert n != networks[0] by {
        TrimEmpty("");
      }
      SocialIconsComplete(s, networks[1..], n);
      assert icons == Socials(Some(s), networks[1..]);
    }
  }
}
