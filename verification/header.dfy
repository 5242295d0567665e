/**
  * The site header: hidden on the admin pages, otherwise the logo, the call-to-action and a
  * menu button that opens and closes the navigation menu, shared by the desktop and mobile
  * layouts.
  */
module Header {
  import opened Wrappers
  import opened Text
  import BubbleMenu

  const DefaultButtonText: string := "Start in 60 Seconds"
  const DefaultLogo: string := "/images/brightlogo.png"
  const AdminPrefix: string := "/admin"

  /** `pathname?.startsWith('/admin')`: an unknown path shows the header. */
  predicate Hidden(pathname: Option<string>) {
    pathname.Some? && StartsWith(pathname.value, AdminPrefix)
  }

  /**
    * The header is hidden on "/admin" and on every path that extends a hidden one, such as
    * "/administrator"; the test is a case-sensitive prefix, so "/Admin" shows the header.
    */
  lemma HiddenOnAdminPaths(pathname: Option<string>, suffix: string)
    ensures !Hidden(None)
    ensures Hidden(Some("/admin"))
    ensures Hidden(Some("/admin/seo"))
    ensures Hidden(Some("/administrator"))
    ensures !Hidden(Some("/about-us"))
    ensures !Hidden(Some("/Admin"))
    ensures Hidden(pathname) ==> Hidden(Some(pathname.value + suffix))
  {
    assert "/admin/seo"[..6] == "/admin";
    assert "/administrator"[..6] == "/admin";
    assert "/about-us"[..6] != "/admin" by { assert "/about-us"[2] != "/admin"[2]; }
    assert "/Admin"[..6] != "/admin" by { assert "/Admin"[1] != "/admin"[1]; }
    if Hidden(pathname) {
      assert (pathname.value + suffix)[..|AdminPrefix|] == pathname.value[..|AdminPrefix|];
    }
  }

  class HeaderState {
    const headerButtonText: string
    const siteLogo: string
    const socialMedia: Option<BubbleMenu.SocialMedia>
    var isLoaded: bool
    var isMenuOpen: bool

    /** The props, with their defaults for the absent ones, and both flags off. */
    constructor(headerButtonText: Option<string>, siteLogo: Option<string>, socialMedia: Option<BubbleMenu.SocialMedia>)
      ensures this.headerButtonText == headerButtonText.GetOr(DefaultButtonText)
      ensures this.siteLogo == siteLogo.GetOr(DefaultLogo)
      ensures this.socialMedia == socialMedia
      ensures !isLoaded && !isMenuOpen
    {
      this.headerButtonText := headerButtonText.GetOr(DefaultButtonText);
      this.siteLogo := siteLogo.GetOr(DefaultLogo);
      this.socialMedia := socialMedia;
      isLoaded := false;
      isMenuOpen := false;
    }

    /** The mount effect: the entrance animation starts. */
    method Mount()
      modifies this
      ensures isLoaded && isMenuOpen == old(isMenuOpen)
    {
      isLoaded := true;
    }

    /** Either menu button: the menu flips between open and closed. */
    method ToggleMenu()
      modifies this
      ensures isMenuOpen == !old(isMenuOpen) && isLoaded == old(isLoaded)
    {
      isMenuOpen := !isMenuOpen;
    }

    /** The menu's `onClose`: the menu is closed whatever it was. */
    method CloseMenu()
      modifies this
      ensures !isMenuOpen && isLoaded == old(isLoaded)
    {
      isMenuOpen := false;
    }

    /**
      * The props both menus get: the same open flag, button text, logo and social profiles,
      * so the menu's own defaults are never used from here. Nothing when the header is hidden.
      */
    function MenuProps(pathname: Option<string>): (r: Option<BubbleMenu.MenuProps>)
      reads this
      ensures r.None? <==> Hidden(pathname)
      ensures r.Some? ==> r.value.isOpen == isMenuOpen
      ensures r.Some? ==> r.value.headerButtonText == Some(headerButtonText) && r.value.siteLogo == Some(siteLogo)
    {
      if Hidden(pathname) then None
      else Some(BubbleMenu.MenuProps(isMenuOpen, Some(headerButtonText), Some(siteLogo), socialMedia))
    }
  }

  /** The header's text default differs from the menu's in the case of one letter. */
  lemma ButtonTextDefaultsDiffer()
    ensures DefaultButtonText != BubbleMenu.DefaultButtonText
  {
    assert DefaultButtonText[6] != BubbleMenu.DefaultButtonText[6];
  }
}
