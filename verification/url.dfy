/** Normalising a user-entered link (a social profile, say) into an absolute external URL. */
module Url {
  import opened Wrappers
  import opened Text

  /**
    * `ensureAbsoluteUrl(url)`: nothing for a null, empty or all-white-space input; otherwise
    * the trimmed input, prefixed with "https:" when it is protocol-relative ("//...") and with
    * "https://" when it has no "http://" or "https://" scheme.
    */
  function EnsureAbsoluteUrl(url: Option<string>): (r: Option<string>)
    ensures r.None? <==> url.None? || Trim(url.value) == ""
    ensures r.Some? ==> StartsWith(r.value, "http://") || StartsWith(r.value, "https://")
  {
    if url.None? || url.value == "" || Trim(url.value) == "" then None
    else
      var trimmed := Trim(url.value);
      if StartsWith(trimmed, "http://") || StartsWith(trimmed, "https://") then Some(trimmed)
      else if StartsWith(trimmed, "//") then
        var r := "https:" + trimmed;
        assert r[..8] == "https:" + trimmed[..2];
        Some(r)
      else
        var r := "https://" + trimmed;
        assert r[..8] == "https://";
        Some(r)
  }

  /** The four outcomes, by what the trimmed input starts with; the scheme test is case-sensitive. */
  lemma UrlCases(url: string)
    ensures var t := Trim(url);
      && (t == "" ==> EnsureAbsoluteUrl(Some(url)) == None)
      && (t != "" && (StartsWith(t, "http://") || StartsWith(t, "https://")) ==> EnsureAbsoluteUrl(Some(url)) == Some(t))
      && (t != "" && !StartsWith(t, "http://") && !StartsWith(t, "https://") && StartsWith(t, "//") ==>
            EnsureAbsoluteUrl(Some(url)) == Some("https:" + t))
      && (t != "" && !StartsWith(t, "http://") && !StartsWith(t, "https://") && !StartsWith(t, "//") ==>
            EnsureAbsoluteUrl(Some(url)) == Some("https://" + t))
  {
  }

  /** An upper-case scheme is not recognised, so it gets a second one in front. */
  lemma UpperCaseSchemeNotRecognised()
    ensures EnsureAbsoluteUrl(Some("HTTP://x")) == Some("https://HTTP://x")
  {
    var u := "HTTP://x";
    assert Trim(u) == u by { TrimFixed(u); }
    assert u[0] == 'H';
    UrlCases(u);
    assert "https://" + u == "https://HTTP://x";
  }

  /** A result has no white space at either end. */
  lemma ResultTrimmed(url: Option<string>)
    requires EnsureAbsoluteUrl(url).Some?
    ensures Trim(EnsureAbsoluteUrl(url).value) == EnsureAbsoluteUrl(url).value
  {
    var t := Trim(url.value);
    var r := EnsureAbsoluteUrl(url).value;
    TrimBounds(url.value);
    assert r[|r| - 1] == t[|t| - 1];
    assert r[0] == 'h';
    TrimFixed(r);
  }

  /** Normalising twice is normalising once. */
  lemma UrlIdempotent(url: Option<string>)
    ensures EnsureAbsoluteUrl(EnsureAbsoluteUrl(url)) == EnsureAbsoluteUrl(url)
  {
    var r := EnsureAbsoluteUrl(url);
    if r.Some? {
      ResultTrimmed(url);
      assert r.value != "";
    }
  }
}
