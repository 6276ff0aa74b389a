/**
 * The `site_config` context processor (home/context_processors.py): the
 * canonical URL of the page being rendered. When the `SITE_URL` setting is
 * non-empty it is that setting with every trailing `/` removed, followed by the
 * request path; otherwise it is the request's absolute URI, which the request
 * object builds and which is a parameter here.
 */
module ContextProcessors {

  /** `n` slashes. */
  function Slashes(n: nat): (s: string)
    ensures |s| == n && forall i :: 0 <= i < n ==> s[i] == '/'
  {
    seq(n, i => '/')
  }

  /** `s.rstrip(c)`: `s` without the run of `c` at its end. */
  function RStrip(s: string, c: char): (r: string)
    ensures |r| <= |s| && r == s[..|r|]
    ensures r == [] || r[|r| - 1] != c
    ensures forall i :: |r| <= i < |s| ==> s[i] == c
  {
    if |s| == 0 || s[|s| - 1] != c then s else RStrip(s[..|s| - 1], c)
  }

  /** The three properties of `RStrip` determine its result. */
  lemma RStripUnique(s: string, c: char, r: string)
    requires |r| <= |s| && r == s[..|r|]
    requires r == [] || r[|r| - 1] != c
    requires forall i :: |r| <= i < |s| ==> s[i] == c
    ensures r == RStrip(s, c)
  {
  }

  /** Stripping trailing slashes ignores how many there were. */
  lemma RStripSlashes(s: string, n: nat)
    ensures RStrip(s + Slashes(n), '/') == RStrip(s, '/')
  {
    var r := RStrip(s, '/');
    var t := s + Slashes(n);
    assert t[..|s|] == s;
    RStripUnique(t, '/', r);
  }

  /** A string that does not end in `c` is left as it is. */
  lemma RStripNoTrailing(s: string, c: char)
    requires s == [] || s[|s| - 1] != c
    ensures RStrip(s, c) == s
  {
  }

  /** The canonical URL. */
  function CanonicalUrl(siteUrl: string, path: string, absoluteUri: string): (r: string)
    ensures siteUrl == "" ==> r == absoluteUri
    ensures siteUrl != "" ==>
      && |path| <= |r| && r[|r| - |path|..] == path
      && |r| - |path| <= |siteUrl|
      && var prefix := r[..|r| - |path|];
         && (prefix == [] || prefix[|prefix| - 1] != '/')
         && siteUrl == prefix + Slashes(|siteUrl| - |prefix|)
  {
    if siteUrl != "" then
      var prefix := RStrip(siteUrl, '/');
      var r := prefix + path;
      assert r[..|r| - |path|] == prefix;
      assert siteUrl == prefix + Slashes(|siteUrl| - |prefix|);
      r
    else
      absoluteUri
  }

  /** Settings that differ only in the number of trailing slashes give the same URL. */
  lemma CanonicalUrlIgnoresTrailingSlashes(siteUrl: string, m: nat, n: nat, path: string, absoluteUri: string)
    requires siteUrl + Slashes(m) != "" && siteUrl + Slashes(n) != ""
    ensures CanonicalUrl(siteUrl + Slashes(m), path, absoluteUri) == CanonicalUrl(siteUrl + Slashes(n), path, absoluteUri)
  {
    RStripSlashes(siteUrl, m);
    RStripSlashes(siteUrl, n);
  }

  /** A setting without a trailing slash is used as it is. */
  lemma CanonicalUrlNoTrailingSlash(siteUrl: string, path: string, absoluteUri: string)
    requires siteUrl != "" && siteUrl[|siteUrl| - 1] != '/'
    ensures CanonicalUrl(siteUrl, path, absoluteUri) == siteUrl + path
  {
    RStripNoTrailing(siteUrl, '/');
  }
}
