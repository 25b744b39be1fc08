/**
 * The request proxy (src/proxy.ts): static and PWA assets pass untouched; a
 * request without a locale cookie gets one, chosen from `Accept-Language`.
 */
module LocaleProxy {
  import opened Wrappers
  import opened Text

  /** Path prefixes of the PWA and static assets. */
  const PublicAssets: seq<string> := ["/manifest.json", "/sw.js", "/workbox-", "/icons/", "/favicon.ico"]

  const LocaleCookie := "NEXT_LOCALE"
  const DefaultLocale := "he"
  /** One year, in seconds. */
  const OneYear := 60 * 60 * 24 * 365

  /** The cookie the proxy sets. */
  datatype Cookie = Cookie(name: string, value: string, maxAge: int, path: string)

  /** No response (the request goes on untouched), the next handler, or the next handler with a cookie set. */
  datatype Outcome = Skip | Next | NextWithCookie(cookie: Cookie)

  predicate IsPublicAsset(pathname: string) {
    exists i :: 0 <= i < |PublicAssets| && StartsWith(pathname, PublicAssets[i])
  }

  /**
   * The locale for an `Accept-Language` header (`None` when absent): "en" when
   * it mentions "en" but not "he", otherwise "he".
   */
  function DetectLocale(acceptLanguage: Option<string>): (locale: string)
    ensures locale == "he" || locale == "en"
    ensures locale == "en" <==>
      acceptLanguage.Some? && Contains(acceptLanguage.value, "en") && !Contains(acceptLanguage.value, "he")
    ensures acceptLanguage.None? ==> locale == DefaultLocale
    ensures acceptLanguage.Some? && Contains(acceptLanguage.value, "he") ==> locale == "he"
  {
    var detected := DefaultLocale;
    if acceptLanguage.Some? && acceptLanguage.value != "" then
      if Contains(acceptLanguage.value, "en") && !Contains(acceptLanguage.value, "he") then "en"
      else if Contains(acceptLanguage.value, "he") then "he"
      else detected
    else
      assert acceptLanguage.Some? ==> !Contains(acceptLanguage.value, "en") by {
        if acceptLanguage.Some? {
          assert !StartsWith(acceptLanguage.value, "en");
        }
      }
      detected
  }

  /** What the proxy does with a request for `pathname` carrying cookies named `cookies`. */
  function Proxy(pathname: string, cookies: set<string>, acceptLanguage: Option<string>): (r: Outcome)
    ensures IsPublicAsset(pathname) <==> r.Skip?
    ensures !IsPublicAsset(pathname) ==> (LocaleCookie in cookies <==> r.Next?)
    ensures r.NextWithCookie? ==>
      && r.cookie.name == LocaleCookie
      && r.cookie.value == DetectLocale(acceptLanguage)
      && (r.cookie.value == "he" || r.cookie.value == "en")
      && r.cookie.maxAge == 31536000
      && r.cookie.path == "/"
  {
    if IsPublicAsset(pathname) then Skip
    else if LocaleCookie !in cookies then
      NextWithCookie(Cookie(LocaleCookie, DetectLocale(acceptLanguage), OneYear, "/"))
    else Next
  }

  /** Requests for the service worker and the icons are skipped; a fresh visit to a page gets "he" by default. */
  lemma ProxyExamples()
    ensures Proxy("/sw.js", {}, None) == Skip
    ensures Proxy("/icons/icon-192.png", {LocaleCookie}, None) == Skip
    ensures Proxy("/products", {LocaleCookie}, Some("en-US")) == Next
    ensures Proxy("/products", {}, None) == NextWithCookie(Cookie(LocaleCookie, "he", OneYear, "/"))
  {
    assert StartsWith("/sw.js", PublicAssets[1]);
    assert StartsWith("/icons/icon-192.png", PublicAssets[3]);
    assert !IsPublicAsset("/products") by {
      forall i | 0 <= i < |PublicAssets| ensures !StartsWith("/products", PublicAssets[i]) {
        assert "/products"[1] == 'p';
      }
    }
  }
}
