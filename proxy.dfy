/** The route gate `proxy`: which requests pass and which are sent to the sign-in page. */
module Proxy {

  /** `NextResponse.next()` or a redirect to `location`. */
  datatype Decision = Continue | Redirect(location: string)

  /** The two configured constants: the sign-in path and the auth-API route prefix. */
  datatype Config = Config(signInPath: string, authApiPrefix: string)

  const NEXT_ASSET_PREFIX := "/_next"

  predicate StartsWith(s: string, prefix: string) {
    prefix <= s
  }

  /** `isPublicPath`: the sign-in path itself or a path whose next character after the sign-in
      path is a `/`; a path that merely starts with the sign-in path is not public. */
  predicate IsPublicPath(pathname: string, cfg: Config): (b: bool)
    ensures b ==> StartsWith(pathname, cfg.signInPath)
    ensures b <==>
      (pathname == cfg.signInPath
       || (|pathname| > |cfg.signInPath| && pathname[..|cfg.signInPath|] == cfg.signInPath
           && pathname[|cfg.signInPath|] == '/'))
  {
    var n := |cfg.signInPath|;
    assert StartsWith(pathname, cfg.signInPath + "/") ==> pathname[..n] == (cfg.signInPath + "/")[..n];
    assert |pathname| > n && pathname[..n] == cfg.signInPath && pathname[n] == '/'
      ==> pathname[..n + 1] == cfg.signInPath + "/";
    pathname == cfg.signInPath || StartsWith(pathname, cfg.signInPath + "/")
  }

  /** `isAuthApiRoute`: the path begins with the auth-API prefix. */
  predicate IsAuthApiRoute(pathname: string, cfg: Config): (b: bool)
    ensures b <==> |cfg.authApiPrefix| <= |pathname| && pathname[..|cfg.authApiPrefix|] == cfg.authApiPrefix
  {
    StartsWith(pathname, cfg.authApiPrefix)
  }

  /** `isNextAsset`: the path begins with `/_next` (so `/_nextjs` counts too). */
  predicate IsNextAsset(pathname: string): (b: bool)
    ensures b <==> |pathname| >= 6 && pathname[..6] == "/_next"
  {
    StartsWith(pathname, NEXT_ASSET_PREFIX)
  }

  /** The character class `[a-zA-Z0-9]`. */
  predicate IsAsciiAlnum(c: char) {
    ('a' <= c <= 'z') || ('A' <= c <= 'Z') || ('0' <= c <= '9')
  }

  /** The length of the longest run of `[a-zA-Z0-9]` that ends the path. */
  function TrailingAlnum(pathname: string): (n: nat)
    ensures n <= |pathname|
    ensures forall j :: |pathname| - n <= j < |pathname| ==> IsAsciiAlnum(pathname[j])
    ensures n < |pathname| ==> !IsAsciiAlnum(pathname[|pathname| - n - 1])
  {
    if pathname == [] || !IsAsciiAlnum(pathname[|pathname| - 1]) then 0
    else 1 + TrailingAlnum(pathname[..|pathname| - 1])
  }

  /** `isStaticFile`: the trailing alphanumeric run is non-empty and preceded by a dot. Such a
      path ends in an alphanumeric and contains a dot before it. */
  predicate IsStaticFile(pathname: string): (b: bool)
    ensures b ==> |pathname| >= 2 && IsAsciiAlnum(pathname[|pathname| - 1])
    ensures b ==> '.' in pathname[..|pathname| - 1]
  {
    var n := TrailingAlnum(pathname);
    0 < n < |pathname| && pathname[|pathname| - n - 1] == '.'
  }

  /** What `/\.[a-zA-Z0-9]+$/.test(pathname)` accepts: some dot followed by one or more
      alphanumerics up to the end of the path. */
  ghost predicate MatchesStaticFilePattern(pathname: string) {
    exists k :: 0 <= k < |pathname| - 1 && pathname[k] == '.'
      && forall j :: k < j < |pathname| ==> IsAsciiAlnum(pathname[j])
  }

  /** The suffix check agrees with the regular expression on every path. */
  lemma IsStaticFileIffPattern(pathname: string)
    ensures IsStaticFile(pathname) <==> MatchesStaticFilePattern(pathname)
  {
    var n := TrailingAlnum(pathname);
    if IsStaticFile(pathname) {
      assert pathname[|pathname| - n - 1] == '.';
    }
    if MatchesStaticFilePattern(pathname) {
      var k :| 0 <= k < |pathname| - 1 && pathname[k] == '.'
        && forall j :: k < j < |pathname| ==> IsAsciiAlnum(pathname[j]);
      assert !IsAsciiAlnum(pathname[k]);
      assert n == |pathname| - 1 - k;
    }
  }

  /** `proxy(request)`: first match wins among Next asset, static file, auth-API route and
      public path; any other path passes only with a session cookie and otherwise is redirected
      to the sign-in path. */
  function Decide(pathname: string, hasSessionCookie: bool, cfg: Config): (d: Decision)
    ensures d.Redirect? ==> d.location == cfg.signInPath
    ensures d.Redirect? <==>
      (!hasSessionCookie && !IsPublicPath(pathname, cfg) && !IsAuthApiRoute(pathname, cfg)
       && !IsNextAsset(pathname) && !MatchesStaticFilePattern(pathname))
  {
    IsStaticFileIffPattern(pathname);
    if IsNextAsset(pathname) || IsStaticFile(pathname) || IsAuthApiRoute(pathname, cfg) || IsPublicPath(pathname, cfg) then
      Continue
    else if !hasSessionCookie then
      Redirect(cfg.signInPath)
    else
      Continue
  }

  /** Any path under `/_next` passes, with or without a cookie. */
  lemma NextAssetContinues(pathname: string, hasSessionCookie: bool, cfg: Config)
    requires StartsWith(pathname, "/_next")
    ensures Decide(pathname, hasSessionCookie, cfg) == Continue
  {
  }

  /** A path ending in a dot and one or more ASCII letters or digits passes. */
  lemma StaticFileContinues(pathname: string, k: nat, hasSessionCookie: bool, cfg: Config)
    requires k < |pathname| - 1 && pathname[k] == '.'
    requires forall j :: k < j < |pathname| ==> IsAsciiAlnum(pathname[j])
    ensures Decide(pathname, hasSessionCookie, cfg) == Continue
  {
  }

  /** A path under the auth-API prefix passes. */
  lemma AuthApiRouteContinues(pathname: string, hasSessionCookie: bool, cfg: Config)
    requires StartsWith(pathname, cfg.authApiPrefix)
    ensures Decide(pathname, hasSessionCookie, cfg) == Continue
  {
  }

  /** The sign-in path and every path below it pass. */
  lemma PublicPathContinues(pathname: string, hasSessionCookie: bool, cfg: Config)
    requires pathname == cfg.signInPath || StartsWith(pathname, cfg.signInPath + "/")
    ensures Decide(pathname, hasSessionCookie, cfg) == Continue
  {
  }

  /** Every other path is redirected to the sign-in path without a cookie and passes with one. */
  lemma ProtectedPathNeedsCookie(pathname: string, cfg: Config)
    requires !IsNextAsset(pathname) && !MatchesStaticFilePattern(pathname)
    requires !IsAuthApiRoute(pathname, cfg) && !IsPublicPath(pathname, cfg)
    ensures Decide(pathname, false, cfg) == Redirect(cfg.signInPath)
    ensures Decide(pathname, true, cfg) == Continue
  {
  }

  /** No redirect loop: the redirect target itself always passes. */
  lemma NoRedirectLoop(hasSessionCookie: bool, cfg: Config)
    ensures Decide(cfg.signInPath, hasSessionCookie, cfg) == Continue
  {
  }

  /** Having a cookie never turns a pass into a redirect. */
  lemma CookieMonotone(pathname: string, cfg: Config)
    ensures Decide(pathname, false, cfg) == Continue ==> Decide(pathname, true, cfg) == Continue
  {
  }

  /** The configuration the application uses: sign-in at `/auth`, auth API under `/api/auth`. */
  const APP_CONFIG := Config("/auth", "/api/auth")

  /** The sign-in page and the sign-up page below it pass without a cookie. */
  lemma SignInPagesPass()
    ensures Decide("/auth", false, APP_CONFIG) == Continue
    ensures Decide("/auth/sign-up", false, APP_CONFIG) == Continue
  {
    PublicPathContinues("/auth/sign-up", false, APP_CONFIG);
  }

  /** `/routines` is protected: redirected to `/auth` without a cookie, passed with one. */
  lemma RoutinesNeedsCookie()
    ensures Decide("/routines", false, APP_CONFIG) == Redirect("/auth")
    ensures Decide("/routines", true, APP_CONFIG) == Continue
  {
    assert "/routines"[1] == 'r' && "/routines"[2] == 'o';
    assert !IsStaticFile("/routines");
  }

  /** The auth API and Next's own assets pass without a cookie. */
  lemma AuthApiAndAssetsPass()
    ensures Decide("/api/auth/session", false, APP_CONFIG) == Continue
    ensures Decide("/_next/static/chunk.js", false, APP_CONFIG) == Continue
  {
    AuthApiRouteContinues("/api/auth/session", false, APP_CONFIG);
    NextAssetContinues("/_next/static/chunk.js", false, APP_CONFIG);
  }

  /** `/authx` only shares a prefix with the sign-in path and is redirected without a cookie. */
  lemma AuthxIsNotPublic()
    ensures Decide("/authx", false, APP_CONFIG) == Redirect("/auth")
  {
    assert "/authx"[1] == 'a' && "/authx"[5] == 'x';
    assert !IsStaticFile("/authx");
  }

  /** `/logo.png` is a static file and passes without a cookie. */
  lemma LogoIsStaticFile()
    ensures Decide("/logo.png", false, APP_CONFIG) == Continue
  {
    StaticFileContinues("/logo.png", 5, false, APP_CONFIG);
  }

  /** The layout's looser `startsWith('/auth')` test calls `/authors` an auth path, but the gate
      does not treat it as public. */
  lemma AuthorsIsNotPublic()
    ensures StartsWith("/authors", APP_CONFIG.signInPath)
    ensures !IsPublicPath("/authors", APP_CONFIG)
    ensures Decide("/authors", false, APP_CONFIG) == Redirect("/auth")
  {
    assert "/authors"[5] == 'o' && "/authors"[1] == 'a';
    assert !IsStaticFile("/authors");
  }
}
