/**
 * The web application's own rules, main.py: the cache headers the middleware
 * sets from the request path (`CacheControlMiddleware.dispatch`), the ones the
 * single-page static server adds (`SPAStaticFiles.get_response`), and the demo
 * `POST /login` check.
 *
 * The response is an object whose header map the two rules update in place;
 * the rest of the response, routing and templates are not modelled.
 */
module MainApp {
  import opened Strings

  const CacheControl: string := "Cache-Control"
  const Pragma: string := "Pragma"
  const Expires: string := "Expires"
  const NoStore: string := "no-store, no-cache, must-revalidate"
  const NoCache: string := "no-cache"
  const ExpiresNow: string := "0"
  const LongLived: string := "public, max-age=31536000"
  const ApiPrefix: string := "/api/"
  const HtmlSuffix: string := ".html"

  /** The extensions the middleware treats as static assets, matched as substrings of the path. */
  const StaticExtensions: seq<string> := [".js", ".css", ".png", ".jpg", ".jpeg", ".gif", ".svg"]

  /** `any(ext in path for ext in exts)`. */
  function AnyContained(path: string, exts: seq<string>): (r: bool)
    ensures r <==> exists k :: 0 <= k < |exts| && Contains(path, exts[k])
  {
    if exts == [] then false
    else if Contains(path, exts[0]) then true
    else
      var rest := AnyContained(path, exts[1..]);
      assert forall k :: 1 <= k < |exts| ==> exts[k] == exts[1..][k - 1];
      rest
  }

  predicate IsStaticAsset(path: string) {
    AnyContained(path, StaticExtensions)
  }

  /** The three headers that turn caching off. */
  function NoCacheHeaders(headers: map<string, string>): (h: map<string, string>)
    ensures h.Keys == headers.Keys + {CacheControl, Pragma, Expires}
    ensures h[CacheControl] == NoStore && h[Pragma] == NoCache && h[Expires] == ExpiresNow
    ensures forall n :: n in headers && n !in {CacheControl, Pragma, Expires} ==> h[n] == headers[n]
  {
    headers[CacheControl := NoStore][Pragma := NoCache][Expires := ExpiresNow]
  }

  /** The request path's dot-free test: the text after the last `/`. */
  predicate LastSegmentHasNoDot(path: string) {
    '.' !in LastSegment(path, '/')
  }

  /**
   * The single-page server's rule: an HTML file, or a path whose last segment
   * has no extension, is not cached; so only a path with a dot that is not an
   * HTML file keeps its headers.
   */
  predicate SpaNoCache(path: string): (noCache: bool)
    ensures !noCache ==> '.' in path && !EndsWith(path, HtmlSuffix)
  {
    EndsWith(path, HtmlSuffix) || LastSegmentHasNoDot(path)
  }

  /** A response whose headers the two rules rewrite. */
  class Response {
    var headers: map<string, string>

    constructor (headers: map<string, string>)
      ensures this.headers == headers
    {
      this.headers := headers;
    }

    /**
     * The middleware, after the handler has built the response: API paths get
     * the no-cache headers; otherwise a path naming a static extension anywhere
     * gets the one-year Cache-Control; any other path keeps its headers.
     */
    method Dispatch(path: string)
      modifies this
      ensures StartsWith(path, ApiPrefix) ==> headers == NoCacheHeaders(old(headers))
      ensures !StartsWith(path, ApiPrefix) && IsStaticAsset(path) ==> headers == old(headers)[CacheControl := LongLived]
      ensures !StartsWith(path, ApiPrefix) && !IsStaticAsset(path) ==> headers == old(headers)
      ensures headers == MiddlewareHeaders(path, old(headers))
    {
      if StartsWith(path, ApiPrefix) {
        headers := headers[CacheControl := NoStore];
        headers := headers[Pragma := NoCache];
        headers := headers[Expires := ExpiresNow];
      } else if AnyContained(path, StaticExtensions) {
        headers := headers[CacheControl := LongLived];
      }
    }

    /** The single-page static server: the no-cache headers for HTML and extension-less paths, nothing otherwise. */
    method ServeStatic(path: string)
      modifies this
      ensures SpaNoCache(path) ==> headers == NoCacheHeaders(old(headers))
      ensures !SpaNoCache(path) ==> headers == old(headers)
    {
      if EndsWith(path, HtmlSuffix) || '.' !in LastSegment(path, '/') {
        headers := headers[CacheControl := NoStore];
        headers := headers[Pragma := NoCache];
        headers := headers[Expires := ExpiresNow];
      }
    }
  }

  /**
   * The middleware's effect as a function of the path and the handler's headers:
   * API paths get the three no-cache headers, other paths naming a static
   * extension the one-year Cache-Control, and every header outside those three
   * is kept.
   */
  function MiddlewareHeaders(path: string, headers: map<string, string>): (h: map<string, string>)
    ensures StartsWith(path, ApiPrefix) ==>
      CacheControl in h && Pragma in h && Expires in h && h[CacheControl] == NoStore && h[Pragma] == NoCache && h[Expires] == ExpiresNow
    ensures !StartsWith(path, ApiPrefix) && IsStaticAsset(path) ==> CacheControl in h && h[CacheControl] == LongLived
    ensures !StartsWith(path, ApiPrefix) && !IsStaticAsset(path) ==> h == headers
    ensures forall n :: n in headers && n !in {CacheControl, Pragma, Expires} ==> n in h && h[n] == headers[n]
    ensures h.Keys <= headers.Keys + {CacheControl, Pragma, Expires}
  {
    if StartsWith(path, ApiPrefix) then NoCacheHeaders(headers)
    else if IsStaticAsset(path) then headers[CacheControl := LongLived]
    else headers
  }

  /** The API rule wins: an API path never gets the long-lived header, even when it names a script. */
  lemma ApiNeverCachedLong(path: string, headers: map<string, string>)
    requires StartsWith(path, ApiPrefix)
    ensures MiddlewareHeaders(path, headers)[CacheControl] == NoStore
    ensures MiddlewareHeaders(path, headers)[CacheControl] != LongLived
  {
  }

  /** The extension test is a substring test: a path containing `.json` contains `.js`, so it is cached for a year. */
  lemma JsonCountsAsScript(path: string, headers: map<string, string>)
    requires !StartsWith(path, ApiPrefix)
    requires Contains(path, ".json")
    ensures IsStaticAsset(path)
    ensures MiddlewareHeaders(path, headers)[CacheControl] == LongLived
  {
    assert ".json"[0..3] == ".js";
    ContainsInner(path, ".json", ".js", 0);
    assert Contains(path, StaticExtensions[0]);
  }

  /** A directory path, ending in `/`, has an empty last segment and so is never cached by the static server. */
  lemma DirectoryNotCached(path: string)
    requires EndsWith(path, "/")
    ensures SpaNoCache(path)
  {
    assert path[|path| - 1] == path[|path| - 1..][0] == '/';
  }

  /** A script or stylesheet, with its extension in the last segment, is left to the default headers. */
  lemma AssetKeepsHeaders(dir: string, name: string, ext: string)
    requires '/' !in name && '/' !in ext && ext != [] && ext[0] == '.'
    requires !EndsWith(dir + "/" + name + ext, HtmlSuffix)
    ensures !SpaNoCache(dir + "/" + name + ext)
  {
    var path := dir + "/" + name + ext;
    var seg := LastSegment(path, '/');
    assert path[|dir|] == '/';
    assert path[|dir| + 1..] == name + ext;
    assert |seg| >= |name + ext|;
    assert seg[|seg| - |ext|] == '.';
  }

  // ---------------------------------------------------------------------------
  // POST /login
  // ---------------------------------------------------------------------------

  const DemoUser: string := "admin@example.com"
  const DemoPassword: string := "admin123"
  const AdminDashboard: string := "/admin/dashboard"
  const SeeOther: int := 303
  const InvalidLogin: string := "Invalid username or password"

  /** The login page's answer: a redirect, or the form again with an error and the username typed. */
  datatype LoginResult = Redirect(status: int, location: string) | Form(error: string, username: string)

  /** Only the one hard-coded pair signs in; anything else re-renders the form, keeping the username. */
  function Login(username: string, password: string): (r: LoginResult)
    ensures r.Redirect? <==> username == DemoUser && password == DemoPassword
    ensures r.Redirect? ==> r == Redirect(SeeOther, AdminDashboard)
    ensures r.Form? ==> r.error == InvalidLogin && r.username == username
  {
    if username == DemoUser && password == DemoPassword then Redirect(SeeOther, AdminDashboard)
    else Form(InvalidLogin, username)
  }
}
