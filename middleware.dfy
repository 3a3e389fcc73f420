/** The session gate in front of every page and API route: a request for a
    protected path without the `auth_user` cookie is sent to the login
    page, a signed-in request for the login page is sent to the dashboard.
    The gate only runs on paths its route matcher selects. */
module Middleware {
  import opened Strings
  import opened Optional

  /** What the gate answers: let the request through, or redirect it. */
  datatype Response = Next | Redirect(to: string)

  const ProtectedRoutes: seq<string> := ["/dashboard", "/api/erp", "/api/ai"]

  /** `protectedRoutes.some((route) => pathname.startsWith(route))`: a plain
      prefix test, so "/dashboard-old" is protected too. */
  predicate IsProtected(pathname: string) {
    exists route :: route in ProtectedRoutes && StartsWith(pathname, route)
  }

  /** The cookie's value is truthy: present and not empty. */
  predicate SignedIn(cookie: Option<string>) {
    cookie.Some? && cookie.value != ""
  }

  /** A login page: "/" or "/login", compared exactly. */
  predicate IsLoginPage(pathname: string) {
    pathname == "/" || pathname == "/login"
  }

  /** `middleware(request)` for a request with this path and `auth_user`
      cookie. */
  function Decide(pathname: string, cookie: Option<string>): (r: Response)
    ensures r.Redirect? ==> r.to == "/" || r.to == "/dashboard"
  {
    if IsProtected(pathname) && !SignedIn(cookie) then Redirect("/")
    else if IsLoginPage(pathname) && SignedIn(cookie) then Redirect("/dashboard")
    else Next
  }

  /** The gate in both directions: a request is sent to the login page
      exactly when it is for a protected path and not signed in; to the
      dashboard exactly when it is for a login page and signed in; and let
      through otherwise. */
  lemma DecideCases(pathname: string, cookie: Option<string>)
    ensures Decide(pathname, cookie) == Redirect("/") <==> IsProtected(pathname) && !SignedIn(cookie)
    ensures Decide(pathname, cookie) == Redirect("/dashboard") <==> IsLoginPage(pathname) && SignedIn(cookie)
    ensures Decide(pathname, cookie) == Next <==>
      (!IsProtected(pathname) || SignedIn(cookie)) && !(IsLoginPage(pathname) && SignedIn(cookie))
  {
    if IsLoginPage(pathname) {
      LoginPageNotProtected(pathname);
    }
  }

  /** Neither login page is a protected path. */
  lemma LoginPageNotProtected(pathname: string)
    requires IsLoginPage(pathname)
    ensures !IsProtected(pathname)
  {
    assert forall route :: route in ProtectedRoutes ==> |route| > |pathname|;
  }

  /** Following a redirect never leads to another redirect, with the same
      cookie. */
  lemma NoRedirectLoop(pathname: string, cookie: Option<string>)
    requires Decide(pathname, cookie).Redirect?
    ensures Decide(Decide(pathname, cookie).to, cookie) == Next
  {
    var to := Decide(pathname, cookie).to;
    DecideCases(to, cookie);
    assert !IsProtected("/") by {
      forall route | route in ProtectedRoutes ensures !StartsWith("/", route) { }
    }
  }

  /** A prefix match: a path that merely begins like a protected route is
      guarded as well. */
  lemma PrefixIsProtected()
    ensures Decide("/dashboard-old", None) == Redirect("/")
    ensures Decide("/api/erpnext", None) == Redirect("/")
  {
    assert StartsWith("/dashboard-old", "/dashboard");
    assert StartsWith("/api/erpnext", "/api/erp");
  }

  /** The text that follows the leading "/" starts like `favicon.ico`, where
      the regular expression's `.` stands for any one character. */
  predicate FaviconLike(rest: string) {
    |rest| >= 11 && rest[..7] == "favicon" && rest[8..11] == "ico"
  }

  /** The negative lookahead of the matcher as written,
      `(?!api|_next/static|_next/image|favicon.ico|public)`. */
  predicate ExcludedAsWritten(rest: string) {
    || StartsWith(rest, "api")
    || StartsWith(rest, "_next/static")
    || StartsWith(rest, "_next/image")
    || FaviconLike(rest)
    || StartsWith(rest, "public")
  }

  /** `config.matcher` as written, `/((?!api|_next/static|_next/image|favicon.ico|public).*)`,
      anchored at both ends: the path starts with "/" and what follows
      does not start with one of the excluded words. */
  predicate MatchedAsWritten(pathname: string) {
    StartsWith(pathname, "/") && !ExcludedAsWritten(pathname[1..])
  }

  /** The gate as deployed: the middleware runs only on matched paths;
      every other request goes through untouched. */
  function GateAsWritten(pathname: string, cookie: Option<string>): (r: Response)
    ensures !MatchedAsWritten(pathname) ==> r == Next
    ensures MatchedAsWritten(pathname) ==> r == Decide(pathname, cookie)
  {
    if MatchedAsWritten(pathname) then Decide(pathname, cookie) else Next
  }

  /** The matcher excludes every path that starts with "/api", so two of the
      three protected routes are never guarded: an API request without the
      cookie goes through, although the middleware itself would redirect
      it. */
  lemma ApiRoutesUnguarded(pathname: string, cookie: Option<string>)
    requires StartsWith(pathname, "/api")
    ensures GateAsWritten(pathname, cookie) == Next
  {
    assert pathname[1..][..3] == pathname[1..4] == "api";
  }

  /** A concrete request that shows it. */
  lemma ApiRouteWithoutCookie()
    ensures Decide("/api/erp/profit-loss", None) == Redirect("/")
    ensures GateAsWritten("/api/erp/profit-loss", None) == Next
  {
    assert StartsWith("/api/erp/profit-loss", "/api/erp");
    ApiRoutesUnguarded("/api/erp/profit-loss", None);
  }

  /** The lookahead without `api`: static assets stay excluded, API routes
      are matched. */
  predicate ExcludedCorrected(rest: string) {
    || StartsWith(rest, "_next/static")
    || StartsWith(rest, "_next/image")
    || FaviconLike(rest)
    || StartsWith(rest, "public")
  }

  predicate MatchedCorrected(pathname: string) {
    StartsWith(pathname, "/") && !ExcludedCorrected(pathname[1..])
  }

  function GateCorrected(pathname: string, cookie: Option<string>): (r: Response)
    ensures !MatchedCorrected(pathname) ==> r == Next
    ensures MatchedCorrected(pathname) ==> r == Decide(pathname, cookie)
  {
    if MatchedCorrected(pathname) then Decide(pathname, cookie) else Next
  }

  /** With the corrected matcher every protected path is guarded: without
      the cookie it is redirected to the login page, with it it goes
      through. The login pages behave as before. */
  lemma CorrectedGateGuardsEveryProtectedPath(pathname: string, cookie: Option<string>)
    ensures IsProtected(pathname) ==> GateCorrected(pathname, cookie) == Decide(pathname, cookie)
    ensures IsProtected(pathname) && !SignedIn(cookie) ==> GateCorrected(pathname, cookie) == Redirect("/")
    ensures IsLoginPage(pathname) ==> GateCorrected(pathname, cookie) == GateAsWritten(pathname, cookie)
  {
    DecideCases(pathname, cookie);
    if IsProtected(pathname) {
      ProtectedPathsMatched(pathname);
    }
    if IsLoginPage(pathname) {
      LoginPagesMatched(pathname);
    }
  }

  /** The corrected matcher selects every protected path: after the "/"
      comes a 'd' or an 'a', which no excluded word starts with. */
  lemma ProtectedPathsMatched(pathname: string)
    requires IsProtected(pathname)
    ensures MatchedCorrected(pathname)
  {
    var route :| route in ProtectedRoutes && StartsWith(pathname, route);
    var rest := pathname[1..];
    assert StartsWith(pathname, "/");
    assert rest[0] == route[1];
    assert rest[0] == 'd' || rest[0] == 'a';
  }

  /** Both matchers select the login pages. */
  lemma LoginPagesMatched(pathname: string)
    requires IsLoginPage(pathname)
    ensures MatchedAsWritten(pathname) && MatchedCorrected(pathname)
  {
    var rest := pathname[1..];
    assert rest == [] || rest == "login";
    assert rest != [] ==> rest[0] == 'l';
  }
}
