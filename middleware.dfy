/**
 * The request gate of the dashboard (ui/src/middleware.ts): requests to the dashboard
 * and the API without a license cookie are refused or sent to the landing page.
 */
module Middleware {
  import opened Wrappers
  import opened Text

  const LICENSE_COOKIE: string := "lck"

  datatype Response =
    | JsonError(status: int, error: string)  // NextResponse.json({ error }, { status })
    | Redirect(location: string)            // NextResponse.redirect(new URL(location, request.url))
    | Continue                              // NextResponse.next()

  /** `middleware` for the value of the `lck` cookie (None when absent) and the path. */
  function Gate(cookie: Option<string>, pathname: string): (r: Response)
    ensures (cookie.None? || cookie.value == "") && Contains(pathname, "/api") ==>
              r == JsonError(403, "Forbidden")
    ensures (cookie.None? || cookie.value == "") && !Contains(pathname, "/api") ==> r == Redirect("/")
    ensures cookie.Some? && cookie.value != "" ==> r == Continue
  {
    if cookie.None? || |cookie.value| == 0 then
      if Contains(pathname, "/api") then JsonError(403, "Forbidden") else Redirect("/")
    else Continue
  }

  /** One pattern of `config.matcher`: `<base>/:path*` matches the base and everything below it. */
  predicate MatchesPattern(pathname: string, base: string) {
    pathname == base || StartsWith(pathname, base + "/")
  }

  /** `config.matcher`: the middleware runs only under /dashboard and /api. */
  predicate Matched(pathname: string) {
    MatchesPattern(pathname, "/dashboard") || MatchesPattern(pathname, "/api")
  }

  /** What a request receives: paths outside the matcher bypass the gate. */
  function Handle(cookie: Option<string>, pathname: string): (r: Response)
    ensures !Matched(pathname) ==> r == Continue
    ensures Matched(pathname) ==> r == Gate(cookie, pathname)
  {
    if Matched(pathname) then Gate(cookie, pathname) else Continue
  }

  /** A request passes iff it carries a non-empty cookie or lies outside the matcher. */
  lemma PassesIff(cookie: Option<string>, pathname: string)
    ensures Handle(cookie, pathname) == Continue <==>
              (cookie.Some? && cookie.value != "") || !Matched(pathname)
  {
  }

  /** Every unauthenticated API request is refused with 403 rather than redirected. */
  lemma ApiRefused(cookie: Option<string>, pathname: string)
    requires cookie.None? || cookie.value == ""
    requires MatchesPattern(pathname, "/api")
    ensures Handle(cookie, pathname) == JsonError(403, "Forbidden")
  {
    if pathname != "/api" {
      assert StartsWith(pathname, "/api");
    }
    StartsWithContains(pathname, "/api");
  }

  /**
   * The API test is a substring test: a dashboard page whose path merely contains
   * "/api" is refused with 403 instead of redirected.
   */
  lemma DashboardPageWithApiInPath()
    ensures Handle(None, "/dashboard/apidocs") == JsonError(403, "Forbidden")
  {
    var p := "/dashboard/apidocs";
    assert StartsWith(p, "/dashboard/");
    assert OccursAt(p, "/api", 10);
    ContainsWitness(p, "/api", 10);
  }
}
