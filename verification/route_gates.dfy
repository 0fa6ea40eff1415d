/** The two path predicates of the front end: the middleware that sends a
    visitor without a session cookie from the dashboard to the login page,
    and the root layout's rule for showing the navigation bar. */
module RouteGates {
  import opened Base

  const PROTECTED_PREFIX: string := "/dashboard"
  const LOGIN_PATH: string := "/login"

  /** The pages the root layout renders without the navbar. */
  const HIDE_NAVBAR_ON: seq<string> := ["/login", "/register", "/forgot-password", "/reset-password", "/profile"]

  datatype Outcome = Next | Redirect(location: string)

  /** `middleware(request)`: a protected path without a (truthy)
      `accessToken` cookie is redirected to the login page; the token's
      content is not examined. */
  function Middleware(path: string, token: Option<string>): (r: Outcome)
    ensures r.Redirect? <==> StartsWith(path, PROTECTED_PREFIX) && (token.None? || token.value == "")
    ensures r.Redirect? ==> r.location == LOGIN_PATH
  {
    if StartsWith(path, PROTECTED_PREFIX) && (token.None? || token.value == "") then Redirect(LOGIN_PATH)
    else Next
  }

  /** The paths `config.matcher` (`/dashboard/:path*`) runs the middleware
      on: `/dashboard` itself and everything below it. */
  predicate Matched(path: string) {
    path == PROTECTED_PREFIX || StartsWith(path, PROTECTED_PREFIX + "/")
  }

  /** What a page request meets: the middleware where the matcher applies,
      nothing elsewhere. */
  function Gate(path: string, token: Option<string>): (r: Outcome)
    ensures !Matched(path) ==> r == Next
    ensures Matched(path) ==> r == Middleware(path, token)
  {
    if Matched(path) then Middleware(path, token) else Next
  }

  /** Behind the matcher, the gate redirects exactly the dashboard pages
      requested without a session cookie, always to `/login`. */
  lemma {:induction false} GateRedirects(path: string, token: Option<string>)
    ensures Gate(path, token).Redirect? <==> Matched(path) && (token.None? || token.value == "")
    ensures Gate(path, token).Redirect? ==> Gate(path, token) == Redirect("/login")
  {
    if Matched(path) {
      if path != PROTECTED_PREFIX {
        assert StartsWith(path, PROTECTED_PREFIX + "/");
        assert path[..|PROTECTED_PREFIX|] == (PROTECTED_PREFIX + "/")[..|PROTECTED_PREFIX|];
      }
      assert StartsWith(path, PROTECTED_PREFIX);
    }
  }

  /** Any cookie value at all lets a dashboard page through, and the
      profile page is not behind the gate. */
  lemma GateExamples(token: string)
    requires token != ""
    ensures Gate("/dashboard", Some(token)) == Next && Gate("/dashboard/issues", Some(token)) == Next
    ensures Gate("/dashboard", None) == Redirect("/login") && Gate("/dashboard", Some("")) == Redirect("/login")
    ensures Gate("/profile", None) == Next && Gate("/", None) == Next
  {
    assert StartsWith("/dashboard/issues", "/dashboard/");
    assert StartsWith("/dashboard", "/dashboard");
  }

  /** The root layout's `showNavbar`: the navbar is hidden on exactly the
      five listed pages and on every dashboard page; the list is matched
      exactly, not by prefix. */
  function ShowNavbar(pathname: string): (b: bool)
    ensures !b <==>
      pathname == "/login" || pathname == "/register" || pathname == "/forgot-password" ||
      pathname == "/reset-password" || pathname == "/profile" || StartsWith(pathname, "/dashboard")
  {
    pathname !in HIDE_NAVBAR_ON && !StartsWith(pathname, PROTECTED_PREFIX)
  }

  lemma NavbarExamples()
    ensures ShowNavbar("/")
    ensures !ShowNavbar("/login") && !ShowNavbar("/profile") && !ShowNavbar("/dashboard/issues")
    ensures ShowNavbar("/profile/x") && ShowNavbar("/login/")
  {
    assert StartsWith("/dashboard/issues", "/dashboard");
    assert "/profile/x"[..10][1] != "/dashboard"[1];
    assert "/login/"[1] != "/dashboard"[1];
  }

  /** Wherever the gate redirects, the navbar is hidden, and it is hidden
      on the page the redirect leads to as well. */
  lemma {:induction false} RedirectsHideNavbar(path: string, token: Option<string>)
    requires Gate(path, token).Redirect?
    ensures !ShowNavbar(path)
    ensures !ShowNavbar(Gate(path, token).location)
  {
    GateRedirects(path, token);
    if path != PROTECTED_PREFIX {
      assert path[..|PROTECTED_PREFIX|] == (PROTECTED_PREFIX + "/")[..|PROTECTED_PREFIX|];
    }
  }
}
