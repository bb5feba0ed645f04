/** The route guards in front of the owner's pages: `middleware` (middleware.ts) with its path
    matcher, and `updateSession` (lib/supabase/proxy.ts). Both decide from the path and the cookie
    names alone whether a request goes through or is sent to the login page. */
module Guards {
  import opened Text

  datatype Cookie = Cookie(name: string, value: string)

  /** The parts of a request the guards read. */
  datatype Request = Request(pathname: string, search: string, cookies: seq<Cookie>)

  /** Go on to the page, or redirect to the given path and query string. */
  datatype Decision = Next | Redirect(pathname: string, search: string)

  const LoginPath: string := "/auth/login"

  /** A session cookie name: "sb-" at the front and "-auth-token" at the end; the two may
      overlap. */
  predicate IsAuthCookieName(name: string) {
    StartsWith(name, "sb-") && EndsWith(name, "-auth-token")
  }

  predicate HasAuthCookie(cookies: seq<Cookie>) {
    exists i :: 0 <= i < |cookies| && IsAuthCookieName(cookies[i].name)
  }

  predicate HasCookieNamed(cookies: seq<Cookie>, name: string) {
    exists i :: 0 <= i < |cookies| && cookies[i].name == name
  }

  /** `middleware`: API and build-asset paths go through; a path that starts with "/admin"
      without either kind of session cookie goes to the login page, query dropped; everything
      else goes through. */
  function Middleware(r: Request): (d: Decision)
    ensures d.Redirect? ==> d == Redirect(LoginPath, "")
  {
    if StartsWith(r.pathname, "/api/") || StartsWith(r.pathname, "/_next/") then Next
    else if StartsWith(r.pathname, "/admin")
            && !HasCookieNamed(r.cookies, "sb-auth-token") && !HasAuthCookie(r.cookies) then
      Redirect(LoginPath, "")
    else Next
  }

  /** The exact name "sb-auth-token" is itself a session cookie name, so the first cookie test of
      `middleware` never admits a request the second would refuse. */
  lemma CustomCookieIsAuthCookie(cookies: seq<Cookie>)
    ensures IsAuthCookieName("sb-auth-token")
    ensures HasCookieNamed(cookies, "sb-auth-token") ==> HasAuthCookie(cookies)
  {
    var n := "sb-auth-token";
    assert n[..3] == "sb-";
    assert n[|n| - 11..] == "-auth-token";
  }

  /** `updateSession`: the same tests, but the redirect keeps the query string. */
  function UpdateSession(r: Request): (d: Decision)
    ensures d.Redirect? ==> d == Redirect(LoginPath, r.search)
  {
    if StartsWith(r.pathname, "/api/") || StartsWith(r.pathname, "/_next/") then Next
    else if StartsWith(r.pathname, "/admin") && !HasAuthCookie(r.cookies) then Redirect(LoginPath, r.search)
    else Next
  }

  /** The two guards redirect exactly the same requests: a path starting with "/admin", not with
      "/api/" or "/_next/", and no session cookie. */
  lemma SameDecision(r: Request)
    ensures Middleware(r).Redirect? <==> UpdateSession(r).Redirect?
    ensures UpdateSession(r).Redirect? <==>
      StartsWith(r.pathname, "/admin") && !HasAuthCookie(r.cookies)
  {
    CustomCookieIsAuthCookie(r.cookies);
    if StartsWith(r.pathname, "/admin") {
      assert r.pathname[..6][1] == 'a' && r.pathname[..6][2] == 'd';
      assert "/api/"[2] == 'p' && "/_next/"[1] == '_';
    }
  }

  /** Only cookie names are read: two requests whose cookies carry the same names in the same
      order get the same decision from both guards. */
  lemma ValuesIgnored(r: Request, cookies: seq<Cookie>)
    requires |cookies| == |r.cookies|
    requires forall i :: 0 <= i < |cookies| ==> cookies[i].name == r.cookies[i].name
    ensures Middleware(r.(cookies := cookies)) == Middleware(r)
    ensures UpdateSession(r.(cookies := cookies)) == UpdateSession(r)
  {
    assert HasAuthCookie(cookies) == HasAuthCookie(r.cookies);
    assert HasCookieNamed(cookies, "sb-auth-token") == HasCookieNamed(r.cookies, "sb-auth-token");
  }

  /** `config.matcher` '/admin/:path*': the path "/admin" itself and everything below it. */
  predicate MatcherRuns(pathname: string) {
    pathname == "/admin" || StartsWith(pathname, "/admin/")
  }

  /** What a request meets: `middleware` where the matcher runs it, nothing elsewhere. */
  function Guarded(r: Request): (d: Decision)
    ensures d.Redirect? <==> MatcherRuns(r.pathname) && !HasAuthCookie(r.cookies)
  {
    SameDecision(r);
    if MatcherRuns(r.pathname) then
      assert StartsWith(r.pathname, "/admin") by {
        if r.pathname != "/admin" {
          assert r.pathname[..6] == r.pathname[..7][..6];
        }
      }
      Middleware(r)
    else Next
  }

  /** The prefix test in `middleware` would guard "/administrator", but the matcher never runs
      it there. */
  lemma AdministratorPath(r: Request)
    requires r.pathname == "/administrator" && r.cookies == []
    ensures Middleware(r) == Redirect(LoginPath, "")
    ensures Guarded(r) == Next
  {
    assert r.pathname[..6] == "/admin";
    assert r.pathname[..5][2] == 'd' && "/api/"[2] == 'p';
    assert r.pathname[..7][1] == 'a' && "/_next/"[1] == '_';
    assert r.pathname[..7][6] == 'i' && "/admin/"[6] == '/';
  }
}
