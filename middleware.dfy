/**
 * The request-time route guard. It looks only at the request path and at
 * whether an `access_token` cookie came with the request, and either lets the
 * request through or redirects it.
 */
module RouteGuard {

  datatype Response = Next | Redirect(location: string)

  const TokenCookie := "access_token"
  const AuthPrefix := "/auth"
  const DashboardPrefix := "/dashboard"
  const SignInPath := "/auth/signin"

  /** `pathname.startsWith("/auth")`: a raw prefix test, so "/authorize" counts. */
  predicate IsAuthPage(path: string) { AuthPrefix <= path }

  /** `pathname.startsWith("/dashboard")`. */
  predicate IsDashboardPage(path: string) { DashboardPrefix <= path }

  /** The cookie is present whatever its value, the empty string included. */
  predicate HasToken(cookies: map<string, string>) { TokenCookie in cookies }

  /**
   * The decision of the middleware for one request. A redirect only ever goes
   * to one of the two guarded areas, and which one is decided by the cookie
   * alone: a signed-in request is sent to the dashboard, a signed-out one to
   * the sign-in page.
   */
  function Middleware(path: string, cookies: map<string, string>): (r: Response)
    ensures r.Redirect? ==> r.location == DashboardPrefix || r.location == SignInPath
    ensures r.Redirect? ==> (r.location == DashboardPrefix <==> HasToken(cookies))
    ensures !IsAuthPage(path) && !IsDashboardPage(path) ==> r == Next
  {
    if IsAuthPage(path) && HasToken(cookies) then Redirect(DashboardPrefix)
    else if IsDashboardPage(path) && !HasToken(cookies) then Redirect(SignInPath)
    else Next
  }

  /**
   * The `matcher` of the middleware's configuration: "/dashboard/:path*" and
   * "/auth/:path*", each of which covers the bare prefix and everything below it.
   */
  predicate Matched(path: string)
  {
    path == DashboardPrefix || DashboardPrefix + "/" <= path
    || path == AuthPrefix || AuthPrefix + "/" <= path
  }

  /** The middleware as the framework runs it: only on matched paths. */
  function Guard(path: string, cookies: map<string, string>): (r: Response)
    ensures !Matched(path) ==> r == Next
  {
    if Matched(path) then Middleware(path, cookies) else Next
  }

  /** The two prefixes exclude each other, so at most one branch can fire. */
  lemma PrefixesDisjoint(path: string)
    ensures !(IsAuthPage(path) && IsDashboardPage(path))
  {
    if |path| >= 2 {
      assert IsAuthPage(path) ==> path[1] == AuthPrefix[1] == 'a';
      assert IsDashboardPage(path) ==> path[1] == DashboardPrefix[1] == 'd';
    }
  }

  /** An auth page requested with a token goes to the dashboard. */
  lemma SignedInLeavesAuthPages(path: string, cookies: map<string, string>)
    requires IsAuthPage(path) && HasToken(cookies)
    ensures Middleware(path, cookies) == Redirect("/dashboard")
  {
  }

  /** A dashboard page requested without a token goes to the sign-in page. */
  lemma SignedOutLeavesDashboard(path: string, cookies: map<string, string>)
    requires IsDashboardPage(path) && !HasToken(cookies)
    ensures Middleware(path, cookies) == Redirect("/auth/signin")
  {
    PrefixesDisjoint(path);
  }

  /** An auth page without a token, or a dashboard page with one, is let through. */
  lemma PassesWhenAllowed(path: string, cookies: map<string, string>)
    requires (IsAuthPage(path) && !HasToken(cookies)) || (IsDashboardPage(path) && HasToken(cookies))
    ensures Middleware(path, cookies) == Next
  {
    PrefixesDisjoint(path);
  }

  /** A path under neither prefix passes, with or without a token. */
  lemma OtherPathsPass(path: string, cookies: map<string, string>)
    requires !IsAuthPage(path) && !IsDashboardPage(path)
    ensures Middleware(path, cookies) == Next
  {
  }

  /** The middleware redirects exactly in the two guarded cases. */
  lemma RedirectsExactly(path: string, cookies: map<string, string>)
    ensures Middleware(path, cookies).Redirect? <==>
      (IsAuthPage(path) && HasToken(cookies)) || (IsDashboardPage(path) && !HasToken(cookies))
  {
  }

  /** Following a redirect with the same cookies is let through: there is no redirect loop. */
  lemma NoRedirectLoop(path: string, cookies: map<string, string>)
    ensures Middleware(path, cookies).Redirect? ==>
      Middleware(Middleware(path, cookies).location, cookies) == Next
    ensures Guard(path, cookies).Redirect? ==>
      Guard(Guard(path, cookies).location, cookies) == Next
  {
    assert IsDashboardPage(DashboardPrefix);
    PrefixesDisjoint(DashboardPrefix);
    assert AuthPrefix <= SignInPath;
    PrefixesDisjoint(SignInPath);
    assert AuthPrefix + "/" <= SignInPath;
  }

  /** Only the presence of the cookie matters, never its value. */
  lemma OnlyPresenceMatters(path: string, cookies1: map<string, string>, cookies2: map<string, string>)
    requires HasToken(cookies1) == HasToken(cookies2)
    ensures Middleware(path, cookies1) == Middleware(path, cookies2)
    ensures Guard(path, cookies1) == Guard(path, cookies2)
  {
  }

  /** Every path the matcher selects is under one of the two prefixes. */
  lemma MatchedIsGuarded(path: string)
    ensures Matched(path) ==> IsAuthPage(path) || IsDashboardPage(path)
  {
  }

  /**
   * The prefix test alone treats "/authorize" as an auth page, but the matcher
   * never runs the middleware there.
   */
  lemma AuthorizeIsNotMatched(cookies: map<string, string>)
    requires HasToken(cookies)
    ensures IsAuthPage("/authorize")
    ensures Middleware("/authorize", cookies) == Redirect("/dashboard")
    ensures Guard("/authorize", cookies) == Next
  {
    assert AuthPrefix <= "/authorize";
    assert "/authorize"[5] == 'o';
    assert !Matched("/authorize");
  }
}
