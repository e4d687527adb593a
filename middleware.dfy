/**
 * The route gate run before every page: public routes, the login
 * redirect, and the onboarding redirects. The session user and the
 * profile query are parameters; the path has already passed the matcher.
 */
module Middleware {
  import opened Common

  const PublicRoutes: seq<string> :=
    ["/", "/login", "/signup", "/forgot-password", "/reset-password", "/auth/callback", "/api/webhooks/stripe"]

  const OnboardingRoutes: seq<string> := ["/onboarding", "/welcome"]

  /** One entry of `PUBLIC_ROUTES.some(...)`: "/" matches only itself, any
      other route matches as a prefix. */
  predicate MatchesPublic(pathname: string, route: string)
  {
    if route == "/" then pathname == "/" else StartsWith(pathname, route)
  }

  /** `routes.some(route => match(route))` */
  predicate AnyPublic(pathname: string, routes: seq<string>)
  {
    exists k :: 0 <= k < |routes| && MatchesPublic(pathname, routes[k])
  }

  predicate IsPublicRoute(pathname: string)
  {
    AnyPublic(pathname, PublicRoutes)
  }

  predicate IsOnboardingRoute(pathname: string)
  {
    exists k :: 0 <= k < |OnboardingRoutes| && StartsWith(pathname, OnboardingRoutes[k])
  }

  /** The middleware's answer: let the request through, or redirect to a
      path, possibly with a `redirectTo` query parameter. */
  datatype Decision = PassThrough | Redirect(path: string, redirectTo: Option<string>)

  /** The profile query's row, if it returned one. */
  datatype ProfileStatus = ProfileStatus(onboardingCompleted: bool)

  function Decide(pathname: string, loggedIn: bool, profile: Option<ProfileStatus>): (d: Decision)
    ensures pathname == "/" ==> d == PassThrough
    ensures IsPublicRoute(pathname) && pathname != "/" ==>
              (d == Redirect("/dashboard", None) <==>
                 loggedIn && pathname != "/auth/callback" && !StartsWith(pathname, "/reset-password"))
    ensures IsPublicRoute(pathname) ==> d == PassThrough || d == Redirect("/dashboard", None)
    ensures !IsPublicRoute(pathname) && !loggedIn ==> d == Redirect("/login", Some(pathname))
    ensures !IsPublicRoute(pathname) && loggedIn && profile.None? ==> d == PassThrough
    ensures (!IsPublicRoute(pathname) && loggedIn && profile.Some?) ==>
              && (!IsOnboardingRoute(pathname) && !profile.value.onboardingCompleted ==> d == Redirect("/onboarding", None))
              && (IsOnboardingRoute(pathname) && profile.value.onboardingCompleted ==> d == Redirect("/dashboard", None))
              && (IsOnboardingRoute(pathname) != profile.value.onboardingCompleted ==> d == PassThrough)
  {
    assert pathname == "/" ==> MatchesPublic(pathname, PublicRoutes[0]);
    if IsPublicRoute(pathname) then
      if pathname == "/" then PassThrough
      else if loggedIn && pathname != "/auth/callback" && !StartsWith(pathname, "/reset-password") then
        Redirect("/dashboard", None)
      else PassThrough
    else if !loggedIn then Redirect("/login", Some(pathname))
    else if profile.Some? && !IsOnboardingRoute(pathname) && !profile.value.onboardingCompleted then
      Redirect("/onboarding", None)
    else if profile.Some? && IsOnboardingRoute(pathname) && profile.value.onboardingCompleted then
      Redirect("/dashboard", None)
    else PassThrough
  }

  /** "/" is public only as itself: no other path is public through it. */
  lemma RootOnlyExact(pathname: string)
    requires pathname != "/" && IsPublicRoute(pathname)
    ensures exists k :: 1 <= k < |PublicRoutes| && StartsWith(pathname, PublicRoutes[k])
  {
    var k :| 0 <= k < |PublicRoutes| && MatchesPublic(pathname, PublicRoutes[k]);
    assert k != 0;
  }

  /** Prefix matching makes "/loginX" public, keeps the provider webhook
      public, and leaves the workflow callback behind the login check. */
  lemma PublicRouteExamples()
    ensures IsPublicRoute("/loginX")
    ensures IsPublicRoute("/api/webhooks/stripe")
    ensures !IsPublicRoute("/api/webhooks/n8n-callback")
    ensures Decide("/api/webhooks/n8n-callback", false, None) == Redirect("/login", Some("/api/webhooks/n8n-callback"))
  {
    assert MatchesPublic("/loginX", PublicRoutes[1]);
    assert MatchesPublic("/api/webhooks/stripe", PublicRoutes[6]);
    var p := "/api/webhooks/n8n-callback";
    forall k | 0 <= k < |PublicRoutes| ensures !MatchesPublic(p, PublicRoutes[k]) {
      if k == 6 {
        assert p[..|PublicRoutes[6]|] != PublicRoutes[6] by {
          assert p[14] != PublicRoutes[6][14];
        }
      } else if k == 5 {
        assert p[2] != PublicRoutes[k][2];
      } else if k != 0 {
        assert p[1] != PublicRoutes[k][1];
      }
    }
  }

  /** A signed-in user with a completed profile is never sent to onboarding,
      and one without is never let into a protected non-onboarding page. */
  lemma OnboardingGate(pathname: string, completed: bool)
    requires !IsPublicRoute(pathname)
    ensures completed ==> Decide(pathname, true, Some(ProfileStatus(completed))) != Redirect("/onboarding", None)
    ensures !completed && !IsOnboardingRoute(pathname) ==>
              Decide(pathname, true, Some(ProfileStatus(completed))) == Redirect("/onboarding", None)
  {
  }
}
