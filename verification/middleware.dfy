/**
 * The Next.js middleware guarding the dashboard: a request without a
 * session whose path starts with one of the protected prefixes is
 * redirected to `/login`; every other request passes through.
 */
module Middleware {
  import opened Strings

  const ProtectedRoutes: seq<string> := ["/dashboard", "/appointments", "/clients", "/settings"]

  const LoginPath := "/login"

  /** What the middleware returns: `NextResponse.next()` or a redirect. */
  datatype Response = PassThrough | Redirect(location: string)

  /** `routes.some(route => path.startsWith(route))`, route by route. */
  function StartsWithAny(path: string, routes: seq<string>): (b: bool)
    ensures b <==> exists i :: 0 <= i < |routes| && StartsWith(path, routes[i])
  {
    if |routes| == 0 then false
    else StartsWith(path, routes[0]) || StartsWithAny(path, routes[1..])
  }

  predicate IsProtected(path: string) {
    StartsWithAny(path, ProtectedRoutes)
  }

  /** A path is protected exactly when it starts with one of the four prefixes. */
  lemma ProtectedIff(path: string)
    ensures IsProtected(path) <==>
              StartsWith(path, "/dashboard") || StartsWith(path, "/appointments")
              || StartsWith(path, "/clients") || StartsWith(path, "/settings")
  {
    assert ProtectedRoutes[0] == "/dashboard" && ProtectedRoutes[1] == "/appointments";
    assert ProtectedRoutes[2] == "/clients" && ProtectedRoutes[3] == "/settings";
  }

  /** The decision, given the request's pathname and whether a session was found. */
  function Handle(path: string, hasSession: bool): (r: Response)
    ensures r.Redirect? <==>
              !hasSession
              && (StartsWith(path, "/dashboard") || StartsWith(path, "/appointments")
                  || StartsWith(path, "/clients") || StartsWith(path, "/settings"))
    ensures r.Redirect? ==> r.location == LoginPath
  {
    ProtectedIff(path);
    if !hasSession && IsProtected(path) then Redirect(LoginPath) else PassThrough
  }

  /** With a session, every request passes through. */
  lemma SessionPassesThrough(path: string)
    ensures Handle(path, true) == PassThrough
  {
  }

  /** A path under none of the four prefixes passes through, session or not. */
  lemma UnprotectedPassesThrough(path: string, hasSession: bool)
    requires forall i :: 0 <= i < |ProtectedRoutes| ==> !StartsWith(path, ProtectedRoutes[i])
    ensures Handle(path, hasSession) == PassThrough
  {
  }

  /** The login page itself is never redirected, so there is no redirect loop. */
  lemma LoginPassesThrough(hasSession: bool)
    ensures Handle(LoginPath, hasSession) == PassThrough
  {
  }

  /** Appending to a protected path keeps it protected. */
  lemma ProtectedMonotone(path: string, suffix: string)
    requires IsProtected(path)
    ensures IsProtected(path + suffix)
  {
  }

  /**
   * The test is a raw prefix test with no segment boundary: `/dashboardfoo`
   * is protected like `/dashboard/foo`.
   */
  lemma NoSegmentBoundary()
    ensures IsProtected("/dashboardfoo")
    ensures Handle("/dashboardfoo", false) == Redirect(LoginPath)
  {
  }
}
