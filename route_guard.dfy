/** The session middleware's route guard: which paths need a signed-in user,
    and the redirect to the login page for a request without claims. */
module RouteGuard {
  import opened Text

  /** The routes that require authentication. */
  const ProtectedRoutes: seq<string> := ["/profile/me"]
  const LoginPath: string := "/auth/login"

  /** A request URL, split into the part the redirect changes and the rest. */
  datatype Url = Url(origin: string, pathname: string, search: string)

  datatype Decision = PassThrough | Redirect(target: Url)

  /** `pathname === route || pathname.startsWith(route + "/")` */
  predicate UnderRoute(pathname: string, route: string) {
    pathname == route || StartsWith(pathname, route + "/")
  }

  /** `protectedRoutes.some(...)` */
  predicate IsProtected(pathname: string) {
    exists k :: 0 <= k < |ProtectedRoutes| && UnderRoute(pathname, ProtectedRoutes[k])
  }

  /** With the single listed route, protection means being `/profile/me` or
      below it; a path that merely shares the prefix is not protected. */
  lemma ProtectedExactly(pathname: string)
    ensures IsProtected(pathname) <==>
      pathname == "/profile/me" || (|pathname| > 11 && pathname[..12] == "/profile/me/")
    ensures !IsProtected("/profile/meX") && IsProtected("/profile/me/edit") && !IsProtected("/profile")
  {
    assert ProtectedRoutes[0] + "/" == "/profile/me/";
    assert UnderRoute("/profile/me/edit", ProtectedRoutes[0]) by {
      assert "/profile/me/edit"[..12] == "/profile/me/";
    }
    assert "/profile/meX"[..12] != "/profile/me/" by {
      assert "/profile/meX"[11] == 'X';
    }
  }

  /** `updateSession`'s decision: `hasClaims` says whether the auth service
      returned claims for the request. */
  function Decide(hasClaims: bool, request: Url): (r: Decision)
    ensures r.Redirect? <==> !hasClaims && IsProtected(request.pathname)
    ensures r.Redirect? ==> r.target == request.(pathname := LoginPath)
  {
    if !hasClaims && IsProtected(request.pathname) then Redirect(request.(pathname := LoginPath))
    else PassThrough
  }

  /** Following a redirect never redirects again: the login page is not protected. */
  lemma RedirectSettles(hasClaims: bool, request: Url)
    requires Decide(hasClaims, request).Redirect?
    ensures Decide(hasClaims, Decide(hasClaims, request).target) == PassThrough
  {
    assert !UnderRoute(LoginPath, ProtectedRoutes[0]) by {
      assert LoginPath[1] != (ProtectedRoutes[0] + "/")[1];
    }
  }
}
