/** The application shell: the signed-in user held in context, the footer
    hidden on a fixed list of paths, and the reaction to auth events. */
module AppShell {
  import opened Text

  /** The paths on which the footer is hidden, matched as substrings. */
  const FooterHiddenPaths: seq<string> := [
    "/profile/edit", "/settings", "/create/wish", "/create/offer", "/create/order",
    "/create/payment", "/listing", "/view/wish", "/view/wallet", "/admin/orders",
    "/admin/orders/details", "/admin/wallet", "/auth/login", "/auth/sign-up",
    "/auth/forgot-password", "/auth/reset-password", "/auth", "/view/orders",
    "/view/orders/details", "/about"
  ]

  /** `pathToDisableFooter.some(path => pathname.includes(path))`: in
      particular every pathname that starts with a listed path hides it. */
  predicate DisableFooter(pathname: string)
    ensures (exists k :: 0 <= k < |FooterHiddenPaths| && StartsWith(pathname, FooterHiddenPaths[k])) ==>
      DisableFooter(pathname)
  {
    assert forall k :: 0 <= k < |FooterHiddenPaths| && StartsWith(pathname, FooterHiddenPaths[k]) ==>
      OccursAt(pathname, FooterHiddenPaths[k], 0);
    exists k :: 0 <= k < |FooterHiddenPaths| && Includes(pathname, FooterHiddenPaths[k])
  }

  /** Matching is by substring, not by prefix: a listed path anywhere in the
      pathname hides the footer, and the home page keeps it. */
  lemma DisableFooterExamples()
    ensures DisableFooter("/create/listing")
    ensures DisableFooter("/auth/anything")
    ensures DisableFooter("/settings")
    ensures !DisableFooter("/")
    ensures !DisableFooter("/search")
  {
    assert OccursAt("/create/listing", FooterHiddenPaths[6], 7);
    assert OccursAt("/auth/anything", FooterHiddenPaths[16], 0);
    assert OccursAt("/settings", FooterHiddenPaths[1], 0);
    forall k | 0 <= k < |FooterHiddenPaths|
      ensures !Includes("/", FooterHiddenPaths[k]) && !Includes("/search", FooterHiddenPaths[k])
    {
      NotIncludedWhenShorter("/", FooterHiddenPaths[k]);
      ShortPathsMissSearch(k);
    }
  }

  /** Because matching is by substring, putting anything around a pathname
      that hides the footer still hides it. */
  lemma DisableFooterExtends(pathname: string, before: string, after: string)
    requires DisableFooter(pathname)
    ensures DisableFooter(before + pathname + after)
  {
    var k :| 0 <= k < |FooterHiddenPaths| && Includes(pathname, FooterHiddenPaths[k]);
    var i: nat :| i <= |pathname| && OccursAt(pathname, FooterHiddenPaths[k], i);
    var t := before + pathname + after;
    var p := FooterHiddenPaths[k];
    assert t[|before| + i..|before| + i + |p|] == pathname[i..i + |p|];
    assert OccursAt(t, p, |before| + i);
  }

  /** A string never contains a longer one. */
  lemma NotIncludedWhenShorter(s: string, sub: string)
    requires |s| < |sub|
    ensures !Includes(s, sub)
  {
  }

  /** No listed path occurs in "/search": those at most seven characters long
      differ from each of its windows, the rest are longer than it. */
  lemma ShortPathsMissSearch(k: int)
    requires 0 <= k < |FooterHiddenPaths|
    ensures !Includes("/search", FooterHiddenPaths[k])
  {
    var s := "/search";
    var p := FooterHiddenPaths[k];
    if |p| > |s| {
      NotIncludedWhenShorter(s, p);
    } else {
      // Only "/auth" (k = 16) and "/about" (k = 19) fit; neither has 's' after its slash.
      assert k == 16 || k == 19;
      forall i: nat | i <= |s| && i + |p| <= |s|
        ensures !OccursAt(s, p, i)
      {
        if i == 0 {
          assert s[1] != p[1];
        } else {
          assert s[i] != '/';
          assert s[i..i + |p|][0] == s[i];
        }
      }
    }
  }

  /** The footer, and the bottom padding beside it, show only for a user on
      a page whose footer is not disabled. */
  predicate ShowFooter(signedIn: bool, disableFooter: bool)
    ensures ShowFooter(signedIn, disableFooter) ==> signedIn
    ensures disableFooter ==> !ShowFooter(signedIn, disableFooter)
    ensures signedIn && !disableFooter ==> ShowFooter(signedIn, disableFooter)
  {
    signedIn && !disableFooter
  }

  /** The events the auth service reports. */
  datatype AuthEvent = InitialSession | SignedIn | SignedOut | PasswordRecovery | TokenRefreshed | UserUpdated

  class AppProvider {
    /** The user in context; None is `null`. */
    var user: Option<string>
    var disableFooter: bool

    /** The user starts as the one the server supplied, and the footer flag
        is computed from the first pathname. */
    constructor (serverUser: Option<string>, pathname: string)
      ensures user == serverUser
      ensures disableFooter == DisableFooter(pathname)
    {
      user := serverUser;
      disableFooter := DisableFooter(pathname);
    }

    /** The auth-state listener: only a sign-out clears the user and sends
        the browser to "/login"; every other event changes nothing. */
    method OnAuthEvent(event: AuthEvent) returns (navigateTo: Option<string>)
      modifies this`user
      ensures event == SignedOut ==> user.None? && navigateTo == Some("/login")
      ensures event != SignedOut ==> user == old(user) && navigateTo.None?
    {
      navigateTo := None;
      if event == SignedOut {
        user := None;
        navigateTo := Some("/login");
      }
    }

    /** The pathname effect recomputes the footer flag. */
    method OnPathnameChange(pathname: string)
      modifies this`disableFooter
      ensures disableFooter == DisableFooter(pathname)
    {
      disableFooter := DisableFooter(pathname);
    }

    /** The footer is never shown to a signed-out visitor, and always to a
        signed-in one on a page whose footer is not disabled. */
    function FooterShown(): (r: bool)
      reads this
      ensures r ==> user.Some?
      ensures user.Some? && !disableFooter ==> r
    {
      ShowFooter(user.Some?, disableFooter)
    }
  }

  /** After a sign-out the footer is gone whatever the page. */
  method SignOutHidesFooter(app: AppProvider) returns (shown: bool)
    modifies app
    ensures !shown
  {
    var _ := app.OnAuthEvent(SignedOut);
    shown := app.FooterShown();
  }
}
