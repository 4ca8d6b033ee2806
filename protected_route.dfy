/** `ProtectedRoute`: the redirect chain every guarded page runs on mount. It
    only reads the store, and it renders its children whatever it decides. */
module ProtectedRoute {
  import opened Wrappers
  import opened Types
  import opened Auth
  import opened Routes

  /** The defaults of the component's props. */
  const DefaultAllowedRoles: seq<Role> := []
  const DefaultRequireOnboarding: bool := true

  /** `checkAuth`: the one navigation the guard issues, if any. */
  function CheckAuth(s: Store, allowedRoles: seq<Role>, requireOnboarding: bool): (nav: Option<Route>)
    ensures !IsAuthenticated(s) ==> nav == Some(ToLogin)
    ensures IsAuthenticated(s) && GetActiveRole(s) == None ==> nav == Some(ToSelectRole)
    ensures forall a :: IsAuthenticated(s) && GetActiveRole(s) == Some(a) ==>
      nav == (if |allowedRoles| > 0 && a !in allowedRoles then Some(ToDashboard(a))
              else if requireOnboarding && !HasCompletedOnboarding(s, a) then Some(ToOnboarding(a))
              else None)
  {
    if !IsAuthenticated(s) then Some(ToLogin)
    else match GetActiveRole(s)
      case None => Some(ToSelectRole)
      case Some(a) =>
        if |allowedRoles| > 0 && a !in allowedRoles then Some(ToDashboard(a))
        else if requireOnboarding && !HasCompletedOnboarding(s, a) then Some(ToOnboarding(a))
        else None
  }

  /** The guard stays put exactly when every check passes. */
  lemma NoRedirectIffAllChecksPass(s: Store, allowedRoles: seq<Role>, requireOnboarding: bool)
    ensures CheckAuth(s, allowedRoles, requireOnboarding) == None <==>
      && IsAuthenticated(s)
      && GetActiveRole(s).Some?
      && (|allowedRoles| == 0 || GetActiveRole(s).value in allowedRoles)
      && (requireOnboarding ==> HasCompletedOnboarding(s, GetActiveRole(s).value))
  {
  }

  /** Any redirect other than to the login page happens only in a session, any
      role-based one only once a role is active, and every role-based target is
      for the active role. */
  lemma RedirectTargets(s: Store, allowedRoles: seq<Role>, requireOnboarding: bool)
    ensures var nav := CheckAuth(s, allowedRoles, requireOnboarding);
      && (nav != Some(ToLogin) ==> IsAuthenticated(s))
      && (nav == Some(ToLogin) || nav == Some(ToSelectRole) || nav == None ||
          (nav.value.ToDashboard? && GetActiveRole(s) == Some(nav.value.role)) ||
          (nav.value.ToOnboarding? && GetActiveRole(s) == Some(nav.value.role)))
  {
  }

  /** With the default empty `allowedRoles` the role rule never fires. */
  lemma DefaultAllowsEveryRole(s: Store, requireOnboarding: bool)
    ensures var nav := CheckAuth(s, DefaultAllowedRoles, requireOnboarding);
      nav.None? || !nav.value.ToDashboard?
  {
  }

  /** On the dashboard of the active role the role rule never fires, so a guard's
      redirect to a dashboard cannot bounce to another dashboard. */
  lemma OwnDashboardNoRoleRedirect(s: Store, r: Role)
    requires IsAuthenticated(s) && GetActiveRole(s) == Some(r)
    ensures var nav := CheckAuth(s, GuardOf(DashboardPage(r)).value, DefaultRequireOnboarding);
      nav == None || nav == Some(ToOnboarding(r))
  {
  }

  /** From any guarded page, following the guard's redirect settles in at most two
      hops: a redirect to a dashboard lands on a page whose own guard either lets
      the user stay or sends them to onboarding, which is not guarded. */
  lemma RedirectSettles(s: Store, p: Page)
    requires GuardOf(p).Some?
    ensures var nav := CheckAuth(s, GuardOf(p).value, DefaultRequireOnboarding);
      nav.Some? && nav.value.ToDashboard? ==>
        var next := Resolve(Path(nav.value));
        && next == DashboardPage(nav.value.role)
        && GuardOf(next).Some?
        && var nav2 := CheckAuth(s, GuardOf(next).value, DefaultRequireOnboarding);
           nav2 == None || nav2 == Some(ToOnboarding(nav.value.role))
  {
    var nav := CheckAuth(s, GuardOf(p).value, DefaultRequireOnboarding);
    if nav.Some? && nav.value.ToDashboard? {
      DashboardPathResolves(nav.value.role);
    }
  }

  /** In a store that keeps the session invariant every target of the guard is a
      registered route; the homeowner onboarding path, the only unregistered one,
      is never chosen. */
  lemma GuardTargetsRegistered(s: Store, allowedRoles: seq<Role>, requireOnboarding: bool)
    requires SessionInvariant(s)
    ensures var nav := CheckAuth(s, allowedRoles, requireOnboarding);
      nav.Some? ==> Registered(nav.value)
  {
    var nav := CheckAuth(s, allowedRoles, requireOnboarding);
    if nav.Some? {
      RegisteredTargets(nav.value);
    }
  }

  /** Without the invariant the guard can send a homeowner to the unregistered
      `/onboarding/homeowner`, which renders the 404 page. */
  lemma HomeownerWithoutUserIdReachesNotFound()
    ensures var s := Store(map[AUTH_TOKEN := "t", ACTIVE_ROLE := "homeowner"], [], []);
      && CheckAuth(s, DefaultAllowedRoles, DefaultRequireOnboarding) == Some(ToOnboarding(Homeowner))
      && Resolve(Path(ToOnboarding(Homeowner))) == NotFoundPage
  {
    var s := Store(map[AUTH_TOKEN := "t", ACTIVE_ROLE := "homeowner"], [], []);
    assert s.Get(ACTIVE_ROLE) == Some(RoleName(Homeowner));
    UnregisteredPathsAreNotFound();
  }

  /** A fresh session after logging out starts at role selection. */
  lemma LogoutThenLoginSelectsRole(s: Store, allowedRoles: seq<Role>, requireOnboarding: bool, tokenStamp: string, idStamp: string)
    ensures CheckAuth(LoggedOut(s), allowedRoles, requireOnboarding) == Some(ToLogin)
    ensures CheckAuth(LoggedIn(LoggedOut(s), tokenStamp, idStamp), allowedRoles, requireOnboarding) == Some(ToSelectRole)
  {
    LoginEffect(LoggedOut(s), tokenStamp, idStamp);
  }

  /** Onboarding that only reaches the backend never satisfies the guard's local
      check: with no professional entry for the user in the local list, the
      professional dashboard always sends the user to onboarding. */
  lemma ProfessionalDashboardNeedsLocalEntry(s: Store)
    requires IsAuthenticated(s) && GetActiveRole(s) == Some(Professional)
    requires forall i :: 0 <= i < |s.professionals| ==> Some(s.professionals[i].id) != s.Get(USER_ID)
    ensures CheckAuth(s, [Professional], DefaultRequireOnboarding) == Some(ToOnboarding(Professional))
  {
  }
}
