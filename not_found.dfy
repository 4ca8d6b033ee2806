/** `NotFound`: the 404 page and its "Return Home" button. It only reads the store. */
module NotFound {
  import opened Wrappers
  import opened Types
  import opened Auth
  import opened Routes
  import IndexPage
  import ProtectedRoute

  /** `handleNavigateHome`: exactly one navigation, chosen by the session. */
  function NavigateHomeTarget(s: Store): (r: Route)
    ensures !IsAuthenticated(s) ==> r == ToRoot
    ensures IsAuthenticated(s) ==> r == (if GetActiveRole(s).Some? then ToDashboard(GetActiveRole(s).value) else ToSelectRole)
  {
    if IsAuthenticated(s) then
      match GetActiveRole(s)
      case Some(r) => ToDashboard(r)
      case None => ToSelectRole
    else ToRoot
  }

  /** Every target of the button is a registered route, so it never leads back to
      the 404 page. */
  lemma HomeTargetRegistered(s: Store)
    ensures Registered(NavigateHomeTarget(s))
  {
    RegisteredTargets(NavigateHomeTarget(s));
  }

  /** In a session the button goes where the landing page redirects to, and the
      guard of every page agrees for a session without an active role. */
  lemma HomeAgreesWithLanding(s: Store, allowedRoles: seq<Role>, requireOnboarding: bool)
    requires IsAuthenticated(s)
    ensures IndexPage.Redirect(s) == Some(NavigateHomeTarget(s))
    ensures GetActiveRole(s) == None ==>
      ProtectedRoute.CheckAuth(s, allowedRoles, requireOnboarding) == Some(NavigateHomeTarget(s))
  {
  }
}
