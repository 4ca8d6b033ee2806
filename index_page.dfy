/** `Index`: the landing page. It only reads the store. */
module IndexPage {
  import opened Wrappers
  import opened Types
  import opened Auth
  import opened Routes

  /** The redirect of the page's effect: none for a visitor without a session. */
  function Redirect(s: Store): (nav: Option<Route>)
    ensures nav == None <==> !IsAuthenticated(s)
    ensures IsAuthenticated(s) ==>
      nav == Some(if GetActiveRole(s).Some? then ToDashboard(GetActiveRole(s).value) else ToSelectRole)
  {
    if IsAuthenticated(s) then
      match GetActiveRole(s)
      case Some(r) => Some(ToDashboard(r))
      case None => Some(ToSelectRole)
    else None
  }

  /** The "Get Started" button always leads to the login page. */
  function GetStartedTarget(): (r: Route)
    ensures Registered(r) && Resolve(Path(r)) == LoginPage
  {
    FixedPathsResolve();
    ToLogin
  }
}
