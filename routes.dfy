/** The client-visible routes and the route table declared in `App`. */
module Routes {
  import opened Wrappers
  import opened Types

  /** The navigation targets the core issues. */
  datatype Route = ToRoot | ToLogin | ToSelectRole | ToDashboard(role: Role) | ToOnboarding(role: Role)

  /** The path a navigation target is written as. */
  function Path(r: Route): string
  {
    match r
    case ToRoot => "/"
    case ToLogin => "/login"
    case ToSelectRole => "/select-role"
    case ToDashboard(role) => "/dashboard/" + RoleName(role)
    case ToOnboarding(role) => "/onboarding/" + RoleName(role)
  }

  /** Distinct targets are written as distinct paths. */
  lemma PathInjective(a: Route, b: Route)
    requires Path(a) == Path(b)
    ensures a == b
  {
  }

  /** The pages the router can render. */
  datatype Page =
    | RootRedirect
    | LoginPage
    | SelectRolePage
    | DashboardPage(role: Role)
    | ProfessionalOnboardingPage
    | VendorOnboardingPage
    | BrowseProfessionalsPage
    | NotFoundPage

  /** The page `App` renders at `path`: the `<Route path=… element=…>` entries in
      declaration order (their paths are distinct, so at most one matches), then the
      `*` fallback. */
  function Resolve(path: string): Page
  {
    if path == "/" then RootRedirect
    else if path == "/login" then LoginPage
    else if path == "/select-role" then SelectRolePage
    else if path == "/dashboard/homeowner" then DashboardPage(Homeowner)
    else if path == "/dashboard/professional" then DashboardPage(Professional)
    else if path == "/dashboard/vendor" then DashboardPage(Vendor)
    else if path == "/onboarding/professional" then ProfessionalOnboardingPage
    else if path == "/onboarding/vendor" then VendorOnboardingPage
    else if path == "/homeowner/browse-professionals" then BrowseProfessionalsPage
    else NotFoundPage
  }

  /** The fixed paths render their own pages. */
  lemma FixedPathsResolve()
    ensures Resolve(Path(ToRoot)) == RootRedirect
    ensures Resolve(Path(ToLogin)) == LoginPage
    ensures Resolve(Path(ToSelectRole)) == SelectRolePage
    ensures Resolve("/homeowner/browse-professionals") == BrowseProfessionalsPage
  {
  }

  /** Each role's dashboard path renders that role's dashboard. */
  lemma DashboardPathResolves(r: Role)
    ensures Resolve(Path(ToDashboard(r))) == DashboardPage(r)
  {
    match r
    case Homeowner =>
    case Professional =>
    case Vendor =>
  }

  /** The two onboarding paths render their forms. */
  lemma OnboardingPathsResolve()
    ensures Resolve(Path(ToOnboarding(Professional))) == ProfessionalOnboardingPage
    ensures Resolve(Path(ToOnboarding(Vendor))) == VendorOnboardingPage
  {
  }

  /** Two pages that exist but are not registered, and the homeowner onboarding
      path, fall through to the 404 page. */
  lemma UnregisteredPathsAreNotFound()
    ensures Resolve("/homeowner/browse-materials") == NotFoundPage
    ensures Resolve("/vendor/manage-products") == NotFoundPage
    ensures Resolve(Path(ToOnboarding(Homeowner))) == NotFoundPage
  {
  }

  /** A target is registered, i.e. does not render the 404 page. */
  predicate Registered(r: Route)
  {
    Resolve(Path(r)) != NotFoundPage
  }

  /** The only navigation target the core can form that is not registered is the
      homeowner onboarding path. */
  lemma RegisteredTargets(r: Route)
    ensures Registered(r) <==> r != ToOnboarding(Homeowner)
  {
    match r
    case ToDashboard(role) => DashboardPathResolves(role);
    case ToOnboarding(role) => OnboardingPathsResolve(); UnregisteredPathsAreNotFound();
    case _ => FixedPathsResolve();
  }

  /** The `allowedRoles` of the `ProtectedRoute` a page is wrapped in, or `None`
      for a page that is not guarded (every guard keeps `requireOnboarding` at its default). */
  function GuardOf(p: Page): Option<seq<Role>>
  {
    match p
    case DashboardPage(r) => Some([r])
    case BrowseProfessionalsPage => Some([Homeowner])
    case _ => None
  }
}
