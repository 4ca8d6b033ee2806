# Skillink session, redirect, onboarding and browse core in Dafny

Skillink is a marketplace front end with three roles: homeowners, professionals and vendors. This project models the logic under its React pages and proves properties of that model. The logic has three parts.

- **Session state and redirect resolution.**
  - `src/utils/auth.ts` keeps the whole session in the browser's local store. That store holds the auth token, the active role, the user id, and parsed JSON lists of professionals and vendors.
  - The store is modelled as a `Store` value (a `map<string,string>` plus the two lists), wrapped by the `LocalStore` class whose methods are `setItem`/`removeItem`/`clear`.
  - Several components turn the store into at most one navigation: the route guard (`ProtectedRoute`), role selection, the role switcher, the login page, and the root, landing and 404 redirects. Each of them is a function or method that returns a `Route`.
  - The route table of `App.tsx` is `Routes.Resolve`.
- **Onboarding forms.**
  - The vendor and professional forms are modelled field by field. A field value is a string or a number, as in `handleChange(name, value: string | number)`.
  - Each validator fills an error map one field at a time, in source order. It is specified by `Partial(f, n)`, the map after the first `n` checks.
  - A number in a field whose check calls `.trim()` makes validation throw; the model reports this as `Threw` and changes nothing.
  - The submit handlers are traced as the list of backend requests they issue (`BackendCall`), together with the payload they send.
- **Browse-page filters.**
  - Professionals and products are filtered by an exact-match selector and a case-insensitive substring search.
  - Both filters are order-preserving subsequence filters over `Seqs.Filter`.
  - The distinct-values lists (`Array.from(new Set(...))`) are `Seqs.Distinct`, which keeps first-occurrence order.

Backend replies and calls to functions whose definitions are not in the modelled files are inputs. `Reply<T>` is either `Returned(value)` or `Threw`. `ProfileFetch` is a row and/or an error code. Clock readings are string or integer parameters.

## Model

| member | source | states |
|---|---|---|
| Types.ParseRole | src/utils/auth.ts:49-55 | a stored string parses to role `x` exactly when it is the name of `x` |
| Types.ParseRoleName | src/utils/auth.ts:44-55 | the name written for a role parses back to that role |
| Auth.Store.Set | src/utils/auth.ts:25 | `setItem` makes the key read back the value and leaves every other key and both lists unchanged |
| Auth.Store.Remove | src/utils/auth.ts:34-35 | `removeItem` makes the key absent and leaves every other key and both lists unchanged |
| Auth.LocalStore.constructor | src/utils/auth.ts:9-16 | the browser store starts with the given contents |
| Auth.LocalStore.SetItem | src/utils/auth.ts:25 | the new contents are the old ones with the key set |
| Auth.LocalStore.RemoveItem | src/utils/auth.ts:34-35 | the new contents are the old ones with the key removed |
| Auth.LocalStore.Clear | src/components/RoleSwitcher.tsx:39 | `clear` empties the store, including both lists |
| Auth.LocalStore.SaveProfessionals | src/pages/homeowner/BrowseProfessionals.tsx:263-266 | storing the professionals list changes that list and nothing else |
| Auth.Login | src/utils/auth.ts:19-30 | succeeds iff email and password are the default credentials; on success it writes the token and the user id and authenticates, otherwise the store is unchanged |
| Auth.Logout | src/utils/auth.ts:33-36 | removes exactly the token and the active role; afterwards the user is not authenticated and no role is active |
| Auth.SetActiveRole | src/utils/auth.ts:44-46 | writes the role's name under ACTIVE_ROLE, after which `getActiveRole` returns that role |
| Auth.GetActiveRole | src/utils/auth.ts:49-55 | returns role `x` iff the stored value is exactly `x`'s name; any other value or no value reads as null |
| Auth.LoginEffect | src/utils/auth.ts:19-41 | after login the user is authenticated, the user id is `user_<stamp>`, and the active role and both lists are unchanged |
| Auth.LogoutKeeps | src/utils/auth.ts:33-36 | logout keeps the user id, both lists and every key other than the token and the active role |
| Auth.ActiveRoleRoundTrip | src/utils/auth.ts:44-55 | `setActiveRole(r)` followed by `getActiveRole()` gives `r` |
| Auth.OnboardingIgnoresSessionKeys | src/utils/auth.ts:58-79 | writing or removing the token or the active role does not change any role's onboarding status |
| Auth.OnboardingCases | src/utils/auth.ts:58-79 | without a user id no role is onboarded, not even homeowner; with one, homeowner is, and professional or vendor is iff its list has an entry with that id |
| Auth.SessionInvariantPreserved | src/utils/auth.ts:19-46 | login, logout, clear, setting the active role and storing the professionals list all keep "a token implies a user id" |
| Routes.PathInjective | src/App.tsx:77-93 | distinct route targets have distinct paths |
| Routes.FixedPathsResolve | src/App.tsx:77-93 | `/`, `/login`, `/select-role` and `/homeowner/browse-professionals` render their own pages |
| Routes.DashboardPathResolves | src/App.tsx:84-86 | `/dashboard/<r>` renders the dashboard of `r` |
| Routes.OnboardingPathsResolve | src/App.tsx:89-90 | the professional and vendor onboarding paths render their forms |
| Routes.UnregisteredPathsAreNotFound | src/App.tsx:75-97 | `/homeowner/browse-materials`, `/vendor/manage-products` and `/onboarding/homeowner` fall through to the 404 page |
| Routes.RegisteredTargets | src/App.tsx:75-97 | a navigation target has a route of its own iff it is not `/onboarding/homeowner` |
| ProtectedRoute.CheckAuth | src/components/ProtectedRoute.tsx:21-48 | login if not authenticated; otherwise role selection if no role is active; otherwise the active role's dashboard if the allowed list is non-empty and excludes it; otherwise its onboarding if required and incomplete; otherwise no navigation |
| ProtectedRoute.NoRedirectIffAllChecksPass | src/components/ProtectedRoute.tsx:21-48 | the guard stays on the page iff authenticated, a role is active, the role is allowed and onboarding is complete or not required |
| ProtectedRoute.RedirectTargets | src/components/ProtectedRoute.tsx:23-47 | every target other than login needs a session, and every dashboard or onboarding target is for the active role |
| ProtectedRoute.DefaultAllowsEveryRole | src/components/ProtectedRoute.tsx:15-41 | with the default empty `allowedRoles` the guard never redirects to a dashboard |
| ProtectedRoute.OwnDashboardNoRoleRedirect | src/pages/dashboard/VendorDashboard.tsx:71 | on the dashboard of the active role the guard either stays or goes to onboarding, never to another dashboard |
| ProtectedRoute.RedirectSettles | src/components/ProtectedRoute.tsx:38-47 | after a role redirect to a dashboard, that dashboard's own guard stays or goes to onboarding, so there is no redirect loop |
| ProtectedRoute.GuardTargetsRegistered | src/components/ProtectedRoute.tsx:24-45 | in a store where a token implies a user id, every guard target is a registered route |
| ProtectedRoute.HomeownerWithoutUserIdReachesNotFound | src/components/ProtectedRoute.tsx:44-45 | a homeowner session without a user id is sent to `/onboarding/homeowner`, which renders the 404 page |
| ProtectedRoute.LogoutThenLoginSelectsRole | src/components/ProtectedRoute.tsx:23-35 | after logout the guard sends to login, and after logging in again it sends to role selection |
| ProtectedRoute.ProfessionalDashboardNeedsLocalEntry | src/components/ProtectedRoute.tsx:44-47 | without a local professionals entry for the user, the professional dashboard always sends to onboarding |
| App.RootRedirectView.constructor | src/App.tsx:31 | the root page starts in the loading state |
| App.RootRedirectView.CheckAuth | src/App.tsx:33-58 | login on an exception or when not authenticated; role selection with no active role; otherwise the active role's dashboard; loading ends on every path and the target is always registered |
| LoginPage.RenderRedirect | src/pages/Login.tsx:18-21 | an authenticated visitor is sent to role selection, and only then |
| LoginPage.LoginForm.constructor | src/pages/Login.tsx:13-16 | the form starts with the default credentials filled in, no error and not loading |
| LoginPage.LoginForm.HandleLogin | src/pages/Login.tsx:23-44 | an empty field gives the "enter both" message, no login call and no navigation; the default credentials log in and go to role selection; anything else gives the invalid-credentials message and leaves the store unchanged |
| RoleSwitcher.RoleLabelInjective | src/components/RoleSwitcher.tsx:26-30 | each role has its own label |
| RoleSwitcher.Render | src/components/RoleSwitcher.tsx:43-53 | renders nothing iff no role is active; otherwise it shows the active role's label and the three-role menu |
| RoleSwitcher.MenuOffersEveryRole | src/components/RoleSwitcher.tsx:59-74 | every role is offered, each once |
| RoleSwitcher.Switcher.constructor | src/components/RoleSwitcher.tsx:18 | the menu starts closed |
| RoleSwitcher.Switcher.HandleRoleChange | src/components/RoleSwitcher.tsx:32-36 | the role becomes active, the menu closes and the target is role selection |
| RoleSwitcher.Switcher.HandleLogout | src/components/RoleSwitcher.tsx:38-41 | the whole store is cleared, including the user id and lists, and the target is login |
| IndexPage.Redirect | src/pages/Index.tsx:10-20 | no navigation iff not authenticated; otherwise the active role's dashboard, or role selection when no role is active |
| IndexPage.GetStartedTarget | src/pages/Index.tsx:35-40 | "Get Started" leads to the registered login page |
| NotFound.NavigateHomeTarget | src/pages/NotFound.tsx:18-29 | the landing page when not authenticated; otherwise the active role's dashboard, or role selection |
| NotFound.HomeTargetRegistered | src/pages/NotFound.tsx:18-29 | the home target always has a route |
| NotFound.HomeAgreesWithLanding | src/pages/NotFound.tsx:18-29 | for an authenticated user it agrees with the landing page's redirect, and with the guard when no role is active |
| SelectRole.ButtonText | src/pages/SelectRole.tsx:171-177 | "Continue as T" iff the role is held, "+ Add T Role" iff it is not |
| SelectRole.ButtonTextInjective | src/pages/SelectRole.tsx:171-177 | different cards never share a button label |
| SelectRole.Render | src/pages/SelectRole.tsx:143-207 | the loading view iff loading; otherwise the subtitle depends on holding more than one role, and the three card buttons carry the role-based labels |
| SelectRole.SelectRoleView.constructor | src/pages/SelectRole.tsx:21-23 | the page starts loading, with no selection and no roles |
| SelectRole.SelectRoleView.CheckAuthAndRoles | src/pages/SelectRole.tsx:27-58 | login when unauthenticated or when the role lookup throws; with exactly one role it becomes active and its dashboard opens; with zero or several roles the cards show and the store is unchanged |
| SelectRole.SelectRoleView.HandleRoleSelect | src/pages/SelectRole.tsx:63-103 | the role is made active in every case; a held role goes to its dashboard without saving; a new role is saved, and then the target is onboarding iff the role is not homeowner and not yet onboarded; a failed save stops loading without navigating |
| SelectRole.SelectRoleView.HandleLogout | src/pages/SelectRole.tsx:105-118 | after sign-out the store is cleared and the target is login; if sign-out throws, nothing changes |
| SelectRole.SelectionTargetsRegistered | src/pages/SelectRole.tsx:63-93 | every target role selection can issue has a route |
| Forms.BlankCheck | src/pages/onboarding/VendorOnboarding.tsx:79 | `!value.trim()` throws on a number, and is true on a string iff the string is all whitespace |
| VendorOnboarding.VendorForm.With | src/pages/onboarding/VendorOnboarding.tsx:68-69 | changing one field leaves every other field unchanged |
| VendorOnboarding.Checked | src/pages/onboarding/VendorOnboarding.tsx:79-105 | one field check extends the error map by that field's message exactly when that field fails |
| VendorOnboarding.ValidIffNoFieldFails | src/pages/onboarding/VendorOnboarding.tsx:76-108 | the error map is empty iff no field fails, and its keys are exactly the failing fields |
| VendorOnboarding.DefaultFormFailures | src/pages/onboarding/VendorOnboarding.tsx:26-34 | the initial form does not throw, and exactly its five text fields fail |
| VendorOnboarding.OrNull | src/pages/onboarding/VendorOnboarding.tsx:164-165 | `x \|\| null` keeps a non-empty value and turns anything else into null |
| VendorOnboarding.MergePayload | src/pages/onboarding/VendorOnboarding.tsx:158-168 | the upsert row has the user id, the new vendor data and `updated_at = now`; it keeps an existing full name and avatar (or null), and an existing creation time (or now) |
| VendorOnboarding.ResubmitKeepsProfile | src/pages/onboarding/VendorOnboarding.tsx:164-167 | submitting again over the first row keeps its name, avatar and creation time and replaces only the vendor data and update time |
| VendorOnboarding.VendorOnboardingPage.constructor | src/pages/onboarding/VendorOnboarding.tsx:26-37 | the page starts with the default form, no errors and not submitting |
| VendorOnboarding.VendorOnboardingPage.HandleChange | src/pages/onboarding/VendorOnboarding.tsx:68-74 | only field `k` changes, and only `k`'s error is cleared |
| VendorOnboarding.VendorOnboardingPage.Validate | src/pages/onboarding/VendorOnboarding.tsx:76-109 | the errors become the computed error map and the result is true iff it is empty; a throwing check changes nothing |
| VendorOnboarding.VendorOnboardingPage.HandleSubmit | src/pages/onboarding/VendorOnboarding.tsx:111-197 | invalid input makes no call; a missing user id goes to login; a fetch error other than PGRST116 aborts before the upsert; otherwise the merged row is upserted, then the role is saved and the vendor dashboard opens; every failure re-enables the button |
| VendorOnboarding.CheckAuthentication | src/pages/onboarding/VendorOnboarding.tsx:39-63 | login when not authenticated; existing vendor data makes vendor active and opens its dashboard; otherwise nothing is written |
| VendorOnboarding.SubmitLeavesLocalListIncomplete | src/utils/auth.ts:68-71 | after a submission that writes only the backend, the vendor dashboard's guard still sends the user to vendor onboarding |
| ProfessionalOnboarding.ProfessionalForm.With | src/pages/onboarding/ProfessionalOnboarding.tsx:61-62 | changing one field leaves every other field unchanged |
| ProfessionalOnboarding.Checked | src/pages/onboarding/ProfessionalOnboarding.tsx:72-94 | one field check extends the error map by that field's message exactly when that field fails |
| ProfessionalOnboarding.ValidIffNoFieldFails | src/pages/onboarding/ProfessionalOnboarding.tsx:69-97 | the error map is empty iff no field fails, and its keys are exactly the failing fields |
| ProfessionalOnboarding.RulesHoldWhenNoFailure | src/pages/onboarding/ProfessionalOnboarding.tsx:72-94 | if no field fails, the four text fields are non-blank, the profession is set and experience is a number of at least 0 |
| ProfessionalOnboarding.NoFailureWhenRulesHold | src/pages/onboarding/ProfessionalOnboarding.tsx:72-94 | if those rules hold, no field fails |
| ProfessionalOnboarding.ValidIffRulesHold | src/pages/onboarding/ProfessionalOnboarding.tsx:69-97 | validation passes iff the text fields are non-blank after trim, the profession is set and experience is a number of at least 0 |
| ProfessionalOnboarding.DefaultFormFailures | src/pages/onboarding/ProfessionalOnboarding.tsx:37-44 | the initial form does not throw, and exactly its four text fields fail |
| ProfessionalOnboarding.Payload | src/pages/onboarding/ProfessionalOnboarding.tsx:125-135 | the record has the session user's id, an empty picture and `createdAt = now`, and carries the form's fields unchanged |
| ProfessionalOnboarding.MountRedirect | src/pages/onboarding/ProfessionalOnboarding.tsx:49-59 | the form sends to login iff not authenticated |
| ProfessionalOnboarding.ProfessionalOnboardingPage.constructor | src/pages/onboarding/ProfessionalOnboarding.tsx:37-47 | the page starts with the default form, no errors and not submitting |
| ProfessionalOnboarding.ProfessionalOnboardingPage.HandleChange | src/pages/onboarding/ProfessionalOnboarding.tsx:61-67 | only field `k` changes, and only `k`'s error is cleared |
| ProfessionalOnboarding.ProfessionalOnboardingPage.Validate | src/pages/onboarding/ProfessionalOnboarding.tsx:69-98 | the errors become the computed error map and the result is true iff it is empty; a throwing check changes nothing |
| ProfessionalOnboarding.ProfessionalOnboardingPage.HandleSubmit | src/pages/onboarding/ProfessionalOnboarding.tsx:100-161 | invalid input makes no session lookup and no upsert; no session user goes to login without an upsert; otherwise the payload is upserted into `professionals` and success opens the professional dashboard while an error re-enables the button |
| BrowseProfessionals.VisibleIsSubsequence | src/pages/homeowner/BrowseProfessionals.tsx:31-50 | the filtered list is an order-preserving subsequence of the professionals |
| BrowseProfessionals.VisibleIffKept | src/pages/homeowner/BrowseProfessionals.tsx:31-48 | a professional is shown iff it passes both the profession filter and the search |
| BrowseProfessionals.FilterDefaults | src/pages/homeowner/BrowseProfessionals.tsx:34-39 | "all" with an empty term shows everyone; "all" applies no profession filter and an empty term no search; a specific filter shows only that profession |
| BrowseProfessionals.SearchIsCaseInsensitiveSubstring | src/pages/homeowner/BrowseProfessionals.tsx:40-47 | the search keeps a professional iff the lowercased term occurs in the lowercased name, profession, location or bio; lowercasing the term first changes nothing |
| BrowseProfessionals.FiltersCommute | src/pages/homeowner/BrowseProfessionals.tsx:31-48 | applying the search first and then the profession filter gives the same list |
| BrowseProfessionals.UniqueProfessionTypes | src/pages/homeowner/BrowseProfessionals.tsx:59-62 | the list starts with "all", then lists every profession type exactly once and nothing else |
| BrowseProfessionals.ProfessionTypesInFirstAppearanceOrder | src/pages/homeowner/BrowseProfessionals.tsx:59-62 | the types are listed in the order of their first appearance |
| BrowseProfessionals.UniqueTypesDuplicateFree | src/pages/homeowner/BrowseProfessionals.tsx:59-62 | the whole option list is duplicate-free iff no professional has the type "all" |
| BrowseProfessionals.SamplesDistinct | src/pages/homeowner/BrowseProfessionals.tsx:216-261 | the demo data has exactly four records with distinct ids |
| BrowseProfessionals.BrowseProfessionalsPage.constructor | src/pages/homeowner/BrowseProfessionals.tsx:17-20 | the page starts with empty lists, an empty term and the "all" filter |
| BrowseProfessionals.BrowseProfessionalsPage.Load | src/pages/homeowner/BrowseProfessionals.tsx:22-27 | both lists become the stored professionals |
| BrowseProfessionals.BrowseProfessionalsPage.ApplyFilters | src/pages/homeowner/BrowseProfessionals.tsx:29-51 | the staged filtering leaves exactly the visible professionals |
| BrowseProfessionals.BrowseProfessionalsPage.ChangeSearch | src/pages/homeowner/BrowseProfessionals.tsx:103 | a new term refilters by that term |
| BrowseProfessionals.BrowseProfessionalsPage.ChangeProfessionFilter | src/pages/homeowner/BrowseProfessionals.tsx:109 | a new filter refilters by that profession |
| BrowseProfessionals.BrowseProfessionalsPage.AddSampleProfessionals | src/pages/homeowner/BrowseProfessionals.tsx:210-270 | available only while the list is empty; it stores exactly the four samples and shows them |
| BrowseMaterials.VisibleIsSubsequence | src/pages/homeowner/BrowseMaterials.tsx:41-58 | the filtered list is an order-preserving subsequence of the products |
| BrowseMaterials.VisibleIffKept | src/pages/homeowner/BrowseMaterials.tsx:42-57 | a product is shown iff it passes both the category filter and the search |
| BrowseMaterials.FilterDefaults | src/pages/homeowner/BrowseMaterials.tsx:44-48 | "all" applies no category filter and an empty term no search; a specific category shows only that category |
| BrowseMaterials.MissingDescriptionNeverMatches | src/pages/homeowner/BrowseMaterials.tsx:52 | a product without a description matches only through its name or category |
| BrowseMaterials.SearchIsCaseInsensitiveSubstring | src/pages/homeowner/BrowseMaterials.tsx:49-55 | the search keeps a product iff the lowercased term occurs in its name, its description if present, or its category |
| BrowseMaterials.FiltersCommute | src/pages/homeowner/BrowseMaterials.tsx:42-55 | applying the search first and then the category filter gives the same list |
| BrowseMaterials.Categories | src/pages/homeowner/BrowseMaterials.tsx:87 | the category options are duplicate-free and are exactly the products' categories |
| BrowseMaterials.CategoriesInFirstAppearanceOrder | src/pages/homeowner/BrowseMaterials.tsx:87 | the categories are listed in the order of their first appearance |
| BrowseMaterials.BrowseMaterialsPage.constructor | src/pages/homeowner/BrowseMaterials.tsx:14-18 | the page starts loading with empty lists, an empty term and the "all" category |
| BrowseMaterials.BrowseMaterialsPage.FetchProducts | src/pages/homeowner/BrowseMaterials.tsx:21-36 | loading ends in every case; on an error both lists are unchanged; otherwise both become the rows, or empty when there are none |
| BrowseMaterials.BrowseMaterialsPage.ApplyFilters | src/pages/homeowner/BrowseMaterials.tsx:41-58 | the staged filtering leaves exactly the visible products |
| BrowseMaterials.BrowseMaterialsPage.ChangeSearch | src/pages/homeowner/BrowseMaterials.tsx:84 | a new term refilters by that term |
| BrowseMaterials.BrowseMaterialsPage.ChangeCategory | src/pages/homeowner/BrowseMaterials.tsx:86 | a new category refilters by it |
| Text.BlankIffAllWhitespace | src/pages/onboarding/VendorOnboarding.tsx:79 | a string is empty after trimming iff every character is whitespace |
| Text.ToLowerIdempotent | src/pages/homeowner/BrowseProfessionals.tsx:40-43 | lowercasing twice is lowercasing once |
| Text.ContainsIffOccurs | src/pages/homeowner/BrowseProfessionals.tsx:43 | `includes` holds iff the term occurs at some position |
| Seqs.FilterIsSubsequence | src/pages/homeowner/BrowseProfessionals.tsx:35 | `filter` keeps an order-preserving subsequence |
| Seqs.FilterCommute | src/pages/homeowner/BrowseProfessionals.tsx:34-47 | two filters applied in either order give the same result |
| Seqs.Distinct | src/pages/homeowner/BrowseProfessionals.tsx:61 | `Array.from(new Set(s))` is duplicate-free and holds exactly the elements of `s` |
| Seqs.DistinctFirstOccurrenceOrder | src/pages/homeowner/BrowseProfessionals.tsx:61 | it lists elements in the order of their first occurrence in `s` |

## Left out

- Backend calls (`supabase.auth.*`, table select/upsert, `rpc`) have unknown semantics. Their results are inputs: `Reply`, `ProfileFetch`, an upsert error, a user id or none.
- `getUserRoles`, `saveUserRole`, `getCurrentUserId` and `getPreferredRole` are imported by the pages but not defined in `src/utils/auth.ts`. Their results are uninterpreted inputs, and `saveUserRole` has no modelled effect on the store.
- `src/utils/setupSupabase.ts` runs client schema probing over RPC; it is I/O with no stated behaviour beyond logging.
- Product CRUD (`ProductForm.tsx`, `ProductsList.tsx`, `ManageProducts.tsx`) is thin wrappers over the backend query builder plus confirmation dialogs.
- The material cards, grid and search-filter components are presentational, as are the three dashboards apart from the `allowedRoles` their guards receive (`Routes.GuardOf`).
- Toasts and console logging are output only.
- `generateId` and every `Date.now()` / `new Date().toISOString()` reading are clock or randomness. They are parameters, one reading per handler; the two `Date.now()` calls in `login` are two parameters.
- Asynchronous ordering, races between overlapping effects and navigations, and React re-render semantics are not modelled. Each handler runs to completion on its inputs, and a state setter takes effect at once.
- `ApplyFilters`: the filter effect runs when its dependencies change. The model instead runs it inside `ChangeSearch` / `ChangeProfessionFilter` / `ChangeCategory`.
- `JSON.parse` of the stored lists is taken as already done, so malformed JSON throwing is out of scope. The vendor list is held by its entries' ids, the only part `hasCompletedOnboarding` reads.
- `Text.ToLower` lowercases ASCII letters only; `String.prototype.toLowerCase` also maps other Unicode letters. `Text.Trim` strips the ECMAScript whitespace and line-terminator code points.
- Form numbers are integers. `parseInt` of the number inputs happens in the JSX and is not modelled, and fractional or NaN values are not represented.
- `App.RootRedirectView.CheckAuth`: a store access that throws is the flag `storeThrows`, which sends to login.
- `VendorOnboarding.CheckAuthentication`: `getCurrentUserId` is an `Option`. A rejection there is an unhandled promise rejection that leaves the page as it is, and is not modelled.
- Form keys that have no input in the forms are not represented, for example a vendor's `id`, `logo` or `createdAt`.
- Two general descriptions of the system differ from the code; the model follows the code.
  - It is said that the guard looks up the role list when no role is active and auto-selects a single role. `ProtectedRoute` instead sends straight to `/select-role` (src/components/ProtectedRoute.tsx:32-35), and only `SelectRole` auto-selects.
  - It is said that users with no roles who land on `/` go to role selection. `RootRedirect` decides by the active role, not by the role count (src/App.tsx:44-51).
- `/homeowner/browse-materials` and `/vendor/manage-products` have pages in the repository but no entry in the route table of `App.tsx`, so they resolve to the 404 page (`Routes.UnregisteredPathsAreNotFound`).
