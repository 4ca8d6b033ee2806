/** `SelectRole`: the role-selection screen. `getUserRoles`, `saveUserRole` and the
    backend sign-out are not part of this model; their outcomes are inputs. */
module SelectRole {
  import opened Wrappers
  import opened Types
  import opened Auth
  import opened Routes

  /** `roleCards[…].title`. */
  function CardTitle(r: Role): string
  {
    match r
    case Homeowner => "Homeowner"
    case Professional => "Professional"
    case Vendor => "Vendor"
  }

  /** The cards, in display order. */
  const Cards: seq<Role> := [Homeowner, Professional, Vendor]

  /** `buttonText`: "Continue as …" for a role the user holds, "+ Add … Role" otherwise. */
  function ButtonText(userRoles: seq<Role>, r: Role): (t: string)
    ensures r in userRoles <==> t == "Continue as " + CardTitle(r)
    ensures r !in userRoles <==> t == "+ Add " + CardTitle(r) + " Role"
  {
    if r in userRoles then "Continue as " + CardTitle(r) else "+ Add " + CardTitle(r) + " Role"
  }

  /** For a fixed set of held roles, the label tells which card it is on. */
  lemma ButtonTextInjective(userRoles: seq<Role>, a: Role, b: Role)
    requires ButtonText(userRoles, a) == ButtonText(userRoles, b)
    ensures a == b
  {
  }

  /** What the page shows. */
  datatype View = LoadingView | CardsView(subtitle: string, buttons: seq<string>)

  const MANY_ROLES_SUBTITLE := "Select one of your roles to continue"
  const FIRST_ROLE_SUBTITLE := "Select your role to continue to your personalized dashboard experience"

  /** The button of a card: "Loading..." while that card's role is being selected. */
  function CardButton(isLoading: bool, selectedRole: Option<Role>, userRoles: seq<Role>, r: Role): string
  {
    if isLoading && selectedRole == Some(r) then "Loading..." else ButtonText(userRoles, r)
  }

  /** The rendered page: the loading screen replaces the cards while loading, so a
      card's "Loading..." label is never on screen. */
  function Render(isLoading: bool, selectedRole: Option<Role>, userRoles: seq<Role>): (v: View)
    ensures v.LoadingView? <==> isLoading
    ensures v.CardsView? ==> v.subtitle == (if |userRoles| > 1 then MANY_ROLES_SUBTITLE else FIRST_ROLE_SUBTITLE)
    ensures v.CardsView? ==> |v.buttons| == |Cards|
    ensures v.CardsView? ==> forall i :: 0 <= i < |Cards| ==>
      v.buttons[i] == ButtonText(userRoles, Cards[i]) && v.buttons[i] != "Loading..."
  {
    if isLoading then LoadingView
    else CardsView(if |userRoles| > 1 then MANY_ROLES_SUBTITLE else FIRST_ROLE_SUBTITLE,
                   seq(|Cards|, i requires 0 <= i < |Cards| => CardButton(isLoading, selectedRole, userRoles, Cards[i])))
  }

  /** The page's state. */
  class SelectRoleView {
    var isLoading: bool
    var selectedRole: Option<Role>
    var userRoles: seq<Role>

    constructor ()
      ensures isLoading && selectedRole == None && userRoles == []
    {
      isLoading, selectedRole, userRoles := true, None, [];
    }

    /** `checkAuthAndRoles`, run on mount. `roles` is what `getUserRoles` did. */
    method CheckAuthAndRoles(store: LocalStore, roles: Reply<seq<Role>>) returns (nav: Option<Route>)
      modifies this, store
      ensures selectedRole == old(selectedRole)
      // No session, or the role lookup threw: back to the login page, nothing written.
      ensures !IsAuthenticated(old(store.Snapshot())) || roles.Threw? ==>
        && nav == Some(ToLogin) && store.Snapshot() == old(store.Snapshot())
        && isLoading == old(isLoading)
        && userRoles == old(userRoles)
      ensures IsAuthenticated(old(store.Snapshot())) && roles.Returned? ==> userRoles == roles.value
      // Exactly one role: it becomes active and its dashboard opens.
      ensures IsAuthenticated(old(store.Snapshot())) && roles.Returned? && |roles.value| == 1 ==>
        && nav == Some(ToDashboard(roles.value[0]))
        && store.Snapshot() == old(store.Snapshot()).Set(ACTIVE_ROLE, RoleName(roles.value[0]))
        && isLoading == old(isLoading)
      // None or several: the cards are shown and nothing else happens.
      ensures IsAuthenticated(old(store.Snapshot())) && roles.Returned? && |roles.value| != 1 ==>
        && nav == None && !isLoading
        && store.Snapshot() == old(store.Snapshot())
    {
      var authenticated := IsAuthenticated(store.Snapshot());
      if !authenticated {
        return Some(ToLogin);
      }
      if roles.Threw? {
        return Some(ToLogin);
      }
      var rs := roles.value;
      userRoles := rs;
      if |rs| == 1 {
        var role := rs[0];
        SetActiveRole(store, role);
        return Some(ToDashboard(role));
      }
      isLoading := false;
      nav := None;
    }

    /** `handleRoleSelect(role)`. `save` is what `saveUserRole(role)` did; `saved`
        tells whether it was called. */
    method HandleRoleSelect(store: LocalStore, role: Role, save: Reply<()>) returns (nav: Option<Route>, saved: bool)
      modifies this, store
      ensures userRoles == old(userRoles) && selectedRole == Some(role)
      // The role is made active before anything else, so also on the error path.
      ensures store.Snapshot() == old(store.Snapshot()).Set(ACTIVE_ROLE, RoleName(role))
      ensures saved <==> role !in userRoles
      ensures role in userRoles ==> nav == Some(ToDashboard(role)) && isLoading
      ensures role !in userRoles && save.Threw? ==> nav == None && !isLoading
      ensures role !in userRoles && save.Returned? ==> (isLoading &&
        nav == Some(if role != Homeowner && !HasCompletedOnboarding(old(store.Snapshot()), role)
                    then ToOnboarding(role) else ToDashboard(role)))
    {
      selectedRole := Some(role);
      isLoading := true;
      ghost var before := store.Snapshot();
      SetActiveRole(store, role);
      saved := false;
      if role in userRoles {
        return Some(ToDashboard(role)), saved;
      }
      saved := true;
      if save.Threw? {
        isLoading := false;
        return None, saved;
      }
      if role == Homeowner {
        return Some(ToDashboard(role)), saved;
      }
      OnboardingIgnoresSessionKeys(before, ACTIVE_ROLE, RoleName(role), role);
      var completed := HasCompletedOnboarding(store.Snapshot(), role);
      if !completed {
        nav := Some(ToOnboarding(role));
      } else {
        nav := Some(ToDashboard(role));
      }
    }

    /** `handleLogout`: after the backend sign-out the whole store is emptied; if the
        sign-out throws, nothing changes. */
    method HandleLogout(store: LocalStore, signOut: Reply<()>) returns (nav: Option<Route>)
      modifies store
      ensures signOut.Returned? ==> store.Snapshot() == EmptyStore && nav == Some(ToLogin)
      ensures signOut.Threw? ==> store.Snapshot() == old(store.Snapshot()) && nav == None
    {
      if signOut.Threw? {
        return None;
      }
      store.Clear();
      nav := Some(ToLogin);
    }
  }

  /** Every target role selection can choose is a registered route: onboarding is
      only chosen for the two roles that have a form. */
  lemma SelectionTargetsRegistered(s: Store, userRoles: seq<Role>, role: Role)
    ensures Registered(ToDashboard(role)) && Registered(ToLogin)
    ensures role != Homeowner ==> Registered(ToOnboarding(role))
  {
    RegisteredTargets(ToDashboard(role));
    RegisteredTargets(ToLogin);
    RegisteredTargets(ToOnboarding(role));
  }
}
