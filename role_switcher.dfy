/** `RoleSwitcher`: the header menu that changes the active role or signs out. */
module RoleSwitcher {
  import opened Wrappers
  import opened Types
  import opened Auth
  import opened Routes

  /** `roleLabels`. */
  function RoleLabel(r: Role): string
  {
    match r
    case Homeowner => "Homeowner"
    case Professional => "Professional"
    case Vendor => "Vendor"
  }

  /** Different roles are shown with different labels. */
  lemma RoleLabelInjective(a: Role, b: Role)
    requires RoleLabel(a) == RoleLabel(b)
    ensures a == b
  {
  }

  /** What the component renders: the label of the active role and the roles it offers. */
  datatype Menu = Menu(caption: string, options: seq<Role>)

  /** The menu entries, in order; they do not depend on the roles the user holds. */
  const MenuOptions: seq<Role> := [Homeowner, Professional, Vendor]

  /** The rendered menu, or nothing (`null`) without an active role. */
  function Render(s: Store): (m: Option<Menu>)
    ensures m.None? <==> GetActiveRole(s).None?
    ensures m.Some? ==> m.value.caption == RoleLabel(GetActiveRole(s).value)
    ensures m.Some? ==> m.value.options == MenuOptions
  {
    match GetActiveRole(s)
    case None => None
    case Some(r) => Some(Menu(RoleLabel(r), MenuOptions))
  }

  /** Every role is on offer, once, whichever roles the user holds. */
  lemma MenuOffersEveryRole(r: Role)
    ensures r in MenuOptions
    ensures forall i, j :: 0 <= i < j < |MenuOptions| ==> MenuOptions[i] != MenuOptions[j]
  {
    match r
    case Homeowner => assert MenuOptions[0] == r;
    case Professional => assert MenuOptions[1] == r;
    case Vendor => assert MenuOptions[2] == r;
  }

  /** The dropdown's `open` state. */
  class Switcher {
    var open: bool

    constructor ()
      ensures !open
    {
      open := false;
    }

    /** `handleRoleChange(role)`: the new role is stored, the menu closes and role
        selection takes over. */
    method HandleRoleChange(store: LocalStore, role: Role) returns (nav: Route)
      modifies this, store
      ensures store.Snapshot() == old(store.Snapshot()).Set(ACTIVE_ROLE, RoleName(role))
      ensures GetActiveRole(store.Snapshot()) == Some(role)
      ensures !open && nav == ToSelectRole
    {
      SetActiveRole(store, role);
      open := false;
      nav := ToSelectRole;
    }

    /** `handleLogout`: unlike `logout`, this empties the whole store, user id and
        lists included. */
    method HandleLogout(store: LocalStore) returns (nav: Route)
      modifies store
      ensures store.Snapshot() == EmptyStore
      ensures !IsAuthenticated(store.Snapshot()) && store.Snapshot().Get(USER_ID) == None
      ensures nav == ToLogin
    {
      store.Clear();
      nav := ToLogin;
    }
  }
}
