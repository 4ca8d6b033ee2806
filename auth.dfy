/** The session state of `src/utils/auth.ts`: everything lives in the browser's
    string-keyed local store. */
module Auth {
  import opened Wrappers
  import opened Types

  const DEFAULT_EMAIL: string := "test@skillink.com"
  const DEFAULT_PASSWORD: string := "123456"

  /** The local-store keys (`LS_KEYS`). */
  const AUTH_TOKEN: string := "skillink_auth_token"
  const ACTIVE_ROLE: string := "skillink_active_role"
  const USER_ID: string := "skillink_user_id"
  const PROFESSIONALS: string := "skillink_professionals"
  const VENDORS: string := "skillink_vendors"
  const HOMEOWNERS: string := "skillink_homeowners"

  /** A snapshot of the local store. `items` holds the plain string entries; the
      JSON lists kept under PROFESSIONALS and VENDORS are held already parsed (a
      missing key reads as `[]`), the vendor list by the ids of its entries, the
      only part of them the core reads. */
  datatype Store = Store(items: map<string, string>, professionals: seq<ProfessionalRecord>, vendors: seq<string>)
  {
    /** `getItem(key)`. */
    function Get(key: string): Option<string>
    {
      if key in items then Some(items[key]) else None
    }

    /** The store after `setItem(key, value)`. */
    function Set(key: string, value: string): (s: Store)
      ensures s.Get(key) == Some(value)
      ensures forall k :: k != key ==> s.Get(k) == Get(k)
      ensures s.professionals == professionals && s.vendors == vendors
    {
      this.(items := items[key := value])
    }

    /** The store after `removeItem(key)`. */
    function Remove(key: string): (s: Store)
      ensures s.Get(key) == None
      ensures forall k :: k != key ==> s.Get(k) == Get(k)
      ensures s.professionals == professionals && s.vendors == vendors
    {
      this.(items := items - {key})
    }
  }

  /** The store after `localStorage.clear()`. */
  const EmptyStore: Store := Store(map[], [], [])

  /** The browser's `localStorage`, the one store every page reads and writes. */
  class LocalStore {
    var items: map<string, string>
    var professionals: seq<ProfessionalRecord>
    var vendors: seq<string>

    /** The current contents. */
    function Snapshot(): Store
      reads this
    {
      Store(items, professionals, vendors)
    }

    constructor (initial: Store)
      ensures Snapshot() == initial
    {
      items, professionals, vendors := initial.items, initial.professionals, initial.vendors;
    }

    method SetItem(key: string, value: string)
      modifies this
      ensures Snapshot() == old(Snapshot()).Set(key, value)
    {
      items := items[key := value];
    }

    method RemoveItem(key: string)
      modifies this
      ensures Snapshot() == old(Snapshot()).Remove(key)
    {
      items := items - {key};
    }

    method Clear()
      modifies this
      ensures Snapshot() == EmptyStore
    {
      items, professionals, vendors := map[], [], [];
    }

    /** `setItem(PROFESSIONALS, JSON.stringify(ps))`. */
    method SaveProfessionals(ps: seq<ProfessionalRecord>)
      modifies this
      ensures Snapshot() == old(Snapshot()).(professionals := ps)
    {
      professionals := ps;
    }
  }

  /** The store after a successful `login`: a token and a user id derived from the
      clock (`tokenStamp` and `idStamp` stand for the two `Date.now()` readings). */
  function LoggedIn(s: Store, tokenStamp: string, idStamp: string): Store
  {
    s.Set(AUTH_TOKEN, "token_" + tokenStamp).Set(USER_ID, "user_" + idStamp)
  }

  /** The store after `logout`. */
  function LoggedOut(s: Store): Store
  {
    s.Remove(AUTH_TOKEN).Remove(ACTIVE_ROLE)
  }

  /** `login(email, password)`: only the default credentials succeed. */
  method Login(store: LocalStore, email: string, password: string, tokenStamp: string, idStamp: string) returns (ok: bool)
    modifies store
    ensures ok <==> email == DEFAULT_EMAIL && password == DEFAULT_PASSWORD
    ensures store.Snapshot() == if ok then LoggedIn(old(store.Snapshot()), tokenStamp, idStamp) else old(store.Snapshot())
    ensures ok ==> IsAuthenticated(store.Snapshot())
  {
    if email == DEFAULT_EMAIL && password == DEFAULT_PASSWORD {
      store.SetItem(AUTH_TOKEN, "token_" + tokenStamp);
      store.SetItem(USER_ID, "user_" + idStamp);
      return true;
    }
    return false;
  }

  /** `logout()`: forgets the token and the active role, nothing else. */
  method Logout(store: LocalStore)
    modifies store
    ensures store.Snapshot() == LoggedOut(old(store.Snapshot()))
    ensures !IsAuthenticated(store.Snapshot()) && GetActiveRole(store.Snapshot()) == None
  {
    store.RemoveItem(AUTH_TOKEN);
    store.RemoveItem(ACTIVE_ROLE);
  }

  /** `isAuthenticated()`: a non-empty token is stored. */
  predicate IsAuthenticated(s: Store)
  {
    Truthy(s.Get(AUTH_TOKEN))
  }

  /** `setActiveRole(role)`. */
  method SetActiveRole(store: LocalStore, role: Role)
    modifies store
    ensures store.Snapshot() == old(store.Snapshot()).Set(ACTIVE_ROLE, RoleName(role))
    ensures GetActiveRole(store.Snapshot()) == Some(role)
  {
    store.SetItem(ACTIVE_ROLE, RoleName(role));
  }

  /** `getActiveRole()`: the stored role, or `null` when nothing or anything other
      than a role name is stored. */
  function GetActiveRole(s: Store): (r: Option<Role>)
    ensures forall x :: r == Some(x) <==> s.Get(ACTIVE_ROLE) == Some(RoleName(x))
  {
    match s.Get(ACTIVE_ROLE)
    case Some(v) => ParseRole(v)
    case None => None
  }

  /** `hasCompletedOnboarding(role)`, which reads only the local lists. */
  predicate HasCompletedOnboarding(s: Store, role: Role)
  {
    var userId := s.Get(USER_ID);
    if !Truthy(userId) then false
    else match role
      case Professional => exists p | p in s.professionals :: p.id == userId.value
      case Vendor => userId.value in s.vendors
      case Homeowner => true
  }

  /** Logging in authenticates and leaves the active role and the lists alone. */
  lemma LoginEffect(s: Store, tokenStamp: string, idStamp: string)
    ensures IsAuthenticated(LoggedIn(s, tokenStamp, idStamp))
    ensures LoggedIn(s, tokenStamp, idStamp).Get(USER_ID) == Some("user_" + idStamp)
    ensures GetActiveRole(LoggedIn(s, tokenStamp, idStamp)) == GetActiveRole(s)
    ensures LoggedIn(s, tokenStamp, idStamp).professionals == s.professionals
    ensures LoggedIn(s, tokenStamp, idStamp).vendors == s.vendors
  {
  }

  /** Logging out keeps the user id and both lists. */
  lemma LogoutKeeps(s: Store)
    ensures LoggedOut(s).Get(USER_ID) == s.Get(USER_ID)
    ensures LoggedOut(s).professionals == s.professionals && LoggedOut(s).vendors == s.vendors
    ensures forall k :: k != AUTH_TOKEN && k != ACTIVE_ROLE ==> LoggedOut(s).Get(k) == s.Get(k)
  {
  }

  /** Setting the active role and reading it back gives the role. */
  lemma ActiveRoleRoundTrip(s: Store, r: Role)
    ensures GetActiveRole(s.Set(ACTIVE_ROLE, RoleName(r))) == Some(r)
  {
  }

  /** Onboarding status does not depend on the token or the active role. */
  lemma OnboardingIgnoresSessionKeys(s: Store, key: string, value: string, r: Role)
    requires key == AUTH_TOKEN || key == ACTIVE_ROLE
    ensures HasCompletedOnboarding(s.Set(key, value), r) == HasCompletedOnboarding(s, r)
    ensures HasCompletedOnboarding(s.Remove(key), r) == HasCompletedOnboarding(s, r)
  {
  }

  /** Without a user id no role counts as onboarded, not even homeowner; with one,
      homeowner always does and the other two need an entry with that id. */
  lemma OnboardingCases(s: Store, r: Role)
    ensures !Truthy(s.Get(USER_ID)) ==> !HasCompletedOnboarding(s, r)
    ensures Truthy(s.Get(USER_ID)) ==> HasCompletedOnboarding(s, Homeowner)
    ensures Truthy(s.Get(USER_ID)) ==>
      (HasCompletedOnboarding(s, Professional) <==> exists i :: 0 <= i < |s.professionals| && s.professionals[i].id == s.Get(USER_ID).value)
    ensures Truthy(s.Get(USER_ID)) ==>
      (HasCompletedOnboarding(s, Vendor) <==> exists i :: 0 <= i < |s.vendors| && s.vendors[i] == s.Get(USER_ID).value)
  {
  }

  /** What every writer of the store in the core keeps: a session always comes with
      a user id. */
  predicate SessionInvariant(s: Store)
  {
    IsAuthenticated(s) ==> Truthy(s.Get(USER_ID))
  }

  /** Each write the core performs keeps the session invariant. */
  lemma SessionInvariantPreserved(s: Store, tokenStamp: string, idStamp: string, r: Role, ps: seq<ProfessionalRecord>)
    ensures SessionInvariant(LoggedIn(s, tokenStamp, idStamp))
    ensures SessionInvariant(LoggedOut(s))
    ensures SessionInvariant(EmptyStore)
    ensures SessionInvariant(s) ==> SessionInvariant(s.Set(ACTIVE_ROLE, RoleName(r)))
    ensures SessionInvariant(s) ==> SessionInvariant(s.(professionals := ps))
  {
  }
}
