/** `App`: the root redirect. The route table itself is in `Routes`. */
module App {
  import opened Wrappers
  import opened Types
  import opened Auth
  import opened Routes

  /** `RootRedirect`, the element rendered at `/`. */
  class RootRedirectView {
    var isLoading: bool

    constructor ()
      ensures isLoading
    {
      isLoading := true;
    }

    /** `checkAuth`: the location it assigns. `storeThrows` stands for a read of the
        local store raising an exception, which the `catch` turns into `/login`. */
    method CheckAuth(store: LocalStore, storeThrows: bool) returns (href: Route)
      modifies this
      ensures !isLoading
      ensures storeThrows ==> href == ToLogin
      ensures !storeThrows && !IsAuthenticated(store.Snapshot()) ==> href == ToLogin
      ensures !storeThrows && IsAuthenticated(store.Snapshot()) && GetActiveRole(store.Snapshot()) == None ==> href == ToSelectRole
      ensures forall r :: !storeThrows && IsAuthenticated(store.Snapshot()) && GetActiveRole(store.Snapshot()) == Some(r) ==>
        href == ToDashboard(r)
      ensures Registered(href)
    {
      if storeThrows {
        href := ToLogin;
      } else if !IsAuthenticated(store.Snapshot()) {
        href := ToLogin;
      } else {
        var activeRole := GetActiveRole(store.Snapshot());
        if activeRole.None? {
          href := ToSelectRole;
        } else {
          href := ToDashboard(activeRole.value);
        }
      }
      isLoading := false;
      RegisteredTargets(href);
    }
  }
}
