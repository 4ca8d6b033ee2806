/** `Login`: the sign-in form. */
module LoginPage {
  import opened Wrappers
  import opened Types
  import opened Auth
  import opened Routes

  const MissingFieldsMessage: string := "Please enter both email and password"
  const InvalidCredentialsMessage: string := "Invalid credentials. Try test@skillink.com / 123456"

  /** The redirect issued while rendering: a signed-in user goes to role selection. */
  function RenderRedirect(s: Store): (nav: Option<Route>)
    ensures nav.Some? <==> IsAuthenticated(s)
    ensures nav.Some? ==> nav.value == ToSelectRole
  {
    if IsAuthenticated(s) then Some(ToSelectRole) else None
  }

  /** The form's state. */
  class LoginForm {
    var email: string
    var password: string
    var error: string
    var isLoading: bool

    /** The form starts filled in with the default credentials. */
    constructor ()
      ensures email == DEFAULT_EMAIL && password == DEFAULT_PASSWORD
      ensures error == "" && !isLoading
    {
      email, password := DEFAULT_EMAIL, DEFAULT_PASSWORD;
      error, isLoading := "", false;
    }

    /** `handleLogin`. The stamps stand for the clock readings `login` makes. */
    method HandleLogin(store: LocalStore, tokenStamp: string, idStamp: string) returns (nav: Option<Route>)
      modifies this`error, this`isLoading, store
      ensures email == old(email) && password == old(password)
      // An empty field: `login` is not called and the store is untouched.
      ensures (old(email) == "" || old(password) == "") ==>
        && nav == None && error == MissingFieldsMessage && !isLoading
        && store.Snapshot() == old(store.Snapshot())
      // The default credentials: the session is written and the user moves on.
      ensures old(email) == DEFAULT_EMAIL && old(password) == DEFAULT_PASSWORD ==>
        && nav == Some(ToSelectRole) && error == "" && isLoading
        && store.Snapshot() == LoggedIn(old(store.Snapshot()), tokenStamp, idStamp)
        && IsAuthenticated(store.Snapshot())
      // Anything else: an inline message, no navigation, the store untouched.
      ensures old(email) != "" && old(password) != "" && !(old(email) == DEFAULT_EMAIL && old(password) == DEFAULT_PASSWORD) ==>
        && nav == None && error == InvalidCredentialsMessage && !isLoading
        && store.Snapshot() == old(store.Snapshot())
    {
      isLoading := true;
      error := "";
      if email == "" || password == "" {
        error := MissingFieldsMessage;
        isLoading := false;
        return None;
      }
      var success := Login(store, email, password, tokenStamp, idStamp);
      if success {
        nav := Some(ToSelectRole);
      } else {
        error := InvalidCredentialsMessage;
        isLoading := false;
        nav := None;
      }
    }
  }
}
