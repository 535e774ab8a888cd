/**
 * The client session store: a UI-facing cache of who is signed in, changed
 * only through its own actions, none of which validates its input.
 */
module AuthStore {
  import opened Wrappers

  datatype User = User(id: string, username: string, email: Option<string>)

  /** A snapshot of the store's four fields. */
  datatype AuthState = AuthState(user: Option<User>, isAuthenticated: bool, isLoading: bool, error: Option<string>)

  const Initial := AuthState(None, false, false, None)

  /** The state `logout` leaves: signed out, with `isLoading` as it was. */
  function LoggedOut(s: AuthState): (r: AuthState)
    ensures r.isLoading == s.isLoading
    ensures r == Initial.(isLoading := s.isLoading)
  {
    s.(user := None, isAuthenticated := false, error := None)
  }

  /** Logging out twice is logging out once, and logging out from the initial state changes nothing. */
  lemma LoggedOutIdempotent(s: AuthState)
    ensures LoggedOut(LoggedOut(s)) == LoggedOut(s)
    ensures LoggedOut(Initial) == Initial
  {
  }

  class AuthStore {
    var user: Option<User>
    var isAuthenticated: bool
    var isLoading: bool
    var error: Option<string>

    /** The store's current snapshot. */
    function State(): AuthState
      reads this
    {
      AuthState(user, isAuthenticated, isLoading, error)
    }

    constructor ()
      ensures State() == Initial
    {
      user, isAuthenticated, isLoading, error := None, false, false, None;
    }

    method SetUser(u: Option<User>)
      modifies this
      ensures State() == old(State()).(user := u)
    {
      user := u;
    }

    method SetIsAuthenticated(value: bool)
      modifies this
      ensures State() == old(State()).(isAuthenticated := value)
    {
      isAuthenticated := value;
    }

    method SetIsLoading(value: bool)
      modifies this
      ensures State() == old(State()).(isLoading := value)
    {
      isLoading := value;
    }

    method SetError(e: Option<string>)
      modifies this
      ensures State() == old(State()).(error := e)
    {
      error := e;
    }

    method Logout()
      modifies this
      ensures State() == LoggedOut(old(State()))
    {
      user, isAuthenticated, error := None, false, None;
    }

    method Reset()
      modifies this
      ensures State() == Initial
    {
      user, isAuthenticated, isLoading, error := None, false, false, None;
    }
  }

  /** No action checks consistency: a store can claim to be authenticated with no user. */
  method AuthenticatedWithoutUser() returns (s: AuthStore)
    ensures s.isAuthenticated && s.user.None?
  {
    s := new AuthStore();
    s.SetIsAuthenticated(true);
  }

  /** Logging out, then logging out again, leaves the state the first logout left. */
  method LogoutTwice(s: AuthStore)
    modifies s
    ensures s.State() == LoggedOut(old(s.State()))
  {
    s.Logout();
    ghost var once := s.State();
    s.Logout();
    LoggedOutIdempotent(old(s.State()));
    assert s.State() == once;
  }
}
