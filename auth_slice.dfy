/** The client's authentication slice: who is signed in, under which role. */
module AuthSlice {
  import opened Wrappers

  /** The payload `login` reads. */
  datatype LoginPayload = LoginPayload(email: string, username: string, role: string)

  /** The slice's state as a value; `None` stands for `null`. */
  datatype AuthState = AuthState(role: Option<string>, username: Option<string>,
                                 user: Option<string>, isAuthenticated: bool)

  /** `initialState`. */
  const Initial: AuthState := AuthState(None, None, None, false)

  /** The state `login` leaves behind. */
  function AfterLogin(s: AuthState, p: LoginPayload): (r: AuthState)
    ensures r.isAuthenticated
    ensures r.role == Some(p.role) && r.user == Some(p.email) && r.username == Some(p.username)
  {
    AuthState(Some(p.role), Some(p.username), Some(p.email), true)
  }

  /** The state `logout` leaves behind: `role` is not among the fields it resets. */
  function AfterLogout(s: AuthState): (r: AuthState)
    ensures !r.isAuthenticated && r.user.None? && r.username.None?
    ensures r.role == s.role
  {
    s.(user := None, username := None, isAuthenticated := false)
  }

  /** The slice's state record, updated field by field by the reducers. */
  class AuthStore {
    var role: Option<string>
    var username: Option<string>
    var user: Option<string>
    var isAuthenticated: bool

    function State(): AuthState
      reads this
    {
      AuthState(role, username, user, isAuthenticated)
    }

    /** `initialState`: nobody signed in, no role. */
    constructor ()
      ensures State() == Initial
    {
      role, username, user, isAuthenticated := None, None, None, false;
    }

    /** `login`: record role, email and name, and mark the session authenticated. */
    method Login(p: LoginPayload)
      modifies this
      ensures State() == AfterLogin(old(State()), p)
    {
      role := Some(p.role);
      user := Some(p.email);
      username := Some(p.username);
      isAuthenticated := true;
    }

    /** `logout`: forget the user and the name, and mark the session unauthenticated. */
    method Logout()
      modifies this
      ensures State() == AfterLogout(old(State()))
    {
      user := None;
      username := None;
      isAuthenticated := false;
    }
  }

  /** The initial state holds no identity and is not authenticated. */
  lemma InitialIsSignedOut()
    ensures Initial.role.None? && Initial.username.None? && Initial.user.None?
    ensures !Initial.isAuthenticated
  {
  }

  /** Logging out twice is logging out once. */
  lemma LogoutIdempotent(s: AuthState)
    ensures AfterLogout(AfterLogout(s)) == AfterLogout(s)
  {
  }

  /**
   * `login` then `logout` signs the session out whatever came before,
   * and the role given at login survives the logout.
   */
  lemma LoginThenLogout(s: AuthState, p: LoginPayload)
    ensures AfterLogout(AfterLogin(s, p)) == AuthState(Some(p.role), None, None, false)
  {
  }
}
