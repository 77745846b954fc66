/**
 * The prototype's authentication slice: the signed-in user, the bearer
 * token, whether the client counts as authenticated, and a loading flag
 * and error message for the login and registration forms. Local storage
 * reads become constructor parameters; its writes and the toasts are left
 * out.
 */
module AuthSlice {
  import opened Wrappers

  /** The user record the server returns (only the fields the client shows). */
  datatype User = User(id: string, username: string)

  /** The payload of `loginSuccess` and `registerSuccess`: the server always sends a token string. */
  datatype AuthPayload = AuthPayload(user: User, token: string)


  class AuthState {
    var user: Option<User>
    var token: Option<string>
    var isAuthenticated: bool
    var loading: bool
    var error: Option<string>

    /** The client counts as authenticated exactly when it holds a token. */
    ghost predicate Valid()
      reads this
    {
      isAuthenticated <==> token.Some?
    }

    /**
     * `initialState`: the stored token is used only when truthy, and
     * `isAuthenticated` is `!!storedToken`, the same test.
     */
    constructor (storedUser: Option<User>, storedToken: Option<string>)
      ensures Valid()
      ensures token == (if Truthy(storedToken) then storedToken else None)
      ensures isAuthenticated == Truthy(storedToken)
      ensures user == storedUser && !loading && error == None
    {
      user := storedUser;
      token := if Truthy(storedToken) then storedToken else None;
      isAuthenticated := Truthy(storedToken);
      loading := false;
      error := None;
    }

    /** `loginStart` and `registerStart`: loading, no error, nothing else changes. */
    method Start()
      requires Valid()
      modifies this`loading, this`error
      ensures Valid()
      ensures loading && error == None
      ensures user == old(user) && token == old(token) && isAuthenticated == old(isAuthenticated)
    {
      loading := true;
      error := None;
    }

    /** `loginSuccess` and `registerSuccess`: signed in with the payload's user and token; the error is left as it was. */
    method Success(payload: AuthPayload)
      requires Valid()
      modifies this`loading, this`isAuthenticated, this`user, this`token
      ensures Valid()
      ensures !loading && isAuthenticated
      ensures user == Some(payload.user) && token == Some(payload.token)
      ensures error == old(error)
    {
      loading := false;
      isAuthenticated := true;
      user := Some(payload.user);
      token := Some(payload.token);
    }

    /** `loginFailure` and `registerFailure`: not loading, the error is the payload, the session is untouched. */
    method Failure(message: string)
      requires Valid()
      modifies this`loading, this`error
      ensures Valid()
      ensures !loading && error == Some(message)
      ensures user == old(user) && token == old(token) && isAuthenticated == old(isAuthenticated)
    {
      loading := false;
      error := Some(message);
    }

    /** `logout`: user and token dropped, not authenticated; loading and error untouched. */
    method Logout()
      requires Valid()
      modifies this`user, this`token, this`isAuthenticated
      ensures Valid()
      ensures user == None && token == None && !isAuthenticated
      ensures loading == old(loading) && error == old(error)
    {
      user := None;
      token := None;
      isAuthenticated := false;
    }

    /** `clearError`: only the error is cleared. */
    method ClearError()
      requires Valid()
      modifies this`error
      ensures Valid()
      ensures error == None
      ensures user == old(user) && token == old(token) && isAuthenticated == old(isAuthenticated) && loading == old(loading)
    {
      error := None;
    }
  }
}
