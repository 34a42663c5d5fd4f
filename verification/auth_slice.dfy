/**
 * The authentication store: the signed-in user, the token, the
 * authenticated flag and the `loading`/`error` flags, with every reducer case
 * of the auth slice. Device storage is an input: the values read back from
 * it are parameters.
 */
module AuthSlice {
  import opened Common

  /** A user object: its fields by name. */
  type User = map<string, string>

  /**
   * The body of a successful login response: its top-level fields (among
   * them `token`, when sent) and the nested `user` object, when sent.
   */
  datatype LoginResponse = LoginResponse(fields: map<string, string>, user: Option<User>)

  /** What `checkAuth` hands to its reducer when it finds a stored session. */
  datatype Session = Session(token: string, user: User)

  datatype Request = Login | Register

  function Fallback(req: Request): (r: string)
    ensures |r| > 0
  {
    match req
    case Login => "Login failed"
    case Register => "Registration failed"
  }
  /** No two requests share a fallback text, so a stored error names the request that failed. */
  lemma FallbackIdentifiesRequest(a: Request, b: Request)
    ensures Fallback(a) == Fallback(b) ==> a == b
  {
  }


  /** `action.payload.user || action.payload`: the nested user, else the whole response. */
  function LoginUser(resp: LoginResponse): (r: User)
    ensures resp.user.Some? ==> r == resp.user.value
    ensures resp.user.None? ==> r == resp.fields
  {
    match resp.user
    case Some(u) => u
    case None => resp.fields
  }

  /** `action.payload.token`, missing when the response has no token. */
  function LoginToken(resp: LoginResponse): (r: Option<string>)
    ensures r.Some? <==> "token" in resp.fields
    ensures r.Some? ==> r.value == resp.fields["token"]
  {
    if "token" in resp.fields then Some(resp.fields["token"]) else None
  }

  /** JavaScript truthiness of a value read from storage: present and not the empty string. */
  predicate Stored(v: Option<string>) {
    v.Some? && v.value != ""
  }

  /**
   * The result of `checkAuth` given what storage holds: a session exactly when
   * both a token and a user are stored. `parsedUser` is `JSON.parse` of the
   * stored user text, which the model takes as given.
   */
  function StoredSession(storedToken: Option<string>, storedUser: Option<string>, parsedUser: User): (r: Option<Session>)
    ensures r.Some? <==> Stored(storedToken) && Stored(storedUser)
    ensures r.Some? ==> r.value.token == storedToken.value && r.value.user == parsedUser
  {
    if Stored(storedToken) && Stored(storedUser) then Some(Session(storedToken.value, parsedUser)) else None
  }

  /**
   * `{ ...user, ...payload }`: every payload field with the payload's value,
   * every other field of the existing user kept, nothing else. A missing user
   * spreads as no fields.
   */
  function MergeProfile(user: Option<User>, payload: User): (r: User)
    ensures r.Keys == payload.Keys + (if user.Some? then user.value.Keys else {})
    ensures forall k :: k in payload ==> r[k] == payload[k]
    ensures user.Some? ==> forall k :: k in user.value && k !in payload ==> r[k] == user.value[k]
  {
    match user
    case None => payload
    case Some(u) => u + payload
  }

  datatype AuthState = AuthState(
    user: Option<User>,
    token: Option<string>,
    isAuthenticated: bool,
    loading: bool,
    error: Option<string>)

  /** The auth slice; each method is one reducer case and updates the fields in place. */
  class AuthStore {
    var user: Option<User>
    var token: Option<string>
    var isAuthenticated: bool
    var loading: bool
    var error: Option<string>

    function State(): AuthState
      reads this
    {
      AuthState(user, token, isAuthenticated, loading, error)
    }

    /** `initialState`: signed out. */
    constructor ()
      ensures State() == AuthState(None, None, false, false, None)
    {
      user := None;
      token := None;
      isAuthenticated := false;
      loading := false;
      error := None;
    }

    method ClearError()
      modifies this
      ensures State() == old(State()).(error := None)
    {
      error := None;
    }

    /** Merge edited profile fields into the user (the storage write is left out). */
    method UpdateProfile(payload: User)
      modifies this
      ensures user == Some(MergeProfile(old(user), payload))
      ensures State() == old(State()).(user := user)
    {
      user := Some(MergeProfile(user, payload));
    }

    /** `login.pending` and `register.pending`. */
    method Pending()
      modifies this
      ensures State() == old(State()).(loading := true, error := None)
    {
      loading := true;
      error := None;
    }

    /** `login.rejected` and `register.rejected`: the session is untouched. */
    method Rejected(req: Request, payload: Option<ErrorPayload>)
      modifies this
      ensures error == RejectedError(payload, Fallback(req))
      ensures State() == old(State()).(loading := false, error := error)
    {
      loading := false;
      error := RejectedError(payload, Fallback(req));
    }

    /** A successful login authenticates with the response's user and token. */
    method LoginFulfilled(resp: LoginResponse)
      modifies this
      ensures isAuthenticated && !loading
      ensures State() == old(State()).(loading := false, isAuthenticated := true,
                                       user := Some(LoginUser(resp)), token := LoginToken(resp))
    {
      loading := false;
      isAuthenticated := true;
      user := Some(LoginUser(resp));
      token := LoginToken(resp);
    }

    /** A successful registration only stops loading: it never signs in. */
    method RegisterFulfilled()
      modifies this
      ensures State() == old(State()).(loading := false)
    {
      loading := false;
    }

    /** Logging out forgets the user and the token. */
    method LogoutFulfilled()
      modifies this
      ensures State() == old(State()).(user := None, token := None, isAuthenticated := false)
    {
      user := None;
      token := None;
      isAuthenticated := false;
    }

    /** A stored session signs in; no stored session leaves the state as it is. */
    method CheckAuthFulfilled(result: Option<Session>)
      modifies this
      ensures result.None? ==> State() == old(State())
      ensures result.Some? ==> State() == old(State()).(isAuthenticated := true,
                                 user := Some(result.value.user), token := Some(result.value.token))
    {
      if result.Some? {
        isAuthenticated := true;
        user := Some(result.value.user);
        token := Some(result.value.token);
      }
    }
  }
}
