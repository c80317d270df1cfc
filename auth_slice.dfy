/**
 * The auth slice of the store: the signed-in user, the bearer token, the
 * user type, a loading flag and the last error, with the reducer cases for
 * `logout` and for the pending/fulfilled/rejected phases of the `login` and
 * `register` thunks. The browser's durable storage is reduced to the one
 * entry the slice uses, the persisted token.
 */
module AuthSlice {
  import opened Wrappers
  import opened Http

  /** The user record the slice stores; only `user_type` is ever read. */
  datatype User = User(user_type: Option<string>)

  /** What `/login/` and `/register/` answer with on success. */
  datatype AuthPayload = AuthPayload(access: string, user_type: Option<string>, user: Option<User>)

  datatype AuthState = AuthState(
    user: Option<User>,
    token: Option<string>,
    userType: Option<string>,
    isLoading: bool,
    error: Option<Body>)

  /** The initial state: nobody signed in, the token read back from storage. */
  function InitialState(persisted: Option<string>): (s: AuthState)
    ensures s.user == None && s.userType == None && !s.isLoading && s.error == None
    ensures s.token == persisted
  {
    AuthState(None, persisted, None, false, None)
  }

  const LoginFallback := "Login failed"
  const RegisterFallback := "Registration failed"

  datatype AuthAction =
    | Logout
    | LoginPending
    | LoginFulfilled(loginPayload: AuthPayload)
    | LoginRejected(loginError: Body)
    | RegisterPending
    | RegisterFulfilled(registerPayload: AuthPayload)
    | RegisterRejected(registerError: Body)

  /** `state.auth.user?.user_type === "instructor"`. */
  predicate IsInstructor(user: Option<User>) {
    user.Some? && user.value.user_type == Some("instructor")
  }

  // ---------------------------------------------------------------------
  // Thunks
  // ---------------------------------------------------------------------

  /**
   * How `login` (with `fallback` "Login failed") or `register` (with
   * "Registration failed") settles: the response data on success, else the
   * whole response body when it is truthy, else the fallback text.
   */
  function AuthSettle(response: Response<AuthPayload>, fallback: string): (s: Settled<AuthPayload, Body>)
    ensures response.Ok? <==> s.Fulfilled?
    ensures s.Fulfilled? ==> s.payload == response.data
    ensures s.Rejected? && response.error.body.Some? && Truthy(response.error.body.value)
            ==> s.reason == response.error.body.value
    ensures s.Rejected? && (response.error.body.None? || !Truthy(response.error.body.value))
            ==> s.reason == Text(fallback)
  {
    match response
    case Ok(data) => Fulfilled(data)
    case Failed(e) => Rejected(BodyOr(e.body, fallback))
  }

  /** The persisted token after a thunk: the new access token on success, untouched on failure. */
  function StoredAfter(stored: Option<string>, response: Response<AuthPayload>): (t: Option<string>)
    ensures response.Ok? ==> t == Some(response.data.access)
    ensures response.Failed? ==> t == stored
  {
    if response.Ok? then Some(response.data.access) else stored
  }

  function LoginSettleAction(s: Settled<AuthPayload, Body>): AuthAction {
    match s
    case Fulfilled(p) => LoginFulfilled(p)
    case Rejected(b) => LoginRejected(b)
  }

  function RegisterSettleAction(s: Settled<AuthPayload, Body>): AuthAction {
    match s
    case Fulfilled(p) => RegisterFulfilled(p)
    case Rejected(b) => RegisterRejected(b)
  }

  // ---------------------------------------------------------------------
  // The reducer, as a function on the slice's state
  // ---------------------------------------------------------------------

  /**
   * The slice's reducer. The session (user, token, user type) changes only on
   * `logout` and a fulfilled login or registration; the error only on a
   * pending or rejected phase.
   */
  function Reduce(s: AuthState, a: AuthAction): (r: AuthState)
    ensures (r.user, r.token, r.userType) != (s.user, s.token, s.userType) ==>
              a.Logout? || a.LoginFulfilled? || a.RegisterFulfilled?
    ensures r.error != s.error ==>
              a.LoginPending? || a.LoginRejected? || a.RegisterPending? || a.RegisterRejected?
  {
    match a
    case Logout => s.(user := None, token := None, userType := None)
    case LoginPending => s.(isLoading := true, error := None)
    case LoginFulfilled(p) =>
      s.(isLoading := false, token := Some(p.access), userType := p.user_type, user := Some(User(p.user_type)))
    case LoginRejected(b) => s.(isLoading := false, error := Some(b))
    case RegisterPending => s.(isLoading := true, error := None)
    case RegisterFulfilled(p) =>
      s.(isLoading := false, token := Some(p.access), user := p.user, userType := p.user_type)
    case RegisterRejected(b) => s.(isLoading := false, error := Some(b))
  }

  /** The persisted token after an action reaches the reducer: only `logout` touches it. */
  function PersistedAfter(stored: Option<string>, a: AuthAction): (t: Option<string>)
    ensures a.Logout? ==> t == None
    ensures !a.Logout? ==> t == stored
  {
    if a.Logout? then None else stored
  }

  /** A whole `login` or `register` dispatch: pending, then the action the response settles to. */
  function LoginLifecycle(s: AuthState, response: Response<AuthPayload>): AuthState {
    Reduce(Reduce(s, LoginPending), LoginSettleAction(AuthSettle(response, LoginFallback)))
  }

  function RegisterLifecycle(s: AuthState, response: Response<AuthPayload>): AuthState {
    Reduce(Reduce(s, RegisterPending), RegisterSettleAction(AuthSettle(response, RegisterFallback)))
  }

  /** `logout` clears the session whatever it was, and doing it twice is doing it once. */
  lemma LogoutIdempotent(s: AuthState)
    ensures Reduce(Reduce(s, Logout), Logout) == Reduce(s, Logout)
    ensures Reduce(s, Logout).token == None && Reduce(s, Logout).user == None
  {
  }

  /**
   * A successful login stores the access token and the user type, and a user
   * record built from the user type, so the user counts as an instructor
   * exactly when the server said so.
   */
  lemma LoginSucceeds(s: AuthState, p: AuthPayload)
    ensures LoginLifecycle(s, Ok(p)) == AuthState(Some(User(p.user_type)), Some(p.access), p.user_type, false, None)
    ensures IsInstructor(LoginLifecycle(s, Ok(p)).user) <==> p.user_type == Some("instructor")
  {
  }

  /**
   * A successful registration stores the access token and user type, but the
   * user is whatever `user` the payload carried: without one, a newly
   * registered instructor is not seen as an instructor.
   */
  lemma RegisterSucceeds(s: AuthState, p: AuthPayload)
    ensures RegisterLifecycle(s, Ok(p)) == AuthState(p.user, Some(p.access), p.user_type, false, None)
    ensures p.user.None? ==> !IsInstructor(RegisterLifecycle(s, Ok(p)).user)
  {
  }

  /** A failed login or registration keeps the session and records the rejection payload. */
  lemma FailedAuthKeepsSession(s: AuthState, e: HttpError)
    ensures LoginLifecycle(s, Failed(e)) == s.(isLoading := false, error := Some(BodyOr(e.body, LoginFallback)))
    ensures RegisterLifecycle(s, Failed(e)) == s.(isLoading := false, error := Some(BodyOr(e.body, RegisterFallback)))
  {
  }

  /** The in-memory token agrees with the persisted one. */
  predicate InSync(s: AuthState, stored: Option<string>) {
    s.token == stored
  }

  /**
   * Every complete operation keeps the in-memory token and the persisted
   * token in agreement: login and register (the thunk writes storage, the
   * fulfilled case the state), and logout (the reducer clears both).
   */
  lemma OperationsKeepTokenInSync(s: AuthState, stored: Option<string>, response: Response<AuthPayload>)
    requires InSync(s, stored)
    ensures InSync(LoginLifecycle(s, response), StoredAfter(stored, response))
    ensures InSync(RegisterLifecycle(s, response), StoredAfter(stored, response))
    ensures InSync(Reduce(s, Logout), PersistedAfter(stored, Logout))
  {
  }

  /** The initial state starts in agreement with storage. */
  lemma InitialStateInSync(persisted: Option<string>)
    ensures InSync(InitialState(persisted), persisted)
  {
  }

  // ---------------------------------------------------------------------
  // Durable storage and the slice as the store holds it
  // ---------------------------------------------------------------------

  /** The `"token"` entry of the browser's local storage. */
  class TokenStorage {
    var token: Option<string>

    constructor (initial: Option<string>)
      ensures token == initial
    {
      token := initial;
    }

    method SetItem(value: string)
      modifies this
      ensures token == Some(value)
    {
      token := Some(value);
    }

    method RemoveItem()
      modifies this
      ensures token == None
    {
      token := None;
    }
  }

  /**
   * The body of `login` or `register` once the request has answered: on
   * success the access token is written to storage before the data is
   * returned; on failure storage is not touched.
   */
  method AuthThunk(storage: TokenStorage, response: Response<AuthPayload>, fallback: string)
    returns (settled: Settled<AuthPayload, Body>)
    modifies storage
    ensures settled == AuthSettle(response, fallback)
    ensures storage.token == StoredAfter(old(storage.token), response)
  {
    match response
    case Ok(data) =>
      storage.SetItem(data.access);
      settled := Fulfilled(data);
    case Failed(e) =>
      settled := Rejected(BodyOr(e.body, fallback));
  }

  class AuthStore {
    var user: Option<User>
    var token: Option<string>
    var userType: Option<string>
    var isLoading: bool
    var error: Option<Body>
    const storage: TokenStorage

    function State(): AuthState
      reads this
    {
      AuthState(user, token, userType, isLoading, error)
    }

    /** The store starts from the token found in storage. */
    constructor (storage: TokenStorage)
      ensures this.storage == storage
      ensures State() == InitialState(storage.token)
    {
      this.storage := storage;
      user := None;
      token := storage.token;
      userType := None;
      isLoading := false;
      error := None;
    }

    /** `logout`: the persisted token is removed and the session fields cleared. */
    method Logout()
      modifies this, storage
      ensures storage.token == None
      ensures user == None && token == None && userType == None
      ensures isLoading == old(isLoading) && error == old(error)
    {
      storage.RemoveItem();
      user := None;
      token := None;
      userType := None;
    }

    /** `login.pending` and `register.pending`: loading, error cleared. */
    method AuthPending()
      modifies this
      ensures isLoading && error == None
      ensures user == old(user) && token == old(token) && userType == old(userType)
    {
      isLoading := true;
      error := None;
    }

    /** `login.fulfilled`: token and user type from the payload, a user built from the user type. */
    method LoginFulfilled(payload: AuthPayload)
      modifies this
      ensures !isLoading && token == Some(payload.access) && userType == payload.user_type
      ensures user == Some(User(payload.user_type))
      ensures error == old(error)
    {
      isLoading := false;
      token := Some(payload.access);
      userType := payload.user_type;
      user := Some(User(payload.user_type));
    }

    /** `register.fulfilled`: token and user type from the payload, the payload's own user. */
    method RegisterFulfilled(payload: AuthPayload)
      modifies this
      ensures !isLoading && token == Some(payload.access) && userType == payload.user_type
      ensures user == payload.user
      ensures error == old(error)
    {
      isLoading := false;
      token := Some(payload.access);
      user := payload.user;
      userType := payload.user_type;
    }

    /** `login.rejected` and `register.rejected`: the rejection payload becomes the error. */
    method AuthRejected(payload: Body)
      modifies this
      ensures !isLoading && error == Some(payload)
      ensures user == old(user) && token == old(token) && userType == old(userType)
    {
      isLoading := false;
      error := Some(payload);
    }

    /** The slice reducer; agrees with `Reduce` and `PersistedAfter`. */
    method Dispatch(a: AuthAction)
      modifies this, storage
      ensures State() == Reduce(old(State()), a)
      ensures storage.token == PersistedAfter(old(storage.token), a)
    {
      match a
      case Logout => Logout();
      case LoginPending => AuthPending();
      case LoginFulfilled(p) => LoginFulfilled(p);
      case LoginRejected(b) => AuthRejected(b);
      case RegisterPending => AuthPending();
      case RegisterFulfilled(p) => RegisterFulfilled(p);
      case RegisterRejected(b) => AuthRejected(b);
    }

    /** One `login` dispatch: pending, the thunk, then fulfilled or rejected. */
    method Login(response: Response<AuthPayload>)
      modifies this, storage
      ensures State() == LoginLifecycle(old(State()), response)
      ensures storage.token == StoredAfter(old(storage.token), response)
      ensures old(token) == old(storage.token) ==> token == storage.token
    {
      Dispatch(LoginPending);
      var settled := AuthThunk(storage, response, LoginFallback);
      Dispatch(LoginSettleAction(settled));
      if old(token) == old(storage.token) {
        OperationsKeepTokenInSync(old(State()), old(storage.token), response);
      }
    }

    /** One `register` dispatch: pending, the thunk, then fulfilled or rejected. */
    method Register(response: Response<AuthPayload>)
      modifies this, storage
      ensures State() == RegisterLifecycle(old(State()), response)
      ensures storage.token == StoredAfter(old(storage.token), response)
      ensures old(token) == old(storage.token) ==> token == storage.token
    {
      Dispatch(RegisterPending);
      var settled := AuthThunk(storage, response, RegisterFallback);
      Dispatch(RegisterSettleAction(settled));
      if old(token) == old(storage.token) {
        OperationsKeepTokenInSync(old(State()), old(storage.token), response);
      }
    }
  }
}
