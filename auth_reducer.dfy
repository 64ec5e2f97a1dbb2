/**
 * The authentication session state and its reducer: a total function from
 * the current state and a tagged action to the next state.
 */
module AuthReducer {
  import opened Wrappers

  /** The identity record the session holds. */
  datatype User = User(email: string)

  datatype State = State(user: Option<User>, isAuthenticated: bool, loading: bool, error: Option<string>)

  /** Nobody signed in, and a check in progress until the provider is mounted. */
  const InitialState := State(None, false, true, None)

  /** The state every logout leads to. */
  const LoggedOut := State(None, false, false, None)

  /**
   * The ten action types, with their payloads, and `Other` for any action
   * whose type is none of them.
   */
  datatype Action =
    | LoginStart
    | LoginSuccess(user: Option<User>, token: Option<string>)
    | LoginFailure(message: string)
    | SignupStart
    | SignupSuccess
    | SignupFailure(message: string)
    | Logout
    | SetLoading(loading: bool)
    | ClearError
    | SetUser(user: Option<User>)
    | Other(tag: string)  // meant for a `tag` outside `ActionTypes`: see `UnknownTag`

  /** The `type` strings of the ten actions the reducer handles. */
  const ActionTypes: set<string> := {
    "LOGIN_START", "LOGIN_SUCCESS", "LOGIN_FAILURE", "SIGNUP_START", "SIGNUP_SUCCESS",
    "SIGNUP_FAILURE", "LOGOUT", "SET_LOADING", "CLEAR_ERROR", "SET_USER"
  }

  /** An action type the reducer has no case for, which `Other(tag)` stands for. */
  predicate UnknownTag(tag: string) {
    tag !in ActionTypes
  }

  function Reduce(s: State, a: Action): State {
    match a
    case LoginStart | SignupStart => s.(loading := true, error := None)
    case LoginSuccess(user, _) => s.(user := user, isAuthenticated := true, loading := false, error := None)
    case SignupSuccess => s.(loading := false, error := None)
    case LoginFailure(message) => s.(user := None, isAuthenticated := false, loading := false, error := Some(message))
    case SignupFailure(message) => s.(user := None, isAuthenticated := false, loading := false, error := Some(message))
    case Logout => s.(user := None, isAuthenticated := false, loading := false, error := None)
    case SetLoading(loading) => s.(loading := loading)
    case ClearError => s.(error := None)
    case SetUser(user) => s.(user := user, isAuthenticated := user.Some?, loading := false, error := None)
    case Other(_) => s
  }

  /** The states applying `actions` in order leads to. */
  function ReduceAll(s: State, actions: seq<Action>): State
    decreases |actions|
  {
    if actions == [] then s else ReduceAll(Reduce(s, actions[0]), actions[1..])
  }

  /**
   * The session invariant: `isAuthenticated` is derivable from the user, true
   * exactly when a user is signed in.
   */
  predicate Inv(s: State) {
    s.isAuthenticated <==> s.user.Some?
  }

  /** An action the invariant can rely on: a successful login names its user. */
  predicate CarriesUser(a: Action) {
    a.LoginSuccess? ==> a.user.Some?
  }

  lemma InitialStateIsLoggedOutAndLoading()
    ensures Inv(InitialState)
    ensures InitialState.user == None && !InitialState.isAuthenticated
    ensures InitialState.loading && InitialState.error == None
    ensures Reduce(InitialState, SetLoading(false)) == LoggedOut
  {
  }

  /** Starting a login or a signup raises `loading`, clears the error and keeps who is signed in. */
  lemma StartKeepsSession(s: State, a: Action)
    requires a.LoginStart? || a.SignupStart?
    ensures var t := Reduce(s, a);
      && t.loading && t.error == None
      && t.user == s.user && t.isAuthenticated == s.isAuthenticated
  {
  }

  /** A successful login signs its user in and settles the request. */
  lemma LoginSuccessSignsIn(s: State, user: Option<User>, token: Option<string>)
    ensures Reduce(s, LoginSuccess(user, token)) == State(user, true, false, None)
  {
  }

  /** A successful signup only settles the request: it never signs anyone in or out. */
  lemma SignupSuccessKeepsSession(s: State)
    ensures var t := Reduce(s, SignupSuccess);
      && t.user == s.user && t.isAuthenticated == s.isAuthenticated
      && !t.loading && t.error == None
  {
  }

  /** A failed login or signup signs out whoever was signed in and records the message. */
  lemma FailureSignsOut(s: State, a: Action)
    requires a.LoginFailure? || a.SignupFailure?
    ensures Reduce(s, a) == State(None, false, false, Some(a.message))
  {
  }

  /** Logout reaches the same state from any state, so a second logout changes nothing. */
  lemma LogoutIsIdempotent(s: State, s': State)
    ensures Reduce(s, Logout) == Reduce(s', Logout) == LoggedOut
    ensures Reduce(Reduce(s, Logout), Logout) == Reduce(s, Logout)
  {
  }

  /** CLEAR_ERROR changes only the error, SET_LOADING only the flag, and an unknown action nothing. */
  lemma SingleFieldActions(s: State, loading: bool, tag: string)
    requires UnknownTag(tag)
    ensures Reduce(s, ClearError) == s.(error := None)
    ensures Reduce(s, SetLoading(loading)) == s.(loading := loading)
    ensures Reduce(s, Other(tag)) == s
  {
  }

  /** SET_USER signs in exactly when it carries a user. */
  lemma SetUserAuthenticatesIffUser(s: State, user: Option<User>)
    ensures Reduce(s, SetUser(user)).isAuthenticated <==> user.Some?
    ensures Reduce(s, SetUser(user)).user == user
    ensures Reduce(s, SetUser(user)) == State(user, user.Some?, false, None)
  {
  }

  /** Every action keeps the invariant, provided a successful login names its user. */
  lemma ReducePreservesInv(s: State, a: Action)
    requires Inv(s) && CarriesUser(a)
    ensures Inv(Reduce(s, a))
  {
  }

  /** A login success without a user breaks the invariant: the proviso above is needed. */
  lemma LoginSuccessWithoutUserBreaksInv(s: State, token: Option<string>)
    ensures !Inv(Reduce(s, LoginSuccess(None, token)))
  {
  }

  /** Any run of actions that all carry their users keeps the invariant. */
  lemma {:induction false} ReduceAllPreservesInv(s: State, actions: seq<Action>)
    requires Inv(s)
    requires forall i :: 0 <= i < |actions| ==> CarriesUser(actions[i])
    ensures Inv(ReduceAll(s, actions))
    decreases |actions|
  {
    if actions != [] {
      ReducePreservesInv(s, actions[0]);
      ReduceAllPreservesInv(Reduce(s, actions[0]), actions[1..]);
    }
  }
}
