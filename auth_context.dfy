/**
 * The authentication provider: the session state held by the reducer plus
 * the persisted `token` slot of browser storage, and the operations the
 * provider exposes (login, signup, logout, checkAuthStatus, clearError and
 * the mount effect). Each asynchronous operation is one atomic sequence of
 * effects: its start action, the awaited gateway reply (a parameter), then a
 * storage write and a success action, or a failure action.
 */
module AuthContext {
  import opened Wrappers
  import opened AuthReducer
  import opened MockAuthService

  /** One observable step of an operation, in the order the source performs them. */
  datatype Effect = Dispatched(action: Action) | TokenSet(value: string) | TokenRemoved

  /** The reducer state together with the persisted token slot. */
  datatype Session = Session(state: State, token: Option<string>)

  function Apply(s: Session, e: Effect): Session {
    match e
    case Dispatched(a) => s.(state := Reduce(s.state, a))
    case TokenSet(v) => s.(token := Some(v))
    case TokenRemoved => s.(token := None)
  }

  function Run(s: Session, effects: seq<Effect>): Session
    decreases |effects|
  {
    if effects == [] then s else Run(Apply(s, effects[0]), effects[1..])
  }

  /** Performing two runs of effects one after the other is performing their concatenation. */
  lemma {:induction false} RunAppend(s: Session, xs: seq<Effect>, ys: seq<Effect>)
    ensures Run(s, xs + ys) == Run(Run(s, xs), ys)
    decreases |xs|
  {
    if xs == [] {
      assert xs + ys == ys;
    } else {
      assert (xs + ys)[1..] == xs[1..] + ys;
      RunAppend(Apply(s, xs[0]), xs[1..], ys);
    }
  }

  lemma RunPair(s: Session, e0: Effect, e1: Effect)
    ensures Run(s, [e0, e1]) == Apply(Apply(s, e0), e1)
  {
    var s1 := Apply(s, e0);
    assert [e0, e1][1..] == [e1];
    assert [e1][1..] == [];
    assert Run(s1, [e1]) == Run(Apply(s1, e1), []);
  }

  lemma RunTriple(s: Session, e0: Effect, e1: Effect, e2: Effect)
    ensures Run(s, [e0, e1, e2]) == Apply(Apply(Apply(s, e0), e1), e2)
  {
    assert [e0, e1, e2][1..] == [e1, e2];
    RunPair(Apply(s, e0), e1, e2);
  }

  /** Storage keeps the string form of what is written: a missing token is kept as "undefined". */
  function StoredString(t: Option<string>): string {
    t.GetOr("undefined")
  }

  /** `message || fallback`: a missing or empty message gives way to the fallback. */
  function MessageOr(m: Option<string>, fallback: string): (r: string)
    ensures m.Some? && m.value != "" ==> r == m.value
    ensures !(m.Some? && m.value != "") ==> r == fallback
    ensures fallback != "" ==> r != ""
  {
    if m.Some? && m.value != "" then m.value else fallback
  }

  const LoginFailed := "Login failed"
  const LoginThrew := "Demo login error"
  const SignupFailed := "Signup failed"
  const SignupThrew := "Demo signup error"

  /** What an operation hands back to the page that called it. */
  datatype CallResult = CallResult(success: bool, message: Option<string>, errors: Option<map<string, string>>)

  predicate Succeeded(reply: Reply) {
    reply.Returned? && reply.response.success
  }

  /** The effects of `login`, given the reply of the gateway's login call. */
  function LoginEffects(reply: Reply): (r: seq<Effect>)
    ensures 2 <= |r| <= 3 && r[0] == Dispatched(LoginStart)
    ensures |r| == 3 <==> Succeeded(reply)
    ensures r[|r| - 1].Dispatched?
    ensures r[|r| - 1].action.LoginSuccess? <==> Succeeded(reply)
    ensures !Succeeded(reply) ==> r[|r| - 1].action.LoginFailure?
    ensures Succeeded(reply) ==> r[1] == TokenSet(StoredString(reply.response.token))
  {
    match reply
    case Threw => [Dispatched(LoginStart), Dispatched(LoginFailure(LoginThrew))]
    case Returned(response) =>
      if response.success then
        [ Dispatched(LoginStart),
          TokenSet(StoredString(response.token)),
          Dispatched(LoginSuccess(response.user, response.token)) ]
      else
        [Dispatched(LoginStart), Dispatched(LoginFailure(MessageOr(response.message, LoginFailed)))]
  }

  function LoginResult(reply: Reply): CallResult {
    match reply
    case Threw => CallResult(false, Some(LoginThrew), None)
    case Returned(response) =>
      if response.success then CallResult(true, None, None)
      else CallResult(false, response.message, None)
  }

  /** The effects of `signup`, given the reply of the gateway's signup call. */
  function SignupEffects(reply: Reply): (r: seq<Effect>)
    ensures |r| == 2 && r[0] == Dispatched(SignupStart) && r[1].Dispatched?
    ensures r[1].action.SignupSuccess? <==> Succeeded(reply)
    ensures !Succeeded(reply) ==> r[1].action.SignupFailure?
  {
    match reply
    case Threw => [Dispatched(SignupStart), Dispatched(SignupFailure(SignupThrew))]
    case Returned(response) =>
      if response.success then [Dispatched(SignupStart), Dispatched(SignupSuccess)]
      else [Dispatched(SignupStart), Dispatched(SignupFailure(MessageOr(response.message, SignupFailed)))]
  }

  function SignupResult(reply: Reply): CallResult {
    match reply
    case Threw => CallResult(false, Some(SignupThrew), None)
    case Returned(response) =>
      if response.success then CallResult(true, response.message, None)
      else CallResult(false, response.message, response.errors)
  }

  /** `logout` removes the token first, then dispatches LOGOUT. */
  const LogoutEffects := [TokenRemoved, Dispatched(Logout)]

  /** `checkAuthStatus` only clears `loading`; it makes no gateway call. */
  const CheckAuthStatusEffects := [Dispatched(SetLoading(false))]

  const ClearErrorEffects := [Dispatched(ClearError)]

  /** The effect run once when the provider is mounted. */
  const MountEffects := [Dispatched(SetLoading(false))]

  // ---------------------------------------------------------------------
  // What each operation does to the session
  // ---------------------------------------------------------------------

  /**
   * A successful login stores the token, signs in the user the gateway
   * returned and settles the request; the caller is told it succeeded.
   */
  lemma LoginSuccessOutcome(s: Session, response: Response)
    requires response.success
    ensures Run(s, LoginEffects(Returned(response)))
         == Session(State(response.user, true, false, None), Some(StoredString(response.token)))
    ensures LoginResult(Returned(response)).success
  {
    var effects := LoginEffects(Returned(response));
    RunTriple(s, effects[0], effects[1], effects[2]);
  }

  /** On success the token is written before LOGIN_SUCCESS is dispatched, and after LOGIN_START. */
  lemma LoginStoresTokenBeforeSuccess(response: Response)
    requires response.success
    ensures var effects := LoginEffects(Returned(response));
      && |effects| == 3
      && effects[0] == Dispatched(LoginStart)
      && effects[1].TokenSet?
      && effects[2].Dispatched? && effects[2].action.LoginSuccess?
  {
  }

  /**
   * A failed login leaves the stored token as it was, signs out and records a
   * non-empty message: the gateway's message, or "Login failed" when it has
   * none, or "Demo login error" when the call threw.
   */
  lemma LoginFailureOutcome(s: Session, reply: Reply)
    requires !Succeeded(reply)
    ensures var t := Run(s, LoginEffects(reply));
      && t.token == s.token
      && t.state.user == None && !t.state.isAuthenticated && !t.state.loading
      && t.state.error.Some? && t.state.error.value != ""
      && (reply.Threw? ==> t.state.error == Some(LoginThrew))
      && (reply.Returned? ==> t.state.error == Some(MessageOr(reply.response.message, LoginFailed)))
    ensures !LoginResult(reply).success
  {
    var effects := LoginEffects(reply);
    RunPair(s, effects[0], effects[1]);
  }

  /** Signup never reads or writes the stored token, whatever the gateway replies. */
  lemma SignupNeverTouchesToken(s: Session, reply: Reply)
    ensures Run(s, SignupEffects(reply)).token == s.token
    ensures forall i :: 0 <= i < |SignupEffects(reply)| ==> SignupEffects(reply)[i].Dispatched?
  {
    var effects := SignupEffects(reply);
    RunPair(s, effects[0], effects[1]);
  }

  /**
   * A successful signup settles the request without signing anyone in or
   * out; a failed one signs out and records a non-empty message: the
   * gateway's message, or "Signup failed" when it has none, or "Demo signup
   * error" when the call threw.
   */
  lemma SignupOutcome(s: Session, reply: Reply)
    ensures var t := Run(s, SignupEffects(reply)).state;
      && !t.loading
      && (Succeeded(reply) ==>
            t.user == s.state.user && t.isAuthenticated == s.state.isAuthenticated && t.error == None)
      && (!Succeeded(reply) ==>
            t.user == None && !t.isAuthenticated && t.error.Some? && t.error.value != "")
      && (reply.Threw? ==> t.error == Some(SignupThrew))
      && (reply.Returned? && !reply.response.success ==>
            t.error == Some(MessageOr(reply.response.message, SignupFailed)))
    ensures SignupResult(reply).success <==> Succeeded(reply)
  {
    var effects := SignupEffects(reply);
    RunPair(s, effects[0], effects[1]);
  }

  /** Logout removes the token and reaches the logged-out state from anywhere; twice is once. */
  lemma LogoutOutcome(s: Session)
    ensures Run(s, LogoutEffects) == Session(LoggedOut, None)
    ensures Run(Run(s, LogoutEffects), LogoutEffects) == Run(s, LogoutEffects)
  {
    RunPair(s, TokenRemoved, Dispatched(Logout));
    RunPair(Run(s, LogoutEffects), TokenRemoved, Dispatched(Logout));
  }

  /** checkAuthStatus and the mount effect only clear `loading`; clearError only clears the error. */
  lemma SingleFieldOperations(s: Session)
    ensures Run(s, CheckAuthStatusEffects) == s.(state := s.state.(loading := false))
    ensures Run(s, MountEffects) == s.(state := s.state.(loading := false))
    ensures Run(s, ClearErrorEffects) == s.(state := s.state.(error := None))
  {
  }

  /**
   * Logging in through the demo service stores a token that demo verification
   * accepts, so a reload that verifies the stored token succeeds; the user it
   * reports is the fixed demo user, not the one who logged in.
   */
  lemma DemoLoginThenVerify(s: Session, email: string, password: string, now: nat)
    ensures var t := Run(s, LoginEffects(Returned(MockAuthService.Login(email, password, now))));
      && t.state.isAuthenticated && t.state.user == Some(User(email))
      && MockAuthService.VerifyToken(t.token).success
      && MockAuthService.VerifyToken(t.token).user == Some(User(DemoUserEmail))
  {
    var response := MockAuthService.Login(email, password, now);
    LoginSuccessOutcome(s, response);
    LoginTokenVerifies(email, password, now);
  }

  /** A login answered with token "tok123" for a@b.com signs that user in and stores "tok123". */
  lemma LoginScenario(s: Session)
    ensures var response := Response(true, None, Some("tok123"), Some(User("a@b.com")), None);
      Run(s, LoginEffects(Returned(response)))
        == Session(State(Some(User("a@b.com")), true, false, None), Some("tok123"))
  {
    LoginSuccessOutcome(s, Response(true, None, Some("tok123"), Some(User("a@b.com")), None));
  }

  /** A signup answered "Email already exists" reports that message, signs out and writes no token. */
  lemma SignupRejectedScenario(s: Session)
    ensures var response := Response(false, Some("Email already exists"), None, None, None);
      var t := Run(s, SignupEffects(Returned(response)));
      && t.state == State(None, false, false, Some("Email already exists"))
      && t.token == s.token
  {
    var response := Response(false, Some("Email already exists"), None, None, None);
    RunPair(s, Dispatched(SignupStart), Dispatched(SignupFailure("Email already exists")));
  }

  // ---------------------------------------------------------------------
  // The session invariant over any sequence of operations
  // ---------------------------------------------------------------------

  /** A call to one of the provider's operations, with the gateway reply it receives. */
  datatype Call =
    | LoginCall(reply: Reply)
    | SignupCall(reply: Reply)
    | LogoutCall
    | CheckAuthStatusCall
    | ClearErrorCall

  function CallEffects(c: Call): seq<Effect> {
    match c
    case LoginCall(reply) => LoginEffects(reply)
    case SignupCall(reply) => SignupEffects(reply)
    case LogoutCall => LogoutEffects
    case CheckAuthStatusCall => CheckAuthStatusEffects
    case ClearErrorCall => ClearErrorEffects
  }

  /** A call the invariant can rely on: a successful login reply names its user. */
  predicate NamesUser(c: Call) {
    c.LoginCall? && Succeeded(c.reply) ==> c.reply.response.user.Some?
  }

  function RunCalls(s: Session, calls: seq<Call>): Session
    decreases |calls|
  {
    if calls == [] then s else RunCalls(Run(s, CallEffects(calls[0])), calls[1..])
  }

  /** Each completed operation keeps the invariant, and all but clearError leave nothing loading. */
  lemma CallPreservesInv(s: Session, c: Call)
    requires Inv(s.state) && NamesUser(c)
    ensures Inv(Run(s, CallEffects(c)).state)
    ensures !c.ClearErrorCall? ==> !Run(s, CallEffects(c)).state.loading
  {
    match c
    case LoginCall(reply) =>
      if Succeeded(reply) {
        LoginSuccessOutcome(s, reply.response);
      } else {
        LoginFailureOutcome(s, reply);
      }
    case SignupCall(reply) => SignupOutcome(s, reply);
    case LogoutCall => LogoutOutcome(s);
    case CheckAuthStatusCall => SingleFieldOperations(s);
    case ClearErrorCall => SingleFieldOperations(s);
  }

  /**
   * From any session that satisfies the invariant, any sequence of operations
   * whose successful login replies name their users keeps
   * `isAuthenticated == (user != null)`.
   */
  lemma {:induction false} RunCallsPreservesInv(s: Session, calls: seq<Call>)
    requires Inv(s.state)
    requires forall i :: 0 <= i < |calls| ==> NamesUser(calls[i])
    ensures Inv(RunCalls(s, calls).state)
    decreases |calls|
  {
    if calls != [] {
      CallPreservesInv(s, calls[0]);
      RunCallsPreservesInv(Run(s, CallEffects(calls[0])), calls[1..]);
    }
  }

  // ---------------------------------------------------------------------
  // The provider object
  // ---------------------------------------------------------------------

  class AuthProvider {
    /** The reducer state the provider publishes. */
    var state: State
    /** The `token` slot of browser storage. */
    var token: Option<string>

    /** The token found in storage when the provider was created. */
    ghost var StartToken: Option<string>
    /** Every effect performed since the provider was created, in order. */
    ghost var Log: seq<Effect>

    function Current(): Session
      reads this
    {
      Session(state, token)
    }

    /** The published state and the slot are what the logged effects produce from the start. */
    ghost predicate Valid()
      reads this
    {
      Run(Session(InitialState, StartToken), Log) == Current()
    }

    constructor (stored: Option<string>)
      ensures Valid()
      ensures state == InitialState && token == stored
      ensures StartToken == stored && Log == []
    {
      state := InitialState;
      token := stored;
      StartToken := stored;
      Log := [];
    }

    /** `dispatch`: apply the reducer to the published state. */
    method Dispatch(a: Action)
      requires Valid()
      modifies this
      ensures Valid() && StartToken == old(StartToken)
      ensures Log == old(Log) + [Dispatched(a)]
      ensures state == Reduce(old(state), a) && token == old(token)
    {
      RunAppend(Session(InitialState, StartToken), Log, [Dispatched(a)]);
      state := Reduce(state, a);
      Log := Log + [Dispatched(a)];
    }

    /** `localStorage.setItem('token', value)` */
    method SetToken(value: string)
      requires Valid()
      modifies this
      ensures Valid() && StartToken == old(StartToken)
      ensures Log == old(Log) + [TokenSet(value)]
      ensures token == Some(value) && state == old(state)
    {
      RunAppend(Session(InitialState, StartToken), Log, [TokenSet(value)]);
      token := Some(value);
      Log := Log + [TokenSet(value)];
    }

    /** `localStorage.removeItem('token')` */
    method RemoveToken()
      requires Valid()
      modifies this
      ensures Valid() && StartToken == old(StartToken)
      ensures Log == old(Log) + [TokenRemoved]
      ensures token == None && state == old(state)
    {
      RunAppend(Session(InitialState, StartToken), Log, [TokenRemoved]);
      token := None;
      Log := Log + [TokenRemoved];
    }

    /** The mount effect: demo mode settles the initial check at once. */
    method OnMount()
      requires Valid()
      modifies this
      ensures Valid() && StartToken == old(StartToken)
      ensures Log == old(Log) + MountEffects
      ensures Current() == Run(old(Current()), MountEffects)
      ensures Inv(old(state)) ==> Inv(state)
      ensures state == old(state).(loading := false) && token == old(token)
    {
      Dispatch(SetLoading(false));
    }

    /**
     * `login(email, password)`. The gateway is not modelled here: `reply` is
     * what `await mockAuthService.login(email, password)` produced, so `email`
     * and `password` are only passed along.
     */
    method Login(email: string, password: string, reply: Reply) returns (r: CallResult)
      requires Valid()
      modifies this
      ensures Valid() && StartToken == old(StartToken)
      ensures Log == old(Log) + LoginEffects(reply)
      ensures Current() == Run(old(Current()), LoginEffects(reply))
      ensures r == LoginResult(reply)
      ensures Succeeded(reply) ==>
        && state == State(reply.response.user, true, false, None)
        && token == Some(StoredString(reply.response.token))
      ensures !Succeeded(reply) ==>
        && token == old(token)
        && state.user == None && !state.isAuthenticated && !state.loading
        && state.error.Some? && state.error.value != ""
      ensures reply.Threw? ==> state.error == Some(LoginThrew)
      ensures reply.Returned? && !reply.response.success ==>
        state.error == Some(MessageOr(reply.response.message, LoginFailed))
      ensures Inv(old(state)) && NamesUser(LoginCall(reply)) ==> Inv(state)
    {
      ghost var before := Current();
      Dispatch(LoginStart);
      match reply {
        case Threw =>
          Dispatch(LoginFailure(LoginThrew));
          r := CallResult(false, Some(LoginThrew), None);
        case Returned(response) =>
          if response.success {
            SetToken(StoredString(response.token));
            Dispatch(LoginSuccess(response.user, response.token));
            r := CallResult(true, None, None);
          } else {
            Dispatch(LoginFailure(MessageOr(response.message, LoginFailed)));
            r := CallResult(false, response.message, None);
          }
      }
      RunAppend(Session(InitialState, StartToken), old(Log), LoginEffects(reply));
      if Succeeded(reply) {
        LoginSuccessOutcome(before, reply.response);
      } else {
        LoginFailureOutcome(before, reply);
      }
    }

    /**
     * `signup(email, password)`. `reply` is what
     * `await mockAuthService.signup(email, password)` produced.
     */
    method Signup(email: string, password: string, reply: Reply) returns (r: CallResult)
      requires Valid()
      modifies this
      ensures Valid() && StartToken == old(StartToken)
      ensures Log == old(Log) + SignupEffects(reply)
      ensures Current() == Run(old(Current()), SignupEffects(reply))
      ensures r == SignupResult(reply)
      ensures token == old(token) && !state.loading
      ensures Succeeded(reply) ==>
        state.user == old(state.user) && state.isAuthenticated == old(state.isAuthenticated) && state.error == None
      ensures !Succeeded(reply) ==>
        state.user == None && !state.isAuthenticated && state.error.Some? && state.error.value != ""
      ensures reply.Threw? ==> state.error == Some(SignupThrew)
      ensures reply.Returned? && !reply.response.success ==>
        state.error == Some(MessageOr(reply.response.message, SignupFailed))
      ensures Inv(old(state)) ==> Inv(state)
    {
      ghost var before := Current();
      Dispatch(SignupStart);
      match reply {
        case Threw =>
          Dispatch(SignupFailure(SignupThrew));
          r := CallResult(false, Some(SignupThrew), None);
        case Returned(response) =>
          if response.success {
            Dispatch(SignupSuccess);
            r := CallResult(true, response.message, None);
          } else {
            Dispatch(SignupFailure(MessageOr(response.message, SignupFailed)));
            r := CallResult(false, response.message, response.errors);
          }
      }
      RunAppend(Session(InitialState, StartToken), old(Log), SignupEffects(reply));
      SignupOutcome(before, reply);
      SignupNeverTouchesToken(before, reply);
    }

    method Logout()
      requires Valid()
      modifies this
      ensures Valid() && StartToken == old(StartToken)
      ensures Log == old(Log) + LogoutEffects
      ensures Current() == Run(old(Current()), LogoutEffects)
      ensures Inv(old(state)) ==> Inv(state)
      ensures state == LoggedOut && token == None
    {
      RemoveToken();
      Dispatch(AuthReducer.Logout);
      RunAppend(Session(InitialState, StartToken), old(Log), LogoutEffects);
    }

    method CheckAuthStatus()
      requires Valid()
      modifies this
      ensures Valid() && StartToken == old(StartToken)
      ensures Log == old(Log) + CheckAuthStatusEffects
      ensures Current() == Run(old(Current()), CheckAuthStatusEffects)
      ensures Inv(old(state)) ==> Inv(state)
      ensures state == old(state).(loading := false) && token == old(token)
    {
      Dispatch(SetLoading(false));
    }

    method ClearError()
      requires Valid()
      modifies this
      ensures Valid() && StartToken == old(StartToken)
      ensures Log == old(Log) + ClearErrorEffects
      ensures Current() == Run(old(Current()), ClearErrorEffects)
      ensures Inv(old(state)) ==> Inv(state)
      ensures state == old(state).(error := None) && token == old(token)
    {
      Dispatch(AuthReducer.ClearError);
    }
  }
}
