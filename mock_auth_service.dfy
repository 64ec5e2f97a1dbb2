/**
 * The demo-mode authentication service the provider calls, and the shape of
 * the responses it (and the network service it stands in for) returns.
 * `Date.now()` is a parameter and the persisted token slot is passed in.
 */
module MockAuthService {
  import opened Wrappers
  import opened JsString
  import opened AuthReducer

  /** The normalised `{success, message, token, user, errors}` result of a gateway call. */
  datatype Response = Response(
    success: bool,
    message: Option<string>,
    token: Option<string>,
    user: Option<User>,
    errors: Option<map<string, string>>)

  /** What an awaited gateway call produced: a response, or a thrown error. */
  datatype Reply = Returned(response: Response) | Threw

  const TokenPrefix := "demo-token-"
  const DemoUserEmail := "demo@example.com"

  /** Demo login always succeeds, echoing the email and issuing a time-stamped token. */
  function Login(email: string, password: string, now: nat): (r: Response)
    ensures r.success && r.user == Some(User(email))
    ensures r.token.Some? && StartsWith(r.token.value, TokenPrefix)
    ensures r.token.Some? && |TokenPrefix| <= |r.token.value| && IsDecimal(r.token.value[|TokenPrefix|..])
            && DecimalValue(r.token.value[|TokenPrefix|..]) == now
  {
    var stamp := NatToDecimal(now);
    assert (TokenPrefix + stamp)[|TokenPrefix|..] == stamp;
    DecimalRoundTrip(now);
    Response(true, Some("Demo login successful"), Some(TokenPrefix + stamp), Some(User(email)), None)
  }

  /** Demo signup always succeeds and issues no token. */
  function Signup(email: string, password: string): (r: Response)
    ensures r.success && r.token == None && r.user == None
  {
    Response(true, Some("Demo signup successful"), None, None, None)
  }

  /**
   * Demo verification, given the persisted token slot: it succeeds exactly
   * when a token is stored and starts with `demo-token`.
   */
  function VerifyToken(stored: Option<string>): (r: Response)
    ensures r.success <==> stored.Some? && StartsWith(stored.value, "demo-token")
    ensures r.success ==> r.user == Some(User(DemoUserEmail))
    ensures !r.success ==> r.message == Some("Invalid token")
  {
    if stored.Some? && stored.value != "" && StartsWith(stored.value, "demo-token") then
      Response(true, None, None, Some(User(DemoUserEmail)), None)
    else
      Response(false, Some("Invalid token"), None, None, None)
  }

  /** Every token demo login issues passes demo verification. */
  lemma LoginTokenVerifies(email: string, password: string, now: nat)
    ensures VerifyToken(Login(email, password, now).token).success
  {
    var t := Login(email, password, now).token.value;
    assert t[..|"demo-token"|] == "demo-token";
  }
}
