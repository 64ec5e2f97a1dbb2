# Foodingo authentication core in Dafny

This project models the two pieces of the Foodingo food-ordering web app that
carry logic of their own:

- **The client-side form validators** (`src/utils/validation.js`): the email,
  password and password-confirmation checks, the password-strength meter and
  the whole-form check used by the login and signup pages.
- **The authentication context** (`src/Components/auth/AuthContext.jsx`): the
  session state and its reducer over ten action types, the demo-mode
  authentication service the provider calls, and the provider's operations
  (`login`, `signup`, `logout`, `checkAuthStatus`, `clearError`, the mount
  effect). These operations dispatch actions and read or write the persisted
  `token` slot of browser storage.

Modules:

| file | module | models |
|---|---|---|
| `wrappers.dfy` | `Wrappers` | `Option`: a present value or `null`/`undefined` |
| `js_string.dfy` | `JsString` | the JavaScript built-ins the core uses: `trim`, `startsWith` and the decimal string of a Number |
| `email_pattern.dfy` | `EmailPattern` | a hand-written recogniser for the language of `EMAIL_REGEX` |
| `validation.dfy` | `Validation` | `validateEmail`, `validatePassword`, `validatePasswordConfirmation`, `calculatePasswordStrength`, `validateForm` |
| `auth_reducer.dfy` | `AuthReducer` | `initialState`, `AUTH_ACTIONS`, `authReducer` |
| `mock_auth_service.dfy` | `MockAuthService` | `mockAuthService` and the `{success, message, token, user, errors}` result shape |
| `auth_context.dfy` | `AuthContext` | `AuthProvider`: a class with the reducer `state` and the storage `token` slot |

How the model is built:

- The pure code is written as functions. This covers the validators, the
  reducer (`AuthReducer.Reduce`) and the demo service.
- `calculatePasswordStrength` adds to a local `score` one criterion at a time.
  `validateForm` adds keys to its `errors` object one at a time. Both are
  methods written that way, proved against the declarative functions
  `PasswordStrength` and `FormErrors`.
- The provider is the class `AuthContext.AuthProvider`. It has two fields:
  `state` and `token`. Its methods `Dispatch`, `SetToken` and `RemoveToken`
  stand for `dispatch`, `localStorage.setItem` and `localStorage.removeItem`.
  Each operation calls them in the order the source does. A ghost log records
  every effect in order. The object invariant `Valid()` says the published
  state and the token slot are what that log produces when it is replayed
  from the initial state.
- Each asynchronous operation runs as one atomic step. It dispatches its start
  action, takes the awaited gateway reply as a parameter (`Reply`: a
  `Response`, or `Threw` for the `catch` branch), then does its success or
  failure effects. The pure functions `LoginEffects`, `SignupEffects`, … list
  those effects. The lemmas about them state what each operation does to the
  session. `RunCallsPreservesInv` says that any sequence of operations keeps
  the invariant `isAuthenticated == (user != null)`, as long as every
  successful login reply names its user.

Behaviour of the code worth knowing:

- `checkAuthStatus` only dispatches `SET_LOADING false`
  (`src/Components/auth/AuthContext.jsx:205-213`). It never reads the token,
  calls the gateway or deletes the token on a failed verification.
- A successful signup keeps `user` and `isAuthenticated` as they were. It does
  not sign anyone out.
- The demo `verifyToken` always reports the fixed user `demo@example.com`.
  So after a demo login, verifying the stored token succeeds but does not give
  back the email that logged in (`AuthContext.DemoLoginThenVerify`).

## Model

| member | source | states |
|---|---|---|
| `JsString.Trim` | src/utils/validation.js:6-10 | `trim` gives the empty string exactly when the input is all ECMAScript whitespace. Otherwise the result begins and ends with non-whitespace. |
| `JsString.TrimIsInfix` | src/utils/validation.js:10 | the trimmed string is the infix of the input between a run of leading whitespace and a run of trailing whitespace |
| `JsString.TrimIdempotent` | src/utils/validation.js:10 | trimming twice is trimming once |
| `JsString.StartsWith` | src/Components/auth/AuthContext.jsx:17 | `startsWith` holds exactly when the prefix is no longer than the string and matches it character by character |
| `JsString.TrimOfTrimmed` | src/utils/validation.js:10 | a string that is empty or begins and ends with non-whitespace is left unchanged by `trim` |
| `JsString.NatToDecimal` | src/Components/auth/AuthContext.jsx:8 | the string form of a `Date.now()` value is a non-empty run of decimal digits with no leading zero |
| `JsString.DecimalRoundTrip` | src/Components/auth/AuthContext.jsx:8 | reading the digits back gives the original number |
| `EmailPattern.IsEmailAddress` | src/utils/validation.js:2 | the pattern: a dotted name, one `@`, and a dotted domain ending in a 2- or 3-character part. A match is at least 6 characters long and begins and ends with a word character. |
| `EmailPattern.EmailAddressIsTrimmed` | src/utils/validation.js:2 | a string the email pattern matches has no whitespace at either end, so trimming leaves it unchanged |
| `EmailPattern.EmailAddressSplitUnique` | src/utils/validation.js:2 | a matching address contains exactly one `@` |
| `EmailPattern.AcceptsPlainAddress` | src/utils/validation.js:2 | `a@b.com` matches |
| `EmailPattern.AcceptsSeparatedParts` | src/utils/validation.js:2 | `.` and `-` separators may appear in both the local part and the domain (`a.b@c-d.io`) |
| `EmailPattern.RejectsLongTopLevel` | src/utils/validation.js:2 | a top-level label of four characters (`a@b.info`) is rejected |
| `EmailPattern.ConsecutiveSeparatorsRejected` | src/utils/validation.js:2 | no string with two separators (`.` or `-`) in a row, anywhere, matches the pattern |
| `EmailPattern.RejectsDoubleDot` | src/utils/validation.js:2 | `a..b@c.com` is rejected, an instance of `ConsecutiveSeparatorsRejected` |
| `EmailPattern.RejectsBareHost` | src/utils/validation.js:2 | `a@b`, whose domain has no top-level part, is rejected |
| `Validation.ValidateEmail` | src/utils/validation.js:5-15 | 'Email is required' exactly for missing or all-whitespace input, checked before the format. Otherwise 'Please enter a valid email address' exactly when the trimmed input does not match. Null exactly when it matches. |
| `Validation.ValidateEmailIgnoresSurroundingWhitespace` | src/utils/validation.js:10-14 | `validateEmail(s) == validateEmail(trim(s))` for every string |
| `Validation.AcceptedEmailIsTrimmedAddress` | src/utils/validation.js:10-14 | an accepted email, once trimmed, matches the pattern and is its own trim |
| `Validation.ValidatePassword` | src/utils/validation.js:17-27 | 'Password is required' exactly for a missing or empty password. 'Password must be at least 6 characters long' exactly for lengths 1 to 5. Null exactly when the length is at least 6. |
| `Validation.ValidatePasswordConfirmation` | src/utils/validation.js:29-39 | 'Please confirm your password' whenever the confirmation is missing or empty. Otherwise null exactly when the password equals the confirmation, and 'Passwords do not match' when it does not. |
| `Validation.PasswordStrength` | src/utils/validation.js:42-80 | the score lies between 0 and 6 and is 0 exactly for the empty password. A password shorter than 6 characters gets score 1 with the too-short feedback. A longer one scores at least 1 and never gets that feedback. |
| `Validation.StrengthScore` | src/utils/validation.js:55-60 | the score of a password of six or more characters always lies between 1 and 6 |
| `Validation.CalculatePasswordStrength` | src/utils/validation.js:42-81 | gives `(0, '')` for the empty password and `(1, 'Too short - minimum 6 characters')` for lengths 1 to 5, whatever the characters. From length 6 the score is 1 plus one point each for length ≥ 8, a lower-case letter, an upper-case letter, a digit and any other character. The feedback follows the score table and is never 'Very weak'. |
| `Validation.StrengthAgreesWithValidatePassword` | src/utils/validation.js:17-81 | a password passes `validatePassword` exactly when the meter rates it weak, medium or strong. It is rejected as too short exactly when the meter says too short. |
| `Validation.StrongNeedsFourCriteria` | src/utils/validation.js:55-78 | 'Strong password' is shown exactly when at least four of the five extra criteria hold |
| `Validation.StrengthScoreMonotone` | src/utils/validation.js:55-60 | appending characters never lowers the score |
| `Validation.FormErrors` | src/utils/validation.js:84-108 | a field is a key of the error map exactly when its validator reports a message, and the map holds that message |
| `Validation.ValidateForm` | src/utils/validation.js:84-113 | the error map built one field at a time is `FormErrors`. `isValid` holds exactly when the map is empty. `confirmPassword` can be a key only for a signup form. |
| `Validation.ValidFormMeansValidFields` | src/utils/validation.js:84-113 | a form has no errors exactly when every validator for its kind returns null. Such a form has a matching email, a password of at least 6 characters and, on signup, a confirmation equal to the password. |
| `Validation.LoginFormIgnoresConfirmation` | src/utils/validation.js:99-108 | a login form never reports on the confirmation, and its errors do not depend on it |
| `AuthReducer.Reduce` | src/Components/auth/AuthContext.jsx:50-119 | no contract of its own: one case per action type, as the source writes it. The lemmas below state each case. |
| `AuthReducer.InitialStateIsLoggedOutAndLoading` | src/Components/auth/AuthContext.jsx:28-33 | the initial state has no user, is not authenticated, is loading and has no error. It satisfies the invariant, and `SET_LOADING false` on it gives the logged-out state. |
| `AuthReducer.StartKeepsSession` | src/Components/auth/AuthContext.jsx:52-58 | LOGIN_START and SIGNUP_START set loading, clear the error and leave `user` and `isAuthenticated` unchanged |
| `AuthReducer.LoginSuccessSignsIn` | src/Components/auth/AuthContext.jsx:60-67 | LOGIN_SUCCESS sets the payload user, authenticated, not loading, no error |
| `AuthReducer.SignupSuccessKeepsSession` | src/Components/auth/AuthContext.jsx:69-74 | SIGNUP_SUCCESS only clears loading and error |
| `AuthReducer.FailureSignsOut` | src/Components/auth/AuthContext.jsx:76-84 | LOGIN_FAILURE and SIGNUP_FAILURE clear the user and the flag, stop loading and record the payload message |
| `AuthReducer.LogoutIsIdempotent` | src/Components/auth/AuthContext.jsx:86-93 | LOGOUT gives the same logged-out state from any state, so applying it twice equals applying it once |
| `AuthReducer.SingleFieldActions` | src/Components/auth/AuthContext.jsx:95-117 | CLEAR_ERROR changes only `error`, SET_LOADING only `loading`, and an action whose type is none of the ten (`UnknownTag`) nothing |
| `AuthReducer.SetUserAuthenticatesIffUser` | src/Components/auth/AuthContext.jsx:107-114 | SET_USER authenticates exactly when its payload is a user. The new state is the payload user, that flag, loading off and no error. |
| `AuthReducer.ReducePreservesInv` | src/Components/auth/AuthContext.jsx:50-119 | every action keeps `isAuthenticated == (user != null)`, provided LOGIN_SUCCESS carries a user |
| `AuthReducer.LoginSuccessWithoutUserBreaksInv` | src/Components/auth/AuthContext.jsx:60-67 | without that proviso the invariant fails: LOGIN_SUCCESS with no user authenticates a session that has no user |
| `AuthReducer.ReduceAllPreservesInv` | src/Components/auth/AuthContext.jsx:50-119 | any sequence of actions that carry their users keeps the invariant |
| `MockAuthService.Login` | src/Components/auth/AuthContext.jsx:5-10 | demo login succeeds and echoes the email. Its token starts with 'demo-token-', and the digits after that prefix read back as the time stamp. |
| `MockAuthService.Signup` | src/Components/auth/AuthContext.jsx:11-14 | demo signup succeeds and issues no token and no user |
| `MockAuthService.VerifyToken` | src/Components/auth/AuthContext.jsx:15-24 | succeeds exactly when a token is stored and starts with 'demo-token'. On success it reports the demo user. Otherwise the message is 'Invalid token'. |
| `MockAuthService.LoginTokenVerifies` | src/Components/auth/AuthContext.jsx:8-24 | every token demo login issues passes demo verification |
| `AuthContext.MessageOr` | src/Components/auth/AuthContext.jsx:157 | `message || fallback` gives the message exactly when it is present and non-empty, and the fallback otherwise. It is never empty when the fallback is not. |
| `AuthContext.LoginEffects` | src/Components/auth/AuthContext.jsx:135-169 | login always dispatches LOGIN_START first. Exactly when the reply succeeded, its second effect writes the response token to storage and it ends with LOGIN_SUCCESS. Otherwise it ends with LOGIN_FAILURE after two effects. |
| `AuthContext.SignupEffects` | src/Components/auth/AuthContext.jsx:172-196 | signup always performs two dispatches, SIGNUP_START first. The second is SIGNUP_SUCCESS exactly when the reply succeeded and SIGNUP_FAILURE otherwise. |
| `AuthContext.LoginSuccessOutcome` | src/Components/auth/AuthContext.jsx:141-153 | a successful login stores the response token and signs in the response user, with loading off and no error. The caller is told it succeeded. |
| `AuthContext.LoginStoresTokenBeforeSuccess` | src/Components/auth/AuthContext.jsx:137-151 | on success the effects are, in order: LOGIN_START, the token write, LOGIN_SUCCESS |
| `AuthContext.LoginFailureOutcome` | src/Components/auth/AuthContext.jsx:154-168 | a failed or throwing login leaves the stored token unchanged and signs out. Its error is the response message, or 'Login failed' when there is none, or 'Demo login error' when the call threw. |
| `AuthContext.SignupNeverTouchesToken` | src/Components/auth/AuthContext.jsx:172-196 | signup never writes or removes the stored token, whatever the reply |
| `AuthContext.SignupOutcome` | src/Components/auth/AuthContext.jsx:172-196 | a successful signup keeps who is signed in and clears the error. A failed one signs out and records the gateway's message, or 'Signup failed' when it has none, or 'Demo signup error' when the call threw. Loading ends either way. |
| `AuthContext.LogoutOutcome` | src/Components/auth/AuthContext.jsx:199-202 | logout removes the token and reaches the logged-out state from anywhere, so twice is once |
| `AuthContext.SingleFieldOperations` | src/Components/auth/AuthContext.jsx:205-218 | `checkAuthStatus` and the mount effect only clear `loading`. `clearError` only clears `error`. Neither touches the token. |
| `AuthContext.DemoLoginThenVerify` | src/Components/auth/AuthContext.jsx:135-153 | after a demo login, the stored token passes demo verification. The verified user is the demo user. |
| `AuthContext.LoginScenario` | src/Components/auth/AuthContext.jsx:135-153 | a reply with token 'tok123' for a@b.com signs a@b.com in and stores 'tok123' |
| `AuthContext.SignupRejectedScenario` | src/Components/auth/AuthContext.jsx:172-187 | a reply 'Email already exists' gives that error, not authenticated, and no token change |
| `AuthContext.CallPreservesInv` | src/Components/auth/AuthContext.jsx:135-218 | each operation keeps the invariant, given a successful login reply names its user. Every operation except `clearError` leaves nothing loading. |
| `AuthContext.RunCallsPreservesInv` | src/Components/auth/AuthContext.jsx:125-218 | from a session satisfying `isAuthenticated == (user != null)`, any sequence of provider operations keeps it, provided every successful login reply names its user. Every reply of the demo `mockAuthService.login` does (`MockAuthService.Login`). |
| `AuthContext.AuthProvider.constructor` | src/Components/auth/AuthContext.jsx:125-126 | a new provider publishes the initial state over whatever token storage holds |
| `AuthContext.AuthProvider.Dispatch` | src/Components/auth/AuthContext.jsx:126 | `dispatch` replaces the state by the reducer's result and leaves the token alone |
| `AuthContext.AuthProvider.SetToken` | src/Components/auth/AuthContext.jsx:143 | the storage write sets the token slot and nothing else |
| `AuthContext.AuthProvider.RemoveToken` | src/Components/auth/AuthContext.jsx:200 | the storage removal empties the token slot and nothing else |
| `AuthContext.AuthProvider.OnMount` | src/Components/auth/AuthContext.jsx:129-132 | the mount effect clears `loading` only and keeps the session invariant |
| `AuthContext.AuthProvider.Login` | src/Components/auth/AuthContext.jsx:135-169 | performs exactly `LoginEffects` in order and returns `LoginResult`. On success the user is signed in and the token stored. On failure the token is unchanged and the error is the gateway's message, 'Login failed' or 'Demo login error'. From a state with `isAuthenticated == (user != null)`, a reply that names its user keeps that invariant. |
| `AuthContext.AuthProvider.Signup` | src/Components/auth/AuthContext.jsx:172-196 | performs exactly `SignupEffects` in order and returns `SignupResult`. The token never changes. Success keeps the session. Failure signs out with the gateway's message, 'Signup failed' or 'Demo signup error'. It keeps `isAuthenticated == (user != null)`. |
| `AuthContext.AuthProvider.Logout` | src/Components/auth/AuthContext.jsx:199-202 | removes the token, then dispatches LOGOUT, ending logged out with no token, so the session invariant holds |
| `AuthContext.AuthProvider.CheckAuthStatus` | src/Components/auth/AuthContext.jsx:205-213 | only clears `loading`, with no gateway call and no token change, and keeps the session invariant |
| `AuthContext.AuthProvider.ClearError` | src/Components/auth/AuthContext.jsx:216-218 | only clears `error` and keeps the session invariant |

## Left out

- String lengths: JavaScript counts `length` in UTF-16 code units, while the model counts Unicode scalar values. The two differ only for characters outside the Basic Multilingual Plane.
- `null` and `undefined`: both are `None`. The validators treat them alike, and neither can equal a non-empty string. For the stored token, `AuthContext.StoredString` writes a missing token as "undefined", whereas `localStorage.setItem` turns a `null` into "null". The demo service always returns a string token, so this case never arises.
- Form fields holding non-string values, such as numbers, are not modelled: the pages only ever store strings.
- `calculatePasswordStrength` on a missing password throws in the source. The model takes a string.
- The default argument `type = 'login'` of `validateForm`: callers of the model pass the form kind explicitly.
- `EMAIL_REGEX` is modelled by a hand-written description of the language it matches, not by a backtracking regular-expression engine. The equivalence of the two rests on reading the pattern, not on a proof.
- Interleaving of overlapping asynchronous operations is not modelled: each operation is one atomic sequence of effects. This is concurrency.
- Exceptions are modelled only where the awaited gateway call throws. A failing `localStorage` write or a failing `dispatch` inside the `try` block is not modelled.
- `Date.now()` is the parameter `now`. The wall clock is I/O.
- The `console.warn` in the `catch` of `checkAuthStatus` is logging, and that branch dispatches the same action as the `try`.
- React rendering, the `AuthContext.Provider` element and the `useAuth` hook are UI plumbing with no state logic.
- The network authentication service in `src/services/authService.js` is not part of this model. The provider never calls it. Its `{success, message, token, user, errors}` result shape is `MockAuthService.Response`, which the provider's operations accept as the gateway reply.
