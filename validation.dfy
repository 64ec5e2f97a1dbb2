/**
 * The client-side form validators: email, password, password confirmation,
 * password strength and the whole-form check used by the login and signup
 * pages. A form field that is `undefined` or `null` is `None`.
 */
module Validation {
  import opened Wrappers
  import opened JsString
  import EmailPattern

  const EmailRequired := "Email is required"
  const EmailMalformed := "Please enter a valid email address"
  const PasswordRequired := "Password is required"
  const PasswordTooShort := "Password must be at least 6 characters long"
  const ConfirmationRequired := "Please confirm your password"
  const PasswordsDiffer := "Passwords do not match"

  const MinPasswordLength := 6
  const LongPasswordLength := 8

  /** JavaScript truthiness of an optional string: `undefined`, `null` and `""` are falsy. */
  predicate Truthy(s: Option<string>) {
    s.Some? && s.value != ""
  }

  /**
   * Missing or blank input is reported as required before the format is
   * looked at; the format is checked on the trimmed input.
   */
  function ValidateEmail(email: Option<string>): (r: Option<string>)
    ensures r == Some(EmailRequired) <==> email.None? || AllWhitespace(email.value)
    ensures r == Some(EmailMalformed) <==>
      email.Some? && !AllWhitespace(email.value) && !EmailPattern.IsEmailAddress(Trim(email.value))
    ensures r == None <==> email.Some? && EmailPattern.IsEmailAddress(Trim(email.value))
  {
    if !Truthy(email) || Trim(email.value) == "" then Some(EmailRequired)
    else if !EmailPattern.IsEmailAddress(Trim(email.value)) then Some(EmailMalformed)
    else None
  }

  /** Surrounding whitespace never changes the verdict on an email. */
  lemma {:induction false} ValidateEmailIgnoresSurroundingWhitespace(s: string)
    ensures ValidateEmail(Some(s)) == ValidateEmail(Some(Trim(s)))
  {
    TrimIdempotent(s);
  }

  /** An accepted email is one the pattern matches as typed, up to surrounding whitespace. */
  lemma AcceptedEmailIsTrimmedAddress(s: string)
    requires ValidateEmail(Some(s)) == None
    ensures EmailPattern.IsEmailAddress(Trim(s)) && Trim(Trim(s)) == Trim(s)
  {
    EmailPattern.EmailAddressIsTrimmed(Trim(s));
  }

  /** A password is accepted exactly when it has at least six characters. */
  function ValidatePassword(password: Option<string>): (r: Option<string>)
    ensures r == None <==> password.Some? && |password.value| >= MinPasswordLength
    ensures r == Some(PasswordRequired) <==> !Truthy(password)
    ensures r == Some(PasswordTooShort) <==> password.Some? && 0 < |password.value| < MinPasswordLength
  {
    if !Truthy(password) then Some(PasswordRequired)
    else if |password.value| < MinPasswordLength then Some(PasswordTooShort)
    else None
  }

  /**
   * An empty confirmation is always reported as missing; otherwise the
   * confirmation is accepted exactly when it equals the password.
   */
  function ValidatePasswordConfirmation(password: Option<string>, confirmPassword: Option<string>): (r: Option<string>)
    ensures !Truthy(confirmPassword) ==> r == Some(ConfirmationRequired)
    ensures Truthy(confirmPassword) ==> (r == None <==> password == confirmPassword)
    ensures Truthy(confirmPassword) && password != confirmPassword ==> r == Some(PasswordsDiffer)
  {
    if !Truthy(confirmPassword) then Some(ConfirmationRequired)
    else if password != confirmPassword then Some(PasswordsDiffer)
    else None
  }

  // ---------------------------------------------------------------------
  // Password strength
  // ---------------------------------------------------------------------

  const TooShortFeedback := "Too short - minimum 6 characters"
  const WeakFeedback := "Weak password"
  const MediumFeedback := "Medium strength"
  const StrongFeedback := "Strong password"
  const VeryWeakFeedback := "Very weak"

  datatype Strength = Strength(score: int, feedback: string)

  /** `/[a-z]/` */
  predicate HasLower(s: string) { exists i :: 0 <= i < |s| && 'a' <= s[i] <= 'z' }
  /** `/[A-Z]/` */
  predicate HasUpper(s: string) { exists i :: 0 <= i < |s| && 'A' <= s[i] <= 'Z' }
  /** `/[0-9]/` */
  predicate HasDigit(s: string) { exists i :: 0 <= i < |s| && '0' <= s[i] <= '9' }
  /** `/[^A-Za-z0-9]/` */
  predicate HasSymbol(s: string) {
    exists i :: 0 <= i < |s| && !(('a' <= s[i] <= 'z') || ('A' <= s[i] <= 'Z') || ('0' <= s[i] <= '9'))
  }

  function Indicator(b: bool): nat { if b then 1 else 0 }

  /**
   * The score of a password of at least six characters: one point for that
   * length, and one each for eight characters or more, a lower-case letter,
   * an upper-case letter, a digit and any other character.
   */
  function StrengthScore(p: string): (score: nat)
    ensures 1 <= score <= 6
  {
    1 + Indicator(|p| >= LongPasswordLength) + Indicator(HasLower(p)) + Indicator(HasUpper(p))
      + Indicator(HasDigit(p)) + Indicator(HasSymbol(p))
  }

  /** The feedback table of the strength meter, with its default for any other score. */
  function FeedbackFor(score: int): string {
    if score == 1 || score == 2 then WeakFeedback
    else if score == 3 || score == 4 then MediumFeedback
    else if score == 5 || score == 6 then StrongFeedback
    else VeryWeakFeedback
  }

  /** What the strength meter shows for a password. */
  function PasswordStrength(p: string): (r: Strength)
    ensures 0 <= r.score <= 6
    ensures r.score == 0 <==> |p| == 0
    ensures 0 < |p| < MinPasswordLength ==> r == Strength(1, TooShortFeedback)
    ensures |p| >= MinPasswordLength ==> r.score >= 1 && r.feedback != TooShortFeedback
  {
    if |p| == 0 then Strength(0, "")
    else if |p| < MinPasswordLength then Strength(1, TooShortFeedback)
    else var score := StrengthScore(p); Strength(score, FeedbackFor(score))
  }

  /** The strength meter, accumulating the score one criterion at a time. */
  method CalculatePasswordStrength(password: string) returns (r: Strength)
    ensures r == PasswordStrength(password)
    ensures |password| == 0 ==> r == Strength(0, "")
    ensures 0 < |password| < MinPasswordLength ==> r == Strength(1, TooShortFeedback)
    ensures |password| >= MinPasswordLength ==> 1 <= r.score <= 6 && r.feedback != VeryWeakFeedback
  {
    var score := 0;
    var feedback := "";
    if |password| == 0 {
      return Strength(0, "");
    }
    if |password| < MinPasswordLength {
      return Strength(1, TooShortFeedback);
    }
    if |password| >= MinPasswordLength { score := score + 1; }
    if |password| >= LongPasswordLength { score := score + 1; }
    if HasLower(password) { score := score + 1; }
    if HasUpper(password) { score := score + 1; }
    if HasDigit(password) { score := score + 1; }
    if HasSymbol(password) { score := score + 1; }
    if score == 1 || score == 2 {
      feedback := WeakFeedback;
    } else if score == 3 || score == 4 {
      feedback := MediumFeedback;
    } else if score == 5 || score == 6 {
      feedback := StrongFeedback;
    } else {
      feedback := VeryWeakFeedback;
    }
    r := Strength(score, feedback);
  }

  /**
   * The meter's verdict and the password validator agree: a password passes
   * validation exactly when the meter rates it weak, medium or strong, and a
   * short password is rated too short whatever characters it holds.
   */
  lemma StrengthAgreesWithValidatePassword(p: string)
    ensures ValidatePassword(Some(p)) == None <==>
      PasswordStrength(p).feedback in {WeakFeedback, MediumFeedback, StrongFeedback}
    ensures ValidatePassword(Some(p)) == Some(PasswordTooShort) <==>
      PasswordStrength(p) == Strength(1, TooShortFeedback)
  {
  }

  /** A strong rating needs at least four of the five extra criteria. */
  lemma StrongNeedsFourCriteria(p: string)
    requires |p| >= MinPasswordLength
    ensures PasswordStrength(p).feedback == StrongFeedback <==>
      Indicator(|p| >= LongPasswordLength) + Indicator(HasLower(p)) + Indicator(HasUpper(p))
        + Indicator(HasDigit(p)) + Indicator(HasSymbol(p)) >= 4
  {
  }

  /** Appending characters to an acceptable password never lowers its score. */
  lemma {:induction false} StrengthScoreMonotone(p: string, q: string)
    ensures StrengthScore(p) <= StrengthScore(p + q)
  {
    if HasLower(p) { var i :| 0 <= i < |p| && 'a' <= p[i] <= 'z'; assert (p + q)[i] == p[i]; }
    if HasUpper(p) { var i :| 0 <= i < |p| && 'A' <= p[i] <= 'Z'; assert (p + q)[i] == p[i]; }
    if HasDigit(p) { var i :| 0 <= i < |p| && '0' <= p[i] <= '9'; assert (p + q)[i] == p[i]; }
    if HasSymbol(p) {
      var i :| 0 <= i < |p| && !(('a' <= p[i] <= 'z') || ('A' <= p[i] <= 'Z') || ('0' <= p[i] <= '9'));
      assert (p + q)[i] == p[i];
    }
  }

  // ---------------------------------------------------------------------
  // Whole-form validation
  // ---------------------------------------------------------------------

  datatype Field = Email | Password | ConfirmPassword

  datatype FormData = FormData(email: Option<string>, password: Option<string>, confirmPassword: Option<string>)

  datatype FormValidation = FormValidation(isValid: bool, errors: map<Field, string>)

  const SignupForm := "signup"

  /** The message a form of kind `kind` shows under field `f`, if any. */
  function FieldError(data: FormData, kind: string, f: Field): Option<string> {
    match f
    case Email => ValidateEmail(data.email)
    case Password => ValidatePassword(data.password)
    case ConfirmPassword =>
      if kind == SignupForm then ValidatePasswordConfirmation(data.password, data.confirmPassword) else None
  }

  /** The error map: one entry for each field whose validator reports something. */
  function FormErrors(data: FormData, kind: string): (m: map<Field, string>)
    ensures forall f :: f in m <==> FieldError(data, kind, f).Some?
    ensures forall f :: f in m ==> m[f] == FieldError(data, kind, f).value
  {
    map f | f in {Email, Password, ConfirmPassword} && FieldError(data, kind, f).Some? :: FieldError(data, kind, f).value
  }

  /** An error map that agrees with every field's validator is the error map. */
  lemma FormErrorsByField(data: FormData, kind: string, errors: map<Field, string>)
    requires Agrees(data, kind, errors, Email)
    requires Agrees(data, kind, errors, Password)
    requires Agrees(data, kind, errors, ConfirmPassword)
    ensures errors == FormErrors(data, kind)
  {
    var m := FormErrors(data, kind);
    forall f ensures (f in errors <==> f in m) && (f in errors ==> errors[f] == m[f]) {
      assert Agrees(data, kind, errors, f);
    }
  }

  predicate Agrees(data: FormData, kind: string, errors: map<Field, string>, f: Field) {
    match FieldError(data, kind, f)
    case None => f !in errors
    case Some(message) => f in errors && errors[f] == message
  }

  /** The whole-form check, adding one entry to the error map per failing field. */
  method ValidateForm(data: FormData, kind: string) returns (v: FormValidation)
    ensures v.errors == FormErrors(data, kind)
    ensures v.isValid <==> v.errors == map[]
    ensures ConfirmPassword in v.errors ==> kind == SignupForm
  {
    var errors: map<Field, string> := map[];
    var emailError := ValidateEmail(data.email);
    if emailError.Some? {
      errors := errors[Email := emailError.value];
    }
    assert Agrees(data, kind, errors, Email);
    var passwordError := ValidatePassword(data.password);
    if passwordError.Some? {
      errors := errors[Password := passwordError.value];
    }
    assert Agrees(data, kind, errors, Password);
    assert Agrees(data, kind, errors, Email);
    if kind == SignupForm {
      var confirmError := ValidatePasswordConfirmation(data.password, data.confirmPassword);
      if confirmError.Some? {
        errors := errors[ConfirmPassword := confirmError.value];
      }
    }
    assert Agrees(data, kind, errors, ConfirmPassword);
    assert Agrees(data, kind, errors, Password);
    assert Agrees(data, kind, errors, Email);
    FormErrorsByField(data, kind, errors);
    v := FormValidation(|errors| == 0, errors);
  }

  /**
   * A form passes exactly when every validator that applies to its kind
   * returns nothing; a passing form has a well-formed email, a password of at
   * least six characters and, on signup, a matching confirmation.
   */
  lemma ValidFormMeansValidFields(data: FormData, kind: string)
    ensures FormErrors(data, kind) == map[] <==>
      && ValidateEmail(data.email) == None
      && ValidatePassword(data.password) == None
      && (kind == SignupForm ==> ValidatePasswordConfirmation(data.password, data.confirmPassword) == None)
    ensures FormErrors(data, kind) == map[] ==>
      && data.email.Some? && EmailPattern.IsEmailAddress(Trim(data.email.value))
      && data.password.Some? && |data.password.value| >= MinPasswordLength
      && (kind == SignupForm ==> data.confirmPassword == data.password)
  {
    var m := FormErrors(data, kind);
    if m == map[] {
      assert FieldError(data, kind, Email).None?;
      assert FieldError(data, kind, Password).None?;
      assert FieldError(data, kind, ConfirmPassword).None?;
    } else {
      var f :| f in m;
    }
  }

  /** A login form never reports on the confirmation field, whatever it holds. */
  lemma LoginFormIgnoresConfirmation(data: FormData, other: Option<string>)
    ensures ConfirmPassword !in FormErrors(data, "login")
    ensures FormErrors(data, "login") == FormErrors(data.(confirmPassword := other), "login")
  {
    var a, b := FormErrors(data, "login"), FormErrors(data.(confirmPassword := other), "login");
    forall f ensures (f in a <==> f in b) && (f in a ==> a[f] == b[f]) {
    }
  }
}
