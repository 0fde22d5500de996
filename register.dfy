/** The sign-up form: when it may be submitted, the one check its handler
    makes, the trimmed payload it posts, and how it reads a rejection. */
module Register {
  import opened Js
  import opened Api

  const PasswordsDiffer := "Passwords do not match."
  const Registered := "Account created successfully. Redirecting to login..."
  const RegisterFailed := "Failed to register."

  /** The first message listed under one of the body's fields, `""` when
      there is none. */
  function UsernameError(body: Option<ErrorBody>): string
  {
    if body.Some? then FirstOf(body.value.username) else ""
  }

  function EmailError(body: Option<ErrorBody>): string
  {
    if body.Some? then FirstOf(body.value.email) else ""
  }

  function PasswordError(body: Option<ErrorBody>): string
  {
    if body.Some? then FirstOf(body.value.password) else ""
  }

  /** `getErrorMessage` of the sign-up form: the field errors come first. */
  function GetErrorMessage(err: ApiError, fallback: string): string
  {
    match err
    case AxiosError(message, _, body) =>
      Or(UsernameError(body), Or(EmailError(body), Or(PasswordError(body),
        Or(NonFieldError(body), Or(Detail(body), Or(message, fallback))))))
    case PlainError(message) => message
    case OtherThrown => fallback
  }

  /** For an axios error the message is the first non-empty of the username,
      email and password errors, the first non-field error, `detail` and the
      transport message, else the fallback; another `Error` gives its message,
      anything else the fallback. */
  lemma {:induction false} ErrorPrecedence(err: ApiError, fallback: string)
    ensures err.AxiosError? ==>
      GetErrorMessage(err, fallback) == FirstTruthy(
        [UsernameError(err.body), EmailError(err.body), PasswordError(err.body),
         NonFieldError(err.body), Detail(err.body), err.message], fallback)
    ensures err.PlainError? ==> GetErrorMessage(err, fallback) == err.message
    ensures err.OtherThrown? ==> GetErrorMessage(err, fallback) == fallback
  {
    if err.AxiosError? {
      var b := err.body;
      var c := [UsernameError(b), EmailError(b), PasswordError(b), NonFieldError(b), Detail(b), err.message];
      assert c == [c[0]] + [c[1], c[2], c[3], c[4], c[5]];
      assert [c[1], c[2], c[3], c[4], c[5]] == [c[1]] + [c[2], c[3], c[4], c[5]];
      assert [c[2], c[3], c[4], c[5]] == [c[2]] + [c[3], c[4], c[5]];
      assert [c[3], c[4], c[5]] == [c[3]] + [c[4], c[5]];
      assert [c[4], c[5]] == [c[4]] + [c[5]];
      assert [c[5]] == [c[5]] + [];
      FirstTruthyCons(c[5], [], fallback);
      FirstTruthyCons(c[4], [c[5]], fallback);
      FirstTruthyCons(c[3], [c[4], c[5]], fallback);
      FirstTruthyCons(c[2], [c[3], c[4], c[5]], fallback);
      FirstTruthyCons(c[1], [c[2], c[3], c[4], c[5]], fallback);
      FirstTruthyCons(c[0], [c[1], c[2], c[3], c[4], c[5]], fallback);
    }
  }

  /** A field error outranks `detail`: unlike the sign-in form's rule, a
      response naming both shows the field's message. */
  lemma {:induction false} FieldErrorBeforeDetail(err: ApiError, fallback: string)
    requires err.AxiosError? && UsernameError(err.body) != ""
    ensures GetErrorMessage(err, fallback) == UsernameError(err.body)
    ensures Detail(err.body) != "" ==> DetailFirstMessage(err, fallback) == Detail(err.body)
  {
  }

  /** `passwordsMatch`: a non-empty password equal to its confirmation. */
  predicate PasswordsMatch(password: string, password2: string)
  {
    |password| > 0 && password == password2
  }

  /** `canSubmit`. */
  predicate CanSubmit(loading: bool, firstName: string, lastName: string, email: string,
                      username: string, password: string, password2: string)
  {
    && !loading
    && Trim(firstName) != "" && Trim(lastName) != "" && Trim(email) != "" && Trim(username) != ""
    && Length(password) >= 6 && Length(password2) >= 6
    && PasswordsMatch(password, password2)
  }

  /** An enabled button means every text field has a character that is not
      white space, the password is at least six UTF-16 code units long (at
      least three characters, six when none is astral), and the handler's own
      check (equal passwords) passes. */
  lemma {:induction false} CanSubmitMeans(loading: bool, firstName: string, lastName: string, email: string,
                                          username: string, password: string, password2: string)
    requires CanSubmit(loading, firstName, lastName, email, username, password, password2)
    ensures !loading && password == password2 && Length(password) >= 6 && |password| >= 3
    ensures (forall k :: 0 <= k < |password| ==> !Astral(password[k])) ==> |password| >= 6
    ensures !AllWhiteSpace(firstName) && !AllWhiteSpace(lastName) && !AllWhiteSpace(email) && !AllWhiteSpace(username)
  {
    TrimEmptyIff(firstName);
    TrimEmptyIff(lastName);
    TrimEmptyIff(email);
    TrimEmptyIff(username);
    if forall k :: 0 <= k < |password| ==> !Astral(password[k]) {
      LengthOfBmp(password);
    }
  }

  /** Three emoji make a six-unit password, which enables the button. */
  lemma AstralPasswordAccepted()
    ensures var p := "\U{1F600}\U{1F600}\U{1F600}";
      |p| == 3 && CanSubmit(false, "a", "a", "a", "a", p, p)
  {
    var p := "\U{1F600}\U{1F600}\U{1F600}";
    assert Astral(p[0]) && Astral(p[1]) && Astral(p[2]);
    assert Length(p) == 6 by {
      assert p[1..] == "\U{1F600}\U{1F600}";
      assert p[1..][1..] == "\U{1F600}";
      assert p[1..][1..][1..] == "";
    }
    assert Trim("a") == "a" by { TrimNoWhiteSpace("a"); }
  }

  /** The body of `POST auth/register/`. */
  datatype RegisterPayload = RegisterPayload(
    username: string, password: string, firstName: string, lastName: string, email: string)

  /** The payload for the typed fields: the names and the email trimmed, the
      password as typed. */
  function PayloadOf(username: string, password: string, firstName: string, lastName: string, email: string): RegisterPayload
  {
    RegisterPayload(Trim(username), password, Trim(firstName), Trim(lastName), Trim(email))
  }

  /** The payload's text fields carry no white space at either end, the
      password is sent exactly as typed, and a username of blanks is sent as
      the empty string. */
  lemma {:induction false} PayloadTrimmed(username: string, password: string, firstName: string, lastName: string, email: string)
    ensures var p := PayloadOf(username, password, firstName, lastName, email);
      && p.password == password
      && Trim(p.username) == p.username && Trim(p.email) == p.email
      && Trim(p.firstName) == p.firstName && Trim(p.lastName) == p.lastName
      && (p.username == "" <==> AllWhiteSpace(username))
  {
    TrimIdempotent(username);
    TrimIdempotent(email);
    TrimIdempotent(firstName);
    TrimIdempotent(lastName);
    TrimEmptyIff(username);
  }

  /** The answer to `POST auth/register/`. */
  datatype RegisterOutcome = Created | RegisterFail(err: ApiError)

  class RegisterForm {
    var firstName: string
    var lastName: string
    var email: string
    var username: string
    var password: string
    var password2: string
    var loading: bool
    var successMsg: string
    var errorMsg: string

    constructor ()
      ensures firstName == "" && lastName == "" && email == "" && username == ""
      ensures password == "" && password2 == "" && !loading && successMsg == "" && errorMsg == ""
    {
      firstName := "";
      lastName := "";
      email := "";
      username := "";
      password := "";
      password2 := "";
      loading := false;
      successMsg := "";
      errorMsg := "";
    }

    /** `handleRegister`: clears both messages; different passwords only set
        the error and post nothing; otherwise the trimmed payload is posted
        (`payload`), success shows the notice and failure the error, and
        `loading` ends false. Nothing else is checked here: the other rules
        of `canSubmit` are enforced only by the disabled button. */
    method HandleRegister(outcome: RegisterOutcome) returns (payload: Option<RegisterPayload>)
      modifies this`loading, this`successMsg, this`errorMsg
      ensures payload.Some? <==> password == password2
      ensures payload.Some? ==> payload.value == PayloadOf(username, password, firstName, lastName, email)
      ensures payload.None? ==> errorMsg == PasswordsDiffer && successMsg == "" && loading == old(loading)
      ensures payload.Some? ==> !loading
      ensures payload.Some? && outcome.Created? ==> successMsg == Registered && errorMsg == ""
      ensures payload.Some? && outcome.RegisterFail? ==>
        errorMsg == GetErrorMessage(outcome.err, RegisterFailed) && successMsg == ""
    {
      var body := PayloadOf(username, password, firstName, lastName, email);
      successMsg := "";
      errorMsg := "";
      if password != password2 {
        errorMsg := PasswordsDiffer;
        return None;
      }
      loading := true;
      payload := Some(body);
      match outcome {
        case Created =>
          successMsg := Registered;
        case RegisterFail(err) =>
          errorMsg := GetErrorMessage(err, RegisterFailed);
      }
      loading := false;
    }
  }
}
