/** The sign-in form: when it may be submitted, what it checks before calling
    the session's `login`, and what it shows afterwards. */
module Login {
  import opened Js
  import opened Api
  import AuthContext

  const MissingCredentials := "Please enter username and password."
  const LoggedIn := "Login successful. Redirecting..."
  const LoginFailed := "Login failed."

  /** `canSubmit`: a username that is not blank once trimmed, a non-empty
      password, and no attempt under way. */
  predicate CanSubmit(username: string, password: string, submitting: bool)
  {
    |Trim(username)| > 0 && |password| > 0 && !submitting
  }

  /** The button is enabled exactly when the username holds a character that
      is not white space, the password is not empty and nothing is being
      submitted; and whenever it is enabled, `handleSubmit`'s own check
      passes. */
  lemma {:induction false} CanSubmitIff(username: string, password: string, submitting: bool)
    ensures CanSubmit(username, password, submitting)
      <==> !AllWhiteSpace(username) && password != "" && !submitting
    ensures CanSubmit(username, password, submitting) ==> Trim(username) != "" && password != ""
  {
    TrimEmptyIff(username);
  }

  /** The message for a failed sign-in: `detail`, then the first non-field
      error, then the transport message, then "Login failed."; never empty
      for an axios error. */
  lemma {:induction false} LoginErrorMessage(err: ApiError)
    ensures err.AxiosError? ==>
      && DetailFirstMessage(err, LoginFailed) != ""
      && DetailFirstMessage(err, LoginFailed)
        == FirstTruthy([Detail(err.body), NonFieldError(err.body), err.message], LoginFailed)
    ensures err.OtherThrown? ==> DetailFirstMessage(err, LoginFailed) == LoginFailed
  {
    DetailFirstPrecedence(err, LoginFailed);
  }

  /** What `login` is called with. */
  datatype Credentials = Credentials(username: string, password: string)

  /** `handleSubmit`'s check: `login` is called only with a username that is
      not blank, and then with that username trimmed. */
  function Checked(username: string, password: string): Option<Credentials>
  {
    var name := Trim(username);
    if name == "" || password == "" then None else Some(Credentials(name, password))
  }

  /** The check lets an attempt through exactly when the button would be
      enabled (nothing being submitted); the username is sent trimmed, which
      trimming again leaves as it is, and the password exactly as typed. */
  lemma {:induction false} CheckedCredentials(username: string, password: string)
    ensures Checked(username, password).Some? <==> CanSubmit(username, password, false)
    ensures Checked(username, password).Some? ==>
      && Checked(username, password).value.password == password
      && Checked(username, password).value.username == Trim(username)
      && Trim(Checked(username, password).value.username) == Checked(username, password).value.username
  {
    TrimIdempotent(username);
  }

  class LoginForm {
    var username: string
    var password: string
    var submitting: bool
    var errorMsg: string
    var successMsg: string

    constructor ()
      ensures username == "" && password == "" && !submitting && errorMsg == "" && successMsg == ""
    {
      username := "";
      password := "";
      submitting := false;
      errorMsg := "";
      successMsg := "";
    }

    /** `handleSubmit`: clears both messages; a blank username or an empty
        password only sets the error; otherwise `login` runs with the checked
        credentials (`called`), its rejection shows the error and its success
        the notice, and `submitting` ends false. */
    method HandleSubmit(auth: AuthContext.AuthProvider, post: AuthContext.LoginOutcome, me: AuthContext.MeOutcome)
      returns (called: Option<Credentials>)
      modifies this`submitting, this`errorMsg, this`successMsg, auth
      ensures called == Checked(old(username), old(password))
      ensures called.None? ==>
        && errorMsg == MissingCredentials && successMsg == ""
        && submitting == old(submitting) && auth.State() == old(auth.State())
      ensures called.Some? ==>
        && !submitting
        && auth.State() == AuthContext.AfterLogin(old(auth.State()), called.value.username, post, me)
      ensures called.Some? && post.LoginOk? ==> successMsg == LoggedIn && errorMsg == ""
      ensures called.Some? && post.LoginRejected? ==>
        errorMsg == DetailFirstMessage(post.err, LoginFailed) && successMsg == ""
    {
      called := Checked(username, password);
      errorMsg := "";
      successMsg := "";
      if called.None? {
        errorMsg := MissingCredentials;
        return;
      }
      Attempt(auth, called.value.username, post, me);
    }

    /** The `try`/`finally` of `handleSubmit` around `login(name, password)`. */
    method Attempt(auth: AuthContext.AuthProvider, name: string, post: AuthContext.LoginOutcome, me: AuthContext.MeOutcome)
      modifies this`submitting, this`errorMsg, this`successMsg, auth
      requires errorMsg == "" && successMsg == ""
      ensures !submitting
      ensures auth.State() == AuthContext.AfterLogin(old(auth.State()), name, post, me)
      ensures post.LoginOk? ==> successMsg == LoggedIn && errorMsg == ""
      ensures post.LoginRejected? ==> errorMsg == DetailFirstMessage(post.err, LoginFailed) && successMsg == ""
    {
      submitting := true;
      var thrown := auth.Login(name, password, post, me);
      if thrown.None? {
        successMsg := LoggedIn;
      } else {
        errorMsg := DetailFirstMessage(thrown.value, LoginFailed);
      }
      submitting := false;
    }
  }
}
