/** The login form (client/screens/LoginScreen.tsx): the credential check
    that runs before the session's login, and the error and busy flags set
    around it. The login itself is the session manager's; here it is the
    request handed to it and the outcome it settles with. */
module Login {
  import opened Types
  import Api
  import Auth
  import Strings

  /** Both fields must hold something other than whitespace
      (LoginScreen.tsx:36). */
  predicate CredentialsPresent(username: string, password: string) {
    Strings.Trim(username) != "" && Strings.Trim(password) != ""
  }

  /** A field made only of whitespace counts as missing. */
  lemma BlankFieldRejected(username: string, password: string)
    ensures CredentialsPresent(username, password) <==>
      !Strings.AllWhitespace(username) && !Strings.AllWhitespace(password)
  {
    Strings.TrimEmptyIffAllWhitespace(username);
    Strings.TrimEmptyIffAllWhitespace(password);
  }

  class LoginForm {
    var username: string
    var password: string
    /** `null` shows no error. */
    var error: Option<Message>
    var isSubmitting: bool

    constructor ()
      ensures username == "" && password == "" && error == None && !isSubmitting
    {
      username := "";
      password := "";
      error := None;
      isSubmitting := false;
    }

    /** Typing into the fields. */
    method EnterCredentials(u: string, p: string)
      modifies this`username, this`password
      ensures username == u && password == p
    {
      username := u;
      password := p;
    }

    /** handleLogin up to the `login` call (LoginScreen.tsx:35-45): missing
        credentials show the error and stop; otherwise the error is cleared,
        the form turns busy, and `login` is asked for the trimmed user name
        and the password exactly as typed. */
    method BeginLogin() returns (submitted: Option<Api.Request>)
      modifies this`error, this`isSubmitting
      ensures username == old(username) && password == old(password)
      ensures !CredentialsPresent(username, password) ==> (
        && submitted == None && error == Some(Key("error_missing_fields"))
        && isSubmitting == old(isSubmitting))
      ensures CredentialsPresent(username, password) ==> (
        && submitted == Some(Auth.LoginRequest(Strings.Trim(username), password))
        && error == None && isSubmitting)
    {
      var present := CredentialsPresent(username, password);
      var request := Auth.LoginRequest(Strings.Trim(username), password);
      if !present {
        error := Some(Key("error_missing_fields"));
        return None;
      }
      error := None;
      isSubmitting := true;
      submitted := Some(request);
    }

    /** The rest of handleLogin once `login` settles (LoginScreen.tsx:45-52):
        a throw shows its message or the `login_failed` fallback; the form
        is no longer busy either way. */
    method FinishLogin(outcome: Outcome)
      modifies this`error, this`isSubmitting
      ensures !isSubmitting
      ensures outcome == Ok ==> error == old(error)
      ensures outcome.Thrown? ==> error == Some(ThrownOr(outcome.message, "login_failed"))
    {
      if outcome.Thrown? {
        error := Some(ThrownOr(outcome.message, "login_failed"));
      }
      isSubmitting := false;
    }
  }
}
