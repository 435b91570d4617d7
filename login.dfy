// frontend/src/components/Login.tsx: the sign-in form. The form state is a
// class holding the page's token store (`setToken` of utils/auth.ts); the
// login request is given its reply, and the browser's `prompt` its answer.

module Login {
  import opened Common
  import Js
  import Auth

  const MissingFields := "Please enter both email and password."
  const InvalidCredentials := "Invalid email or password."
  const ConnectionError := "Unable to connect. Please check your internet connection."
  const JobsManagementPath := "/jobs-management"
  const ResetSentPrefix := "Password reset instructions have been sent to "
  const RecoverySentPrefix := "Username recovery instructions have been sent to "

  /** The body of `POST /api/auth/login`. */
  datatype Credentials = Credentials(email: string, password: string)

  /** How the login request ends: it threw (no connection, or a reply that is not JSON), or it replied. */
  datatype LoginReply = Threw | Replied(ok: bool, message: Js.Value, token: string)

  /** What one submit does: the request it sends, the error it shows, the token it stores, where it goes. */
  datatype Attempt = Attempt(request: Option<Credentials>, error: string, token: Option<string>, navigateTo: Option<string>)

  /**
   * One submit of `username` and `password`, given how the request ends.
   * Nothing is sent when either is blank after trimming; then the email is
   * sent trimmed and the password as typed. A token is stored, and the page
   * moves to jobs management, exactly when the reply is ok; every other
   * outcome shows an error.
   */
  function AttemptOf(username: string, password: string, reply: LoginReply): (a: Attempt)
    ensures a.request.Some? <==> Trim(username) != "" && Trim(password) != ""
    ensures a.request.Some? ==> a.request.value == Credentials(Trim(username), password)
    ensures a.token.Some? <==> a.request.Some? && reply.Replied? && reply.ok
    ensures a.token.Some? ==> a.token.value == reply.token && a.error == ""
    ensures a.navigateTo == (if a.token.Some? then Some(JobsManagementPath) else None)
    ensures a.request.None? ==> a.error == MissingFields
    ensures a.request.Some? && reply.Threw? ==> a.error == ConnectionError
    ensures a.request.Some? && reply.Replied? && !reply.ok ==>
      a.error == (if Js.Truthy(reply.message) then Js.ToText(reply.message) else InvalidCredentials)
  {
    if Trim(username) == "" || Trim(password) == "" then Attempt(None, MissingFields, None, None)
    else
      var request := Some(Credentials(Trim(username), password));
      match reply
      case Threw => Attempt(request, ConnectionError, None, None)
      case Replied(ok, message, token) =>
        if !ok then Attempt(request, if Js.Truthy(message) then Js.ToText(message) else InvalidCredentials, None, None)
        else Attempt(request, "", Some(token), Some(JobsManagementPath))
  }

  /** A password of blanks blocks the submit, although a sent password is never trimmed. */
  lemma BlankPasswordBlocks(username: string, password: string, reply: LoginReply)
    requires Trim(username) != "" && password != "" && Trim(password) == ""
    ensures AttemptOf(username, password, reply).request.None?
    ensures AttemptOf(username, password + "x", reply).request == Some(Credentials(Trim(username), password + "x"))
  {
    TrimEmptyIff(password, IsJsSpace);
    TrimEmptyIff(password + "x", IsJsSpace);
    assert (password + "x")[|password|] == 'x';
  }

  /** The prompt of a "forgot" link: an alert naming the answer as typed, only for an answer that is not blank. */
  function ForgotAlert(prefix: string, answer: Option<string>): (alert: Option<string>)
    ensures alert.Some? <==> answer.Some? && Trim(answer.value) != ""
    ensures alert.Some? ==> StartsWith(alert.value, prefix) && EndsWith(alert.value, answer.value)
  {
    if answer.Some? && answer.value != "" && Trim(answer.value) != "" then
      var text := prefix + answer.value;
      assert text[..|prefix|] == prefix && text[|text| - |answer.value|..] == answer.value;
      Some(text)
    else
      TrimEmptyIff("", IsJsSpace);
      None
  }

  /** `handleForgotPassword`, given what the prompt returns (`None` when cancelled). */
  function ForgotPassword(answer: Option<string>): (alert: Option<string>)
  {
    ForgotAlert(ResetSentPrefix, answer)
  }

  /** `handleForgotUsername`, given what the prompt returns. */
  function ForgotUsername(answer: Option<string>): (alert: Option<string>)
  {
    ForgotAlert(RecoverySentPrefix, answer)
  }

  class Form {
    var username: string
    var password: string
    var isLoading: bool
    var loginError: string
    var isDemoModalOpen: bool
    var location: Option<string>
    const store: Auth.TokenStore

    /** The form as it opens, over the page's token store. */
    constructor (store: Auth.TokenStore)
      ensures this.store == store
      ensures username == "" && password == "" && !isLoading && loginError == "" && !isDemoModalOpen && location.None?
    {
      this.store := store;
      username := "";
      password := "";
      isLoading := false;
      loginError := "";
      isDemoModalOpen := false;
      location := None;
    }

    /** `handleInputChange`: the input named `name` takes `value`; the other field stays. */
    method HandleInputChange(name: string, value: string)
      modifies `username, `password
      ensures username == if name == "username" then value else old(username)
      ensures password == if name == "password" then value else old(password)
    {
      if name == "username" {
        username := value;
      } else if name == "password" {
        password := value;
      }
    }

    /**
     * `handleSubmit`, given how the request ends: the error is cleared, then
     * the submit goes as `AttemptOf` says; the token store changes only by
     * the stored token, and `isLoading` is false after a sent request.
     */
    method HandleSubmit(reply: LoginReply) returns (request: Option<Credentials>)
      modifies this, store
      ensures request == AttemptOf(old(username), old(password), reply).request
      ensures loginError == AttemptOf(old(username), old(password), reply).error
      ensures var t := AttemptOf(old(username), old(password), reply).token;
        store.storage == if t.Some? then old(store.storage)[Auth.TokenKey := t.value] else old(store.storage)
      ensures location == if request.Some? && reply.Replied? && reply.ok then Some(JobsManagementPath) else old(location)
      ensures isLoading == (if request.Some? then false else old(isLoading))
      ensures username == old(username) && password == old(password) && isDemoModalOpen == old(isDemoModalOpen)
    {
      var a := AttemptOf(username, password, reply);
      loginError := "";
      request := a.request;
      if request.None? {
        loginError := MissingFields;
        return;
      }
      isLoading := true;
      loginError := a.error;
      if a.token.Some? {
        store.SetToken(a.token.value);
        location := a.navigateTo;
      }
      isLoading := false;
    }

    /** The demo button opens the demo modal; closing it closes it. */
    method HandleDemoClick()
      modifies `isDemoModalOpen
      ensures isDemoModalOpen
    {
      isDemoModalOpen := true;
    }

    method HandleCloseModal()
      modifies `isDemoModalOpen
      ensures !isDemoModalOpen
    {
      isDemoModalOpen := false;
    }
  }
}
