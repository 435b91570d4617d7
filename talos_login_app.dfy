// TalosLoginApp.java: the Swing sign-in window. The window is a class over
// the texts of its two fields, the label and state of the sign-in button and
// the message boxes it has shown (`shown`). The task `handleLogin` queues on
// the event thread is the method `RunQueuedLogin`, given whether its sleep
// is interrupted; the answer typed into an input dialog is a parameter
// (`None` when the dialog is cancelled).

module TalosLoginApp {
  import opened Common

  const SignIn := "Sign In"
  const SigningIn := "Signing In..."
  const MissingCredentials := "Please enter both username and password."
  const LoginSucceeded := "Login successful! Welcome to Talos HVAC."
  const ResetSentPrefix := "Password reset instructions have been sent to "
  const RecoverySentPrefix := "Username recovery instructions have been sent to "

  /**
   * Whether `handleLogin` goes ahead: the username must not be blank once
   * trimmed, and the password, which is never trimmed, must not be empty.
   */
  predicate LoginAccepted(username: string, password: string)
  {
    JavaTrim(username) != "" && password != ""
  }

  /**
   * Only the username is trimmed: a password of spaces is accepted as it
   * is, and a leading space in the username changes nothing.
   */
  lemma SpacesPasswordAccepted(username: string)
    requires JavaTrim(username) != ""
    ensures LoginAccepted(username, " ") && LoginAccepted(" " + username, " ")
    ensures !LoginAccepted(username, "")
  {
    assert JavaTrim(" " + username) != "" by {
      TrimEmptyIff(username, IsJavaSpace);
      TrimEmptyIff(" " + username, IsJavaSpace);
      var j :| 0 <= j < |username| && !IsJavaSpace(username[j]);
      assert (" " + username)[j + 1] == username[j];
    }
  }

  /**
   * The message box a "forgot" button shows for the answer typed into its
   * input dialog: none when the dialog is cancelled or the answer is blank
   * once trimmed; otherwise the prefix followed by the answer as typed.
   */
  function ForgotNotice(prefix: string, answer: Option<string>): (notice: Option<string>)
    ensures notice.Some? <==> answer.Some? && JavaTrim(answer.value) != ""
    ensures notice.Some? ==> StartsWith(notice.value, prefix) && EndsWith(notice.value, answer.value)
    ensures notice.Some? ==> |notice.value| == |prefix| + |answer.value|
  {
    if answer.Some? && JavaTrim(answer.value) != "" then
      var text := prefix + answer.value;
      assert text[..|prefix|] == prefix && text[|text| - |answer.value|..] == answer.value;
      Some(text)
    else None
  }

  class LoginWindow {
    var username: string
    var password: string
    var buttonText: string
    var buttonEnabled: bool
    var loginQueued: bool
    var interrupted: bool
    var shown: seq<string>

    /** The window as it opens: empty fields and an enabled `Sign In` button. */
    constructor ()
      ensures username == "" && password == "" && buttonText == SignIn && buttonEnabled
      ensures !loginQueued && !interrupted && shown == []
    {
      username, password := "", "";
      buttonText := SignIn;
      buttonEnabled := true;
      loginQueued, interrupted := false, false;
      shown := [];
    }

    /**
     * `handleLogin`: a rejected login only shows the warning, and the button
     * stays as it was. An accepted one labels the button `Signing In...`,
     * disables it and queues the rest of the login; nothing is shown yet.
     */
    method HandleLogin()
      modifies `shown, `buttonText, `buttonEnabled, `loginQueued
      ensures !LoginAccepted(username, password) ==>
        shown == old(shown) + [MissingCredentials]
        && buttonText == old(buttonText) && buttonEnabled == old(buttonEnabled) && loginQueued == old(loginQueued)
      ensures LoginAccepted(username, password) ==>
        shown == old(shown) && buttonText == SigningIn && !buttonEnabled && loginQueued
    {
      var user := JavaTrim(username);
      if user == "" || password == "" {
        shown := shown + [MissingCredentials];
        return;
      }
      buttonText := SigningIn;
      buttonEnabled := false;
      loginQueued := true;
    }

    /**
     * The queued rest of the login: it sleeps, swallowing an interruption
     * (the thread's interrupt flag is set again), then restores the button
     * to an enabled `Sign In` and shows the success message. No path
     * reports a failure.
     */
    method RunQueuedLogin(interruptedWhileSleeping: bool)
      requires loginQueued
      modifies `shown, `buttonText, `buttonEnabled, `loginQueued, `interrupted
      ensures buttonText == SignIn && buttonEnabled && !loginQueued
      ensures shown == old(shown) + [LoginSucceeded]
      ensures interrupted == (old(interrupted) || interruptedWhileSleeping)
    {
      if interruptedWhileSleeping {
        interrupted := true;
      }
      buttonText := SignIn;
      buttonEnabled := true;
      shown := shown + [LoginSucceeded];
      loginQueued := false;
    }

    /** `handleForgotPassword`, given the answer typed into its input dialog. */
    method HandleForgotPassword(answer: Option<string>)
      modifies `shown
      ensures var notice := ForgotNotice(ResetSentPrefix, answer);
        shown == old(shown) + (if notice.Some? then [notice.value] else [])
    {
      if answer.Some? && JavaTrim(answer.value) != "" {
        shown := shown + [ResetSentPrefix + answer.value];
      }
    }

    /** `handleForgotUsername`, given the answer typed into its input dialog. */
    method HandleForgotUsername(answer: Option<string>)
      modifies `shown
      ensures var notice := ForgotNotice(RecoverySentPrefix, answer);
        shown == old(shown) + (if notice.Some? then [notice.value] else [])
    {
      if answer.Some? && JavaTrim(answer.value) != "" {
        shown := shown + [RecoverySentPrefix + answer.value];
      }
    }
  }
}
