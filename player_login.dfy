/** The player sign-in page (PlayerLogin.tsx): three modes, the auth-error messages, and the
    form resets between modes. The auth service's answers are handler parameters. */
module PlayerLogin {
  import opened Wrappers

  /** `part` occurs in `s` starting at position `i`. */
  predicate OccursAt(s: string, part: string, i: int)
  {
    0 <= i && i + |part| <= |s| && s[i..i + |part|] == part
  }

  /** `String.prototype.includes`: `part` occurs somewhere in `s`. */
  predicate Contains(s: string, part: string)
  {
    exists i :: 0 <= i <= |s| - |part| && OccursAt(s, part, i)
  }

  /** The phrases of the auth service's messages that get friendly text, in test order. */
  const BadCredentialsPhrase := "Invalid login credentials"
  const UnconfirmedPhrase := "Email not confirmed"
  const RegisteredPhrase := "User already registered"

  const InvalidCredentials := "Invalid email or password. Please check your credentials."
  const EmailNotConfirmed := "Please check your email and click the verification link before signing in."
  const AlreadyRegistered := "An account with this email already exists. Please sign in instead."
  const AccountCreated := "Account created! Please check your email to verify your account before signing in."
  const AuthFailed := "Authentication failed. Please try again."
  const ResetEmailSent := "Password reset email sent! Please check your inbox and follow the instructions."

  /** The catch block of `handleSubmit` (PlayerLogin.tsx:79-87): three known phrases, tested in
      this order, get friendly text; any other message is shown as it is, or a default when it
      is empty. The message shown is never empty. */
  function ClassifyAuthError(message: string): (r: string)
    ensures Contains(message, BadCredentialsPhrase) ==> r == InvalidCredentials
    ensures !Contains(message, BadCredentialsPhrase) && Contains(message, UnconfirmedPhrase) ==> r == EmailNotConfirmed
    ensures !Contains(message, BadCredentialsPhrase) && !Contains(message, UnconfirmedPhrase)
      ==> (Contains(message, RegisteredPhrase) ==> r == AlreadyRegistered)
    ensures !Contains(message, BadCredentialsPhrase) && !Contains(message, UnconfirmedPhrase)
      ==> (!Contains(message, RegisteredPhrase) ==> r == OrElse(message, AuthFailed))
    ensures r != ""
  {
    if Contains(message, BadCredentialsPhrase) then InvalidCredentials
    else if Contains(message, UnconfirmedPhrase) then EmailNotConfirmed
    else if Contains(message, RegisteredPhrase) then AlreadyRegistered
    else OrElse(message, AuthFailed)
  }

  /** A message that carries two known phrases gets the text of the one tested first. */
  lemma FirstPhraseWins()
    ensures ClassifyAuthError("Email not confirmed: Invalid login credentials") == InvalidCredentials
  {
    var phrase := BadCredentialsPhrase;
    var m := "Email not confirmed: " + phrase;
    assert m == "Email not confirmed: Invalid login credentials";
    assert m[21..21 + |phrase|] == phrase;
    assert OccursAt(m, phrase, 21);
  }

  /** The service's own wording comes through when it matches no known phrase. */
  lemma UnknownMessagePassesThrough()
    ensures ClassifyAuthError("Rate limit") == "Rate limit"
    ensures ClassifyAuthError("") == AuthFailed
  {
    assert !Contains("Rate limit", BadCredentialsPhrase);
    assert !Contains("Rate limit", UnconfirmedPhrase);
    assert !Contains("Rate limit", RegisteredPhrase);
  }

  /** The error the page shows for a failed call: none when the error has no message, since
      `err.message.includes` then throws inside the catch block. */
  function ShownError(message: Option<string>): Option<string>
  {
    if message.Some? then Some(ClassifyAuthError(message.value)) else None
  }

  datatype Mode = SignIn | SignUp | ResetMode

  datatype FormData = FormData(email: string, password: string, fullName: string, phone: string)

  const EmptyForm := FormData("", "", "", "")

  /** What `signUp` or `signIn` did: a user (with whether the e-mail is already confirmed), no
      user, or an error with its `message` (`None` when the error carries none). */
  datatype AuthOutcome = AuthUser(emailConfirmed: bool) | NoUser | AuthError(message: Option<string>)

  class LoginScreen {
    var mode: Mode
    var error: Option<string>
    var success: Option<string>
    var form: FormData
    var resetEmail: string
    /** Every address handed to `resetPassword`, oldest first. */
    var resetRequests: seq<string>
    /** How many times `onLogin` was called (each call also navigates home). */
    var logins: nat

    constructor ()
      ensures mode == SignIn && error.None? && success.None? && form == EmptyForm
      ensures resetEmail == "" && resetRequests == [] && logins == 0
    {
      mode, error, success, form := SignIn, None, None, EmptyForm;
      resetEmail, resetRequests, logins := "", [], 0;
    }

    /** `handleResetPassword` (PlayerLogin.tsx:27-43). `outcome` is `None` when `resetPassword`
      succeeds and `Some(message)` when it throws. */
    method HandleResetPassword(outcome: Option<string>)
      modifies this`error, this`success, this`resetEmail, this`resetRequests
      ensures resetRequests == old(resetRequests) + [old(resetEmail)]
      ensures outcome.None? ==>
        && success == Some(ResetEmailSent)
        && error.None? && resetEmail == ""
      ensures outcome.Some? ==>
        && error == Some(OrElse(outcome.value, "Failed to send reset email. Please try again."))
        && success.None? && resetEmail == old(resetEmail)
    {
      error, success := None, None;
      resetRequests := resetRequests + [resetEmail];
      match outcome
      case None =>
        success := Some(ResetEmailSent);
        resetEmail := "";
      case Some(message) =>
        error := Some(OrElse(message, "Failed to send reset email. Please try again."));
    }

    /** `handleSubmit` (PlayerLogin.tsx:45-91). A sign-up whose e-mail still needs confirming
      goes back to sign-in with only the e-mail kept; a user otherwise logs in. An error
      without a message makes the catch block itself throw, so no error is shown. */
    method HandleSubmit(outcome: AuthOutcome)
      modifies this`error, this`success, this`mode, this`form, this`logins
      ensures old(mode) == SignUp && outcome == AuthUser(false) ==>
        && success == Some(AccountCreated)
        && error.None? && mode == SignIn && form == FormData(old(form).email, "", "", "") && logins == old(logins)
      ensures (outcome.AuthUser? && (old(mode) != SignUp || outcome.emailConfirmed)) ==>
        error.None? && success.None? && mode == old(mode) && form == old(form) && logins == old(logins) + 1
      ensures outcome == NoUser ==>
        error.None? && success.None? && mode == old(mode) && form == old(form) && logins == old(logins)
      ensures outcome.AuthError? ==>
        && error == ShownError(outcome.message)
        && success.None? && mode == old(mode) && form == old(form) && logins == old(logins)
    {
      error, success := None, None;
      match outcome
      case AuthUser(confirmed) =>
        if mode == SignUp && !confirmed {
          success := Some(AccountCreated);
          mode := SignIn;
          form := FormData(form.email, "", "", "");
        } else {
          logins := logins + 1;
        }
      case NoUser =>
      case AuthError(message) =>
        error := ShownError(message);
    }

    /** `resetForm` (PlayerLogin.tsx:93-97). */
    method ResetForm()
      modifies this`form, this`error, this`success
      ensures form == EmptyForm && error.None? && success.None?
    {
      form := EmptyForm;
      error, success := None, None;
    }

    /** `switchMode` (PlayerLogin.tsx:99-103): a fresh form, no messages, no reset address. */
    method SwitchMode(newMode: Mode)
      modifies this`mode, this`form, this`error, this`success, this`resetEmail
      ensures mode == newMode && form == EmptyForm && error.None? && success.None? && resetEmail == ""
    {
      mode := newMode;
      ResetForm();
      resetEmail := "";
    }
  }
}
