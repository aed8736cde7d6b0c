/** The page a reset link opens (PasswordReset.tsx): it needs a recovery session and sets a new
    password. The session lookup and `updatePassword` are handler parameters. */
module PasswordReset {
  import opened Wrappers
  import opened Passwords

  class ResetScreen {
    var error: Option<string>
    var success: bool
    var newPassword: string
    var confirmPassword: string
    /** Every password handed to `updatePassword`, oldest first. */
    var updates: seq<string>

    constructor ()
      ensures error.None? && !success && newPassword == "" && confirmPassword == "" && updates == []
    {
      error, success := None, false;
      newPassword, confirmPassword, updates := "", "", [];
    }

    /** The mount effect (PasswordReset.tsx:13-22): without a session the link is refused. */
    method CheckSession(hasSession: bool)
      modifies this`error
      ensures error == if hasSession then old(error)
        else Some("Invalid or expired reset link. Please request a new password reset.")
    {
      if !hasSession {
        error := Some("Invalid or expired reset link. Please request a new password reset.");
      }
    }

    /** `handleResetPassword` (PasswordReset.tsx:24-51). `outcome` is `None` when
      `updatePassword` succeeds and `Some(message)` when it throws. */
    method HandleResetPassword(outcome: Option<string>)
      modifies this`error, this`success, this`newPassword, this`confirmPassword, this`updates
      ensures PasswordProblem(old(newPassword), old(confirmPassword)).Some? ==>
        && error == PasswordProblem(old(newPassword), old(confirmPassword)) && !success
        && updates == old(updates)
        && newPassword == old(newPassword) && confirmPassword == old(confirmPassword)
      ensures PasswordProblem(old(newPassword), old(confirmPassword)).None? ==>
        updates == old(updates) + [old(newPassword)]
      ensures PasswordProblem(old(newPassword), old(confirmPassword)).None? && outcome.None? ==>
        success && error.None? && newPassword == "" && confirmPassword == ""
      ensures PasswordProblem(old(newPassword), old(confirmPassword)).None? && outcome.Some? ==>
        && !success && error == Some(OrElse(outcome.value, "Failed to reset password. Please try again."))
        && newPassword == old(newPassword) && confirmPassword == old(confirmPassword)
    {
      error := None;
      success := false;
      var problem := PasswordProblem(newPassword, confirmPassword);
      if problem.Some? {
        error := problem;
        return;
      }
      updates := updates + [newPassword];
      match outcome
      case None =>
        success := true;
        newPassword, confirmPassword := "", "";
      case Some(message) =>
        error := Some(OrElse(message, "Failed to reset password. Please try again."));
    }
  }
}
