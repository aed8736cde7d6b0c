/** The new-password check shared by the profile page (PlayerProfile.tsx:100-108) and the
    reset page (PasswordReset.tsx:29-37): the two fields must agree, then be long enough. */
module Passwords {
  import opened Wrappers

  const MinPasswordLength := 6

  /** The first message that applies, or `None` when the password may be sent. */
  function PasswordProblem(newPassword: string, confirmPassword: string): (r: Option<string>)
    ensures r.None? <==> newPassword == confirmPassword && |newPassword| >= MinPasswordLength
    ensures newPassword != confirmPassword ==> r == Some("Passwords do not match")
    ensures newPassword == confirmPassword && |newPassword| < MinPasswordLength ==>
      r == Some("Password must be at least 6 characters long")
  {
    if newPassword != confirmPassword then Some("Passwords do not match")
    else if |newPassword| < MinPasswordLength then Some("Password must be at least 6 characters long")
    else None
  }
}
