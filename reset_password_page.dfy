/** The `handleResetPassword` handler of `ResetPasswordPage.ts`: a check chain over the two bound fields. */
module ResetPasswordPage {
  import opened Wrappers

  const FillAllFields := "Please fill in all fields"
  const PasswordsDoNotMatch := "Passwords do not match"
  const ResetDone := "Password reset successful!"

  /**
   * The emptiness check comes before the comparison; only two equal non-empty values go to
   * `/login`. The handler reads the fields and writes neither, so it is a function of them.
   */
  function HandleResetPassword(newPassword: string, confirmPassword: string): (r: Feedback)
    ensures r.nav == Navigate(["/login"]) <==> newPassword != "" && newPassword == confirmPassword
    ensures r.nav == NoNav <==> !(newPassword != "" && newPassword == confirmPassword)
    ensures newPassword == "" || confirmPassword == "" ==> r.alert == Some(FillAllFields)
    ensures newPassword != "" && confirmPassword != "" && newPassword != confirmPassword ==> r.alert == Some(PasswordsDoNotMatch)
    ensures r.nav.Navigate? ==> r.alert == Some(ResetDone)
  {
    if newPassword == "" || confirmPassword == "" then Feedback(Some(FillAllFields), NoNav)
    else if newPassword != confirmPassword then Feedback(Some(PasswordsDoNotMatch), NoNav)
    else Feedback(Some(ResetDone), Navigate(["/login"]))
  }

  /** Two empty fields are equal but still refused as missing. */
  lemma EmptyBeforeMismatch()
    ensures HandleResetPassword("", "") == Feedback(Some(FillAllFields), NoNav)
  {
  }
}
