/** The `createAccount` handler of `SignUpPage.ts`: a check chain over the form values, no account is stored. */
module SignUpPage {
  import opened Wrappers

  const FillAllFields := "Please fill in all fields"
  const AcceptTerms := "Please accept the Terms & Conditions"
  const AccountCreated := "Account created successfully!"

  /**
   * The field check comes first and tests emptiness only (`!value`, no trim); the terms check
   * comes second; only a form that passes both moves on to `/login`.
   */
  function CreateAccount(name: string, email: string, password: string, termsAccepted: bool): (r: Feedback)
    ensures r.nav == Navigate(["/login"]) <==> name != "" && email != "" && password != "" && termsAccepted
    ensures r.nav.Navigate? ==> r.nav == Navigate(["/login"]) && r.alert == Some(AccountCreated)
    ensures (name == "" || email == "" || password == "") ==> r == Feedback(Some(FillAllFields), NoNav)
    ensures name != "" && email != "" && password != "" && !termsAccepted ==> r == Feedback(Some(AcceptTerms), NoNav)
  {
    if name == "" || email == "" || password == "" then Feedback(Some(FillAllFields), NoNav)
    else if !termsAccepted then Feedback(Some(AcceptTerms), NoNav)
    else Feedback(Some(AccountCreated), Navigate(["/login"]))
  }

  /** Missing fields are reported even when the terms are not accepted either. */
  lemma FieldCheckFirst(email: string, password: string)
    ensures CreateAccount("", email, password, false).alert == Some(FillAllFields)
  {
  }

  /** A value made of spaces is not empty: such a form is accepted. */
  lemma BlankFieldsAccepted()
    ensures CreateAccount(" ", " ", " ", true).nav == Navigate(["/login"])
  {
  }
}
