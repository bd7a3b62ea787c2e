/** The login and signup forms (`Login`): presence checks, then the password match. */
module Login {
  import opened Ui

  const MissingCredentials := "이메일과 비밀번호를 입력해주세요"
  const FillAllFields := "모든 필드를 입력해주세요"
  const PasswordMismatch := "비밀번호가 일치하지 않습니다"
  const DashboardPath := "/dashboard"

  /** `handleLogin`: fails exactly when a field is the empty string; otherwise goes to the dashboard. */
  function HandleLogin(email: string, password: string): (r: Outcome)
    ensures r.Error? <==> email == "" || password == ""
    ensures r.Error? ==> r.message == MissingCredentials
    ensures r.Navigate? ==> r.path == DashboardPath
  {
    if email == "" || password == "" then Error(MissingCredentials) else Navigate(DashboardPath)
  }

  /**
   * `handleSignup`: name, email and password must be non-empty (the
   * confirmation is not part of that check); then the password must equal
   * its confirmation; then the dashboard.
   */
  function HandleSignup(name: string, email: string, password: string, confirm: string): (r: Outcome)
    ensures r == Error(FillAllFields) <==> name == "" || email == "" || password == ""
    ensures r == Error(PasswordMismatch) <==> name != "" && email != "" && password != "" && password != confirm
    ensures r.Navigate? <==> name != "" && email != "" && password != "" && password == confirm
    ensures r.Navigate? ==> r.path == DashboardPath
  {
    if name == "" || email == "" || password == "" then Error(FillAllFields)
    else if password != confirm then Error(PasswordMismatch)
    else Navigate(DashboardPath)
  }

  /** Nothing is trimmed: white-space credentials log in. */
  lemma BlankCredentialsLogIn()
    ensures HandleLogin(" ", " ") == Navigate(DashboardPath)
  {
  }

  /** An empty confirmation is reported as a mismatch, not as a missing field. */
  lemma EmptyConfirmationIsMismatch(name: string, email: string, password: string)
    requires name != "" && email != "" && password != ""
    ensures HandleSignup(name, email, password, "") == Error(PasswordMismatch)
  {
  }
}
