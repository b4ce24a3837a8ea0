/** The sign-in form: its schema and what a submit sends. The e-mail
    format test is a parameter. */
module LoginForm {
  import opened Common
  import opened FormRules

  datatype LoginValues = LoginValues(email: string, password: string)

  datatype LoginField = LoginEmail | LoginPassword

  const InitialValues: LoginValues := LoginValues("", "")

  const MinPasswordLength: nat := 6

  /** The fields `loginSchema` rejects. */
  function LoginErrors(v: LoginValues, isEmail: string -> bool): (errs: set<LoginField>)
    ensures LoginEmail in errs <==> v.email == "" || !isEmail(v.email)
    ensures LoginPassword in errs <==> |v.password| < 6
  {
    (if Required(v.email) && EmailFormat(v.email, isEmail) then {} else {LoginEmail})
    + (if Required(v.password) && MinLength(v.password, MinPasswordLength) then {} else {LoginPassword})
  }

  /** The submit handler runs only on values without errors, and then
      forwards them as they are. */
  function Submit(v: LoginValues, isEmail: string -> bool): (sent: Option<LoginValues>)
    ensures sent.Some? <==> v.email != "" && isEmail(v.email) && |v.password| >= 6
    ensures sent.Some? ==> sent.value == v
  {
    if LoginErrors(v, isEmail) == {} then Some(v) else None
  }

  /** The empty initial form cannot be submitted, whatever the format test says. */
  lemma InitialValuesRejected(isEmail: string -> bool)
    ensures LoginErrors(InitialValues, isEmail) == {LoginEmail, LoginPassword}
    ensures Submit(InitialValues, isEmail).None?
  {
  }
}
