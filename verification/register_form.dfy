/** The sign-up form: its schema and what a submit sends. The e-mail
    format test is a parameter. */
module RegisterForm {
  import opened Common
  import opened FormRules
  import LoginForm

  datatype RegisterValues = RegisterValues(name: string, email: string, password: string,
                                           confirmPassword: string, agreeTerms: bool)

  /** The payload of the registration request. */
  datatype UserData = UserData(name: string, email: string, password: string)

  datatype RegisterField = NameField | EmailField | PasswordField | ConfirmPasswordField | AgreeTermsField

  const InitialValues: RegisterValues := RegisterValues("", "", "", "", false)

  const MinNameLength: nat := 2
  const MaxNameLength: nat := 50
  const MinPasswordLength: nat := 8

  /** Whether `registerSchema` rejects field `f` of `v`. */
  predicate FieldFails(v: RegisterValues, f: RegisterField, isEmail: string -> bool) {
    match f
    case NameField =>
      !(Required(v.name) && MinLength(v.name, MinNameLength) && MaxLength(v.name, MaxNameLength))
    case EmailField => !(Required(v.email) && EmailFormat(v.email, isEmail))
    case PasswordField =>
      !(Required(v.password) && MinLength(v.password, MinPasswordLength) && MixedClasses(v.password))
    case ConfirmPasswordField => !(Required(v.confirmPassword) && v.confirmPassword == v.password)
    case AgreeTermsField => !v.agreeTerms
  }

  /** The fields `registerSchema` rejects. */
  function RegisterErrors(v: RegisterValues, isEmail: string -> bool): (errs: set<RegisterField>)
    ensures NameField in errs <==> !(2 <= |v.name| <= 50)
    ensures EmailField in errs <==> v.email == "" || !isEmail(v.email)
    ensures PasswordField in errs <==>
              |v.password| < 8 || !HasLower(FirstLine(v.password)) || !HasUpper(FirstLine(v.password))
              || !HasDigit(FirstLine(v.password))
    ensures ConfirmPasswordField in errs <==> v.confirmPassword == "" || v.confirmPassword != v.password
    ensures AgreeTermsField in errs <==> !v.agreeTerms
  {
    set f | f in {NameField, EmailField, PasswordField, ConfirmPasswordField, AgreeTermsField}
              && FieldFails(v, f, isEmail)
  }

  /** The submit handler runs only on values without errors, and sends the
      name, e-mail and password, dropping the confirmation and the consent. */
  function Submit(v: RegisterValues, isEmail: string -> bool): (sent: Option<UserData>)
    ensures sent.Some? <==> RegisterErrors(v, isEmail) == {}
    ensures sent.Some? ==> sent.value.name == v.name && sent.value.email == v.email
                           && sent.value.password == v.password
  {
    if RegisterErrors(v, isEmail) == {} then Some(UserData(v.name, v.email, v.password)) else None
  }

  /** A submitted registration carries a confirmed password and a name of
      two to fifty characters. */
  lemma SubmittedRegistration(v: RegisterValues, isEmail: string -> bool)
    requires Submit(v, isEmail).Some?
    ensures v.confirmPassword == v.password && v.agreeTerms
    ensures 2 <= |Submit(v, isEmail).value.name| <= 50
    ensures |Submit(v, isEmail).value.password| >= 8
  {
    assert ConfirmPasswordField !in RegisterErrors(v, isEmail);
    assert AgreeTermsField !in RegisterErrors(v, isEmail);
    assert NameField !in RegisterErrors(v, isEmail);
    assert PasswordField !in RegisterErrors(v, isEmail);
  }

  /** The credentials of a submitted registration pass the sign-in form. */
  lemma RegisteredCredentialsSignIn(v: RegisterValues, isEmail: string -> bool)
    requires Submit(v, isEmail).Some?
    ensures var u := Submit(v, isEmail).value;
            LoginForm.Submit(LoginForm.LoginValues(u.email, u.password), isEmail)
              == Some(LoginForm.LoginValues(u.email, u.password))
  {
    assert EmailField !in RegisterErrors(v, isEmail);
    assert PasswordField !in RegisterErrors(v, isEmail);
  }

  /** The empty initial form fails every field, whatever the format test says. */
  lemma InitialValuesRejected(isEmail: string -> bool)
    ensures RegisterErrors(InitialValues, isEmail)
              == {NameField, EmailField, PasswordField, ConfirmPasswordField, AgreeTermsField}
    ensures Submit(InitialValues, isEmail).None?
  {
    var errs := RegisterErrors(InitialValues, isEmail);
    assert NameField in errs && EmailField in errs && PasswordField in errs;
    assert ConfirmPasswordField in errs && AgreeTermsField in errs;
    forall f | f in errs
      ensures f in {NameField, EmailField, PasswordField, ConfirmPasswordField, AgreeTermsField}
    {
    }
  }
}
