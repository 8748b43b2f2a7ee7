/** The registration page (src/app/register/page.tsx): `registerSchema`,
    whose password-confirmation refinement reports on `confirmPassword`
    independently of the other fields, and the payload `onSubmit` sends. The
    redirect of an authenticated visitor is `Forms.GuestOnlyRedirect`. */
module RegisterPage {
  import opened Wrappers
  import opened Forms

  datatype RegisterForm = RegisterForm(contact: Contact, password: string, confirmPassword: string)

  /** What `register` receives: the form without `confirmPassword`. */
  datatype RegisterPayload = RegisterPayload(contact: Contact, password: string)

  /** The form's starting values: only `country` has a default
      (src/app/register/page.tsx:47-49). */
  const InitialRegisterForm := RegisterForm(Contact("", "", "", "", "", "", "", "France"), "", "")

  /** `registerSchema` (src/app/register/page.tsx:16-30). */
  function RegisterErrors(f: RegisterForm, isEmail: string -> bool): (r: set<Field>)
    ensures r * {Password, ConfirmPassword} == {} ==> r == ContactErrors(f.contact, isEmail)
    ensures Password in r <==> |f.password| < PasswordMin
    ensures ConfirmPassword in r <==> f.password != f.confirmPassword
    ensures forall g :: g != Password && g != ConfirmPassword ==> (g in r <==> g in ContactErrors(f.contact, isEmail))
  {
    ContactErrors(f.contact, isEmail)
    + (if |f.password| < PasswordMin then {Password} else {})
    + (if f.password != f.confirmPassword then {ConfirmPassword} else {})
  }

  /** `handleSubmit(onSubmit)` (src/app/register/page.tsx:59-63): the
      payload is sent exactly when the schema reports nothing. */
  function RegisterSubmit(f: RegisterForm, isEmail: string -> bool): (r: Option<RegisterPayload>)
    ensures r.Some? <==> RegisterErrors(f, isEmail) == {}
    ensures r.Some? ==> r.value == RegisterPayload(f.contact, f.password)
  {
    if RegisterErrors(f, isEmail) == {} then Some(RegisterPayload(f.contact, f.password)) else None
  }

  /** An accepted registration's password is the confirmed one and is long
      enough, and every shared field passes. */
  lemma AcceptedRegistration(f: RegisterForm, isEmail: string -> bool)
    requires RegisterSubmit(f, isEmail).Some?
    ensures RegisterSubmit(f, isEmail).value.password == f.confirmPassword
    ensures |RegisterSubmit(f, isEmail).value.password| >= PasswordMin
    ensures ContactErrors(RegisterSubmit(f, isEmail).value.contact, isEmail) == {}
  {
    var r := RegisterErrors(f, isEmail);
    assert Password !in r && ConfirmPassword !in r;
  }

  /** The untouched form fails on every required field but the country, and
      not on the confirmation, since both passwords are still empty. */
  lemma InitialRegisterErrors(isEmail: string -> bool)
    ensures var r := RegisterErrors(InitialRegisterForm, isEmail);
      {FirstName, LastName, Password, Address, City, PostalCode} <= r &&
      Country !in r && ConfirmPassword !in r && Phone !in r
  {
  }

  /** A mismatch is reported whatever else is wrong: the refinement runs
      even when the field rules fail, so fixing the other fields never
      uncovers it late. */
  lemma MismatchAlwaysReported(f: RegisterForm, isEmail: string -> bool)
    requires f.password != f.confirmPassword
    ensures ConfirmPassword in RegisterErrors(f, isEmail)
    ensures RegisterSubmit(f, isEmail).None?
  {
  }
}
