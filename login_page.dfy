/** The login page (src/app/login/page.tsx): `loginSchema` and the data
    `onSubmit` forwards. The redirect of an authenticated visitor is
    `Forms.GuestOnlyRedirect`. */
module LoginPage {
  import opened Wrappers
  import opened Forms
  import opened RegisterPage

  /** `handleSubmit(onSubmit)` (src/app/login/page.tsx:44-46): valid data
      is forwarded to `login` unchanged. */
  function LoginSubmit(f: Credentials, isEmail: string -> bool): (r: Option<Credentials>)
    ensures r.Some? <==> isEmail(f.email) && |f.password| >= PasswordMin
    ensures r.Some? ==> r.value == f
  {
    if LoginErrors(f, isEmail) == {} then Some(f) else None
  }

  /** The login schema is the registration schema restricted to the email
      and the password. */
  lemma LoginIsRegisterRestricted(f: RegisterForm, isEmail: string -> bool)
    ensures LoginErrors(Credentials(f.contact.email, f.password), isEmail) == RegisterErrors(f, isEmail) * {Email, Password}
  {
  }

  /** Credentials that registration accepted are always accepted by the
      login form. */
  lemma RegisteredCredentialsPass(f: RegisterForm, isEmail: string -> bool)
    requires RegisterSubmit(f, isEmail).Some?
    ensures LoginSubmit(Credentials(f.contact.email, f.password), isEmail) == Some(Credentials(f.contact.email, f.password))
  {
    LoginIsRegisterRestricted(f, isEmail);
  }
}
