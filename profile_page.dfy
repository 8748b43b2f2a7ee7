/** The profile page (src/app/profile/page.tsx): `profileSchema`, which is
    the registration schema without the password fields, the form filled
    from the loaded profile, and the edit mode that `onSubmit` and
    `handleCancel` leave. */
module ProfilePage {
  import opened Wrappers
  import opened Types
  import opened Forms
  import opened RegisterPage

  /** `profileSchema` (src/app/profile/page.tsx:16-25). */
  function ProfileErrors(c: Contact, isEmail: string -> bool): (r: set<Field>)
    ensures Password !in r && ConfirmPassword !in r
    ensures forall f :: f in r <==> f in ContactErrors(c, isEmail)
  {
    ContactErrors(c, isEmail)
  }

  /** The profile schema is the registration schema without the password
      and its confirmation. */
  lemma ProfileIsRegisterWithoutPasswords(f: RegisterForm, isEmail: string -> bool)
    ensures ProfileErrors(f.contact, isEmail) == RegisterErrors(f, isEmail) - {Password, ConfirmPassword}
  {
  }

  /** The values `reset` receives from a loaded profile
      (src/app/profile/page.tsx:53-62, 76-85): field for field, with a
      missing phone read as the empty string. */
  function FormOf(c: Customer): (f: Contact)
    ensures f.firstName == c.firstName && f.lastName == c.lastName && f.email == c.email
    ensures f.address == c.address && f.city == c.city && f.postalCode == c.postalCode && f.country == c.country
    ensures c.phone.None? ==> f.phone == ""
    ensures c.phone.Some? ==> f.phone == c.phone.value
  {
    Contact(c.firstName, c.lastName, c.email, c.phone.GetOr(""), c.address, c.city, c.postalCode, c.country)
  }

  /** A profile is accepted back unchanged exactly when the schema accepts
      its stored details: the phone plays no part. */
  lemma ReloadedProfileErrors(c: Customer, isEmail: string -> bool)
    ensures ProfileErrors(FormOf(c), isEmail) ==
      ContactErrors(Contact(c.firstName, c.lastName, c.email, "", c.address, c.city, c.postalCode, c.country), isEmail)
  {
  }

  /** The role shown under the title (src/app/profile/page.tsx:116, 230):
      no user reads as a customer. */
  function RoleLabel(user: Option<User>): (r: string)
    ensures r == "Administrateur" <==> user.Some? && user.value.role == AdminRole
    ensures r != "Administrateur" ==> r == "Client"
  {
    if user.Some? && user.value.role == AdminRole then "Administrateur" else "Client"
  }

  /** The page sends an unauthenticated visitor to the login page
      (src/app/profile/page.tsx:45-49). */
  function ProfileRedirect(isAuthenticated: bool): (r: Option<Route>)
    ensures r.Some? <==> !isAuthenticated
    ensures r.Some? ==> r.value == LoginRoute
  {
    if isAuthenticated then None else Some(LoginRoute)
  }

  /** The page's state: the edit mode and the form's values, which are
      unset until a profile has been loaded. */
  class Profile {
    var isEditing: bool
    var form: Option<Contact>

    /** `useState(false)` and a form without default values
        (src/app/profile/page.tsx:30, 36-43). */
    constructor ()
      ensures !isEditing && form == None
    {
      isEditing := false;
      form := None;
    }

    /** The effect that fills the form when the profile arrives
        (src/app/profile/page.tsx:51-64). */
    method OnProfile(profile: Option<Customer>)
      modifies this
      ensures profile.Some? ==> form == Some(FormOf(profile.value))
      ensures profile.None? ==> form == old(form)
      ensures isEditing == old(isEditing)
    {
      if profile.Some? {
        form := Some(FormOf(profile.value));
      }
    }

    /** The "Modifier" button (src/app/profile/page.tsx:121-123). */
    method Edit()
      modifies this
      ensures isEditing && form == old(form)
    {
      isEditing := true;
    }

    /** Typing into the inputs, which are disabled outside edit mode
        (src/app/profile/page.tsx:153-213). */
    method Input(values: Contact)
      requires isEditing
      modifies this
      ensures isEditing && form == Some(values)
    {
      form := Some(values);
    }

    /** `handleCancel` (src/app/profile/page.tsx:74-88): restore the loaded
        profile's values, if any, and leave edit mode. */
    method Cancel(profile: Option<Customer>)
      modifies this
      ensures !isEditing
      ensures profile.Some? ==> form == Some(FormOf(profile.value))
      ensures profile.None? ==> form == old(form)
    {
      if profile.Some? {
        form := Some(FormOf(profile.value));
      }
      isEditing := false;
    }

    /** `handleSubmit(onSubmit)` (src/app/profile/page.tsx:66-72): the
        values are sent when the schema accepts them, and edit mode is left
        only when the update succeeds (`updated`, the service's answer). */
    method Submit(isEmail: string -> bool, updated: bool) returns (sent: Option<Contact>)
      modifies this
      ensures form == old(form)
      ensures sent.Some? <==> old(form).Some? && ProfileErrors(old(form).value, isEmail) == {}
      ensures sent.Some? ==> sent == old(form)
      ensures isEditing == (old(isEditing) && !(sent.Some? && updated))
    {
      sent := None;
      if form.Some? && ProfileErrors(form.value, isEmail) == {} {
        sent := form;
        if updated {
          isEditing := false;
        }
      }
    }
  }
}
