/** The field rules the registration and profile schemas share
    (src/app/register/page.tsx:16-30, src/app/profile/page.tsx:16-25) and
    the login schema (src/app/login/page.tsx:16-19). A schema is modelled by
    the set of fields it reports an error on; the form is accepted exactly
    when that set is empty. Lengths are counted in characters. The email
    check is zod's own grammar, which the model takes as a parameter
    `isEmail`. */
module Forms {
  import opened Wrappers
  import opened Types
  import opened Utils

  datatype Field =
    | FirstName | LastName | Email | Password | ConfirmPassword
    | Phone | Address | City | PostalCode | Country

  /** `z.string().regex(/^\d{5}$/)`: exactly five ASCII digits. */
  predicate IsPostalCode(s: string) {
    |s| == 5 && forall i :: 0 <= i < |s| ==> IsAsciiDigit(s[i])
  }

  /** The fields of a customer's contact details, as the forms hold them.
      `phone` is optional and has no rule. */
  datatype Contact = Contact(
    firstName: string,
    lastName: string,
    email: string,
    phone: string,
    address: string,
    city: string,
    postalCode: string,
    country: string)

  /** The minimum lengths of the shared fields. */
  const NameMin := 2
  const AddressMin := 5
  const CityMin := 2
  const CountryMin := 2
  const PasswordMin := 6

  /** The fields of the shared rules that fail. */
  function ContactErrors(c: Contact, isEmail: string -> bool): (r: set<Field>)
    ensures FirstName in r <==> |c.firstName| < NameMin
    ensures LastName in r <==> |c.lastName| < NameMin
    ensures Email in r <==> !isEmail(c.email)
    ensures Address in r <==> |c.address| < AddressMin
    ensures City in r <==> |c.city| < CityMin
    ensures PostalCode in r <==> !IsPostalCode(c.postalCode)
    ensures Country in r <==> |c.country| < CountryMin
    ensures Phone !in r && Password !in r && ConfirmPassword !in r
  {
    (if |c.firstName| < NameMin then {FirstName} else {})
    + (if |c.lastName| < NameMin then {LastName} else {})
    + (if !isEmail(c.email) then {Email} else {})
    + (if |c.address| < AddressMin then {Address} else {})
    + (if |c.city| < CityMin then {City} else {})
    + (if !IsPostalCode(c.postalCode) then {PostalCode} else {})
    + (if |c.country| < CountryMin then {Country} else {})
  }

  /** The effect the login and registration pages share
      (src/app/login/page.tsx:37-42, src/app/register/page.tsx:52-57): an
      authenticated visitor is sent to `/`. */
  function GuestOnlyRedirect(isAuthenticated: bool): (r: Option<Route>)
    ensures r.Some? <==> isAuthenticated
    ensures r.Some? ==> r.value == HomeRoute
  {
    if isAuthenticated then Some(HomeRoute) else None
  }

  /** The login schema's fields. */
  datatype Credentials = Credentials(email: string, password: string)

  /** `loginSchema` (src/app/login/page.tsx:16-19). */
  function LoginErrors(f: Credentials, isEmail: string -> bool): (r: set<Field>)
    ensures Email in r <==> !isEmail(f.email)
    ensures Password in r <==> |f.password| < PasswordMin
    ensures r <= {Email, Password}
  {
    (if !isEmail(f.email) then {Email} else {})
    + (if |f.password| < PasswordMin then {Password} else {})
  }
}
