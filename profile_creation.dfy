/**
 * The profile-completion page (src/pages/ProfileCreationPage.tsx): the form schema,
 * the test for an already complete profile, the prefill from the stored row and the
 * update written back on submit.
 */
module ProfileCreation {
  import opened Common
  import AuthPage

  /** The form's values (`ProfileFormValues`). */
  datatype ProfileValues = ProfileValues(
    firstName: string, lastName: string, avatarUrl: string,
    emergencyContactName: string, emergencyContactPhone: string,
    healthcareProviderName: string, healthcareProviderPhone: string)

  /** A `profiles` row; every column may be null. */
  datatype ProfileRow = ProfileRow(
    first_name: Option<string>, last_name: Option<string>, avatar_url: Option<string>,
    emergency_contact_name: Option<string>, emergency_contact_phone: Option<string>,
    healthcare_provider_name: Option<string>, healthcare_provider_phone: Option<string>)

  /** The columns written by the update. */
  datatype ProfileUpdate = ProfileUpdate(
    first_name: string, last_name: string, avatar_url: string,
    emergency_contact_name: string, emergency_contact_phone: string,
    healthcare_provider_name: string, healthcare_provider_phone: string, updated_at: string)

  type Errors = map<string, string>

  const FirstNameRequired := "First name is required"
  const LastNameRequired := "Last name is required"
  const ContactNameRequired := "Emergency contact name is required"
  const ProviderNameRequired := "Healthcare provider name is required"
  const PhoneRequired := "Valid phone number is required"

  /** One `min` rule of the schema: the field's message when it is shorter than `min`. */
  function Rule(e: Errors, key: string, value: string, min: nat, message: string): Errors {
    if |value| < min then e[key := message] else e
  }

  /**
   * The messages `profileSchema` reports, keyed by field: names need one character,
   * phone numbers six, and the avatar URL is unconstrained. Nothing is trimmed.
   */
  function SchemaErrors(v: ProfileValues): (e: Errors)
    ensures "avatarUrl" !in e
    ensures "firstName" in e <==> v.firstName == ""
    ensures "lastName" in e <==> v.lastName == ""
    ensures "emergencyContactName" in e <==> v.emergencyContactName == ""
    ensures "emergencyContactPhone" in e <==> |v.emergencyContactPhone| < 6
    ensures "healthcareProviderName" in e <==> v.healthcareProviderName == ""
    ensures "healthcareProviderPhone" in e <==> |v.healthcareProviderPhone| < 6
    ensures "firstName" in e ==> e["firstName"] == FirstNameRequired
    ensures "lastName" in e ==> e["lastName"] == LastNameRequired
    ensures "emergencyContactName" in e ==> e["emergencyContactName"] == ContactNameRequired
    ensures "emergencyContactPhone" in e ==> e["emergencyContactPhone"] == PhoneRequired
    ensures "healthcareProviderName" in e ==> e["healthcareProviderName"] == ProviderNameRequired
    ensures "healthcareProviderPhone" in e ==> e["healthcareProviderPhone"] == PhoneRequired
  {
    var e1 := Rule(map[], "firstName", v.firstName, 1, FirstNameRequired);
    var e2 := Rule(e1, "lastName", v.lastName, 1, LastNameRequired);
    var e3 := Rule(e2, "emergencyContactName", v.emergencyContactName, 1, ContactNameRequired);
    var e4 := Rule(e3, "emergencyContactPhone", v.emergencyContactPhone, 6, PhoneRequired);
    var e5 := Rule(e4, "healthcareProviderName", v.healthcareProviderName, 1, ProviderNameRequired);
    Rule(e5, "healthcareProviderPhone", v.healthcareProviderPhone, 6, PhoneRequired)
  }

  /** The values pass the schema exactly when no rule reports. */
  lemma SchemaValidIff(v: ProfileValues)
    ensures SchemaErrors(v) == map[] <==>
            v.firstName != "" && v.lastName != "" && v.emergencyContactName != "" && v.healthcareProviderName != ""
            && |v.emergencyContactPhone| >= 6 && |v.healthcareProviderPhone| >= 6
  {
    var e := SchemaErrors(v);
    if v.firstName != "" && v.lastName != "" && v.emergencyContactName != "" && v.healthcareProviderName != ""
       && |v.emergencyContactPhone| >= 6 && |v.healthcareProviderPhone| >= 6 {
      assert e.Keys == {};
    }
  }

  /**
   * The test that sends a user with a finished profile home: a name, a contact and a
   * provider. In terms of the form it would prefill: a first or last name is filled in,
   * and the emergency contact and provider names pass their schema rules.
   */
  function ProfileComplete(row: ProfileRow): (b: bool)
    ensures var v := PrefillValues(row);
            b <==> (v.firstName != "" || v.lastName != "") && v.emergencyContactName != "" && v.healthcareProviderName != ""
    ensures var e := SchemaErrors(PrefillValues(row));
            b ==> "emergencyContactName" !in e && "healthcareProviderName" !in e
  {
    (Truthy(row.first_name) || Truthy(row.last_name))
    && Truthy(row.emergency_contact_name) && Truthy(row.healthcare_provider_name)
  }

  /** `form.reset(...)`: every null or empty column becomes "". */
  function PrefillValues(row: ProfileRow): (v: ProfileValues)
    ensures v.firstName == OrEmpty(row.first_name) && v.lastName == OrEmpty(row.last_name)
    ensures v.avatarUrl == OrEmpty(row.avatar_url)
    ensures v.emergencyContactName == OrEmpty(row.emergency_contact_name)
    ensures v.emergencyContactPhone == OrEmpty(row.emergency_contact_phone)
    ensures v.healthcareProviderName == OrEmpty(row.healthcare_provider_name)
    ensures v.healthcareProviderPhone == OrEmpty(row.healthcare_provider_phone)
  {
    ProfileValues(OrEmpty(row.first_name), OrEmpty(row.last_name), OrEmpty(row.avatar_url),
                  OrEmpty(row.emergency_contact_name), OrEmpty(row.emergency_contact_phone),
                  OrEmpty(row.healthcare_provider_name), OrEmpty(row.healthcare_provider_phone))
  }

  /** The update of `onSubmit`: each form field under its snake_case column, stamped with the time. */
  function UpdateFor(v: ProfileValues, nowIso: string): (u: ProfileUpdate)
    ensures u.first_name == v.firstName && u.last_name == v.lastName && u.avatar_url == v.avatarUrl
    ensures u.emergency_contact_name == v.emergencyContactName && u.emergency_contact_phone == v.emergencyContactPhone
    ensures u.healthcare_provider_name == v.healthcareProviderName && u.healthcare_provider_phone == v.healthcareProviderPhone
    ensures u.updated_at == nowIso
  {
    ProfileUpdate(v.firstName, v.lastName, v.avatarUrl, v.emergencyContactName, v.emergencyContactPhone,
                  v.healthcareProviderName, v.healthcareProviderPhone, nowIso)
  }

  /** The row as it reads back after the update. */
  function Applied(u: ProfileUpdate): ProfileRow {
    ProfileRow(Some(u.first_name), Some(u.last_name), Some(u.avatar_url),
               Some(u.emergency_contact_name), Some(u.emergency_contact_phone),
               Some(u.healthcare_provider_name), Some(u.healthcare_provider_phone))
  }

  /** Coming back to the page after saving prefills the form with exactly the saved values. */
  lemma PrefillRoundTrip(v: ProfileValues, nowIso: string)
    ensures PrefillValues(Applied(UpdateFor(v, nowIso))) == v
  {
  }

  /** Values that pass the schema make a complete profile once saved. */
  lemma SavedProfileComplete(v: ProfileValues, nowIso: string)
    requires SchemaErrors(v) == map[]
    ensures ProfileComplete(Applied(UpdateFor(v, nowIso)))
  {
    assert "firstName" !in SchemaErrors(v);
  }

  /** A complete profile also sends a freshly signed-in user home rather than to this page. */
  lemma CompleteRoutesHome(row: ProfileRow)
    requires ProfileComplete(row)
    ensures AuthPage.PostLoginRoute(AuthPage.NameRow(row.first_name, row.last_name)) == AuthPage.Home
  {
  }

  /**
   * The two pages disagree: a row with a first name but no emergency contact is sent home
   * after sign-in although this page would not count it as complete.
   */
  lemma HomeWithoutCompleteProfile()
    ensures var row := ProfileRow(Some("Ann"), None, None, None, None, Some("Dr Lee"), None);
            !ProfileComplete(row) && AuthPage.PostLoginRoute(AuthPage.NameRow(row.first_name, row.last_name)) == AuthPage.Home
  {
  }

  /** What the profile query returns when the page opens. */
  datatype ProfileQuery = QueryFailed | Found(row: ProfileRow)

  /** The effect of the page's mount: whether it sends the user to sign in or home, and the values it prefills. */
  datatype CheckOutcome = CheckOutcome(navigateAuth: bool, navigateHome: bool, prefill: Option<ProfileValues>)

  /**
   * The mount effect: without a user, straight to "/auth" and no query. Otherwise
   * `checkProfile`: nothing on a query error; home when the profile is complete, and
   * the form prefilled in every successful case.
   */
  function CheckProfile(signedIn: bool, q: ProfileQuery): (o: CheckOutcome)
    ensures o.navigateAuth <==> !signedIn
    ensures o.navigateHome <==> signedIn && q.Found? && ProfileComplete(q.row)
    ensures o.prefill.Some? <==> signedIn && q.Found?
    ensures signedIn && q.Found? ==> o.prefill == Some(PrefillValues(q.row))
  {
    if !signedIn then CheckOutcome(true, false, None)
    else
      match q
      case QueryFailed => CheckOutcome(false, false, None)
      case Found(row) => CheckOutcome(false, ProfileComplete(row), Some(PrefillValues(row)))
  }

  /** The effect of submitting the form. */
  datatype SubmitOutcome = Rejected(errors: Errors) | NoUser | Saved(update: ProfileUpdate)

  /**
   * Submitting: the schema resolver reports the errors and withholds the call; `onSubmit`
   * then does nothing without a user and otherwise writes the update.
   */
  function Submit(v: ProfileValues, signedIn: bool, nowIso: string): (o: SubmitOutcome)
    ensures o.Rejected? <==> SchemaErrors(v) != map[]
    ensures o.Rejected? ==> o.errors == SchemaErrors(v)
    ensures o.Saved? <==> SchemaErrors(v) == map[] && signedIn
    ensures o.Saved? ==> o.update == UpdateFor(v, nowIso) && ProfileComplete(Applied(o.update))
  {
    if SchemaErrors(v) != map[] then Rejected(SchemaErrors(v))
    else if !signedIn then NoUser
    else
      SavedProfileComplete(v, nowIso);
      Saved(UpdateFor(v, nowIso))
  }
}
