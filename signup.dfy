/**
 * The sign-up page (src/app/signup/page.tsx): the form's field rules, what
 * a submit does with the outcome of account creation, and the text shown
 * for each failure. Account creation is an input: the user it returned, or
 * the error code it threw. Whether an email address is well formed is
 * decided by the form library and is passed in.
 */
module SignUp {
  import opened Wrappers

  const MinUsernameLength := 2
  const MinPasswordLength := 6

  const UsernameTooShort := "Username must be at least 2 characters."
  const EmailMalformed := "Please enter a valid email."
  const PasswordTooShort := "Password must be at least 6 characters."

  const EmailInUseMessage := "This email is already in use. Please log in or use a different email."
  const WeakPasswordMessage := "The password is too weak. Please use at least 6 characters."
  const InvalidEmailMessage := "Please enter a valid email address."
  const OtherCodeMessage := "An error occurred during sign up. Please try again."
  const UnexpectedMessage := "An unexpected error occurred."

  datatype SignUpValues = SignUpValues(username: string, email: string, password: string)

  datatype Field = Username | Email | Password

  /** The message shown under each field that fails `formSchema`; the form submits only when there is none. */
  function FormErrors(v: SignUpValues, emailWellFormed: bool): (r: map<Field, string>)
    ensures Username in r <==> |v.username| < 2
    ensures Email in r <==> !emailWellFormed
    ensures Password in r <==> |v.password| < 6
    ensures r == map[] <==> |v.username| >= 2 && emailWellFormed && |v.password| >= 6
    ensures Username in r ==> r[Username] == UsernameTooShort
    ensures Email in r ==> r[Email] == EmailMalformed
    ensures Password in r ==> r[Password] == PasswordTooShort
  {
    var u := if |v.username| < MinUsernameLength then map[Username := UsernameTooShort] else map[];
    var e := if emailWellFormed then map[] else map[Email := EmailMalformed];
    var p := if |v.password| < MinPasswordLength then map[Password := PasswordTooShort] else map[];
    var r := u + e + p;
    assert Username in u ==> Username in r;
    assert Email in e ==> Email in r;
    assert Password in p ==> Password in r;
    r
  }

  /**
   * The description of the failure notice. `if (error.code)` treats an
   * absent code and the empty code alike.
   */
  function SignUpErrorMessage(code: Option<string>): (r: string)
    ensures code == Some("auth/email-already-in-use") ==> r == EmailInUseMessage
    ensures code == Some("auth/weak-password") ==> r == WeakPasswordMessage
    ensures code == Some("auth/invalid-email") ==> r == InvalidEmailMessage
    ensures code.None? || code == Some("") ==> r == UnexpectedMessage
    ensures code.Some? && code.value != "" && code.value !in KnownCodes ==> r == OtherCodeMessage
  {
    match code
    case None => UnexpectedMessage
    case Some(c) =>
      if c == "" then UnexpectedMessage
      else if c == "auth/email-already-in-use" then EmailInUseMessage
      else if c == "auth/weak-password" then WeakPasswordMessage
      else if c == "auth/invalid-email" then InvalidEmailMessage
      else OtherCodeMessage
  }

  const KnownCodes := {"auth/email-already-in-use", "auth/weak-password", "auth/invalid-email"}

  /** Each recognised code has a notice no other error gets, so the user can tell the cases apart. */
  lemma KnownCodesHaveOwnNotice(known: string, other: Option<string>)
    requires known in KnownCodes && other != Some(known)
    ensures SignUpErrorMessage(other) != SignUpErrorMessage(Some(known))
  {
  }

  /** What account creation did: returned a credential (whose user may be absent), or threw. */
  datatype AccountCreation = Created(uid: Option<string>) | Threw(code: Option<string>)

  datatype Toast = Toast(destructive: bool, title: string, description: string)

  /** A merge write of the profile document at `users/<uid>`. */
  datatype ProfileWrite = ProfileWrite(path: seq<string>, username: string, email: string, id: string, merge: bool)

  datatype SubmitEffects = SubmitEffects(profile: Option<ProfileWrite>, toast: Toast, navigateTo: Option<string>)

  /** `onSubmit`: on success, the profile write (when a user came back), a success notice and the home page; on failure, a failure notice. */
  function OnSubmit(v: SignUpValues, creation: AccountCreation): (r: SubmitEffects)
    ensures r.profile.Some? <==> creation.Created? && creation.uid.Some?
    ensures r.profile.Some? ==>
      r.profile.value == ProfileWrite(["users", creation.uid.value], v.username, v.email, creation.uid.value, true)
    ensures r.navigateTo.Some? <==> creation.Created?
    ensures r.navigateTo.Some? ==> r.navigateTo.value == "/"
    ensures r.toast.destructive <==> creation.Threw?
    ensures creation.Threw? ==> r.toast == Toast(true, "Sign Up Failed", SignUpErrorMessage(creation.code))
  {
    match creation
    case Created(uid) =>
      var profile :=
        if uid.Some? then Some(ProfileWrite(["users", uid.value], v.username, v.email, uid.value, true))
        else None;
      SubmitEffects(profile, Toast(false, "Sign Up Successful", "Your account has been created."), Some("/"))
    case Threw(code) =>
      SubmitEffects(None, Toast(true, "Sign Up Failed", SignUpErrorMessage(code)), None)
  }

  /** What a press of "Create an account" does: the form's field errors, or the effects of `onSubmit`. */
  datatype FormSubmission = Invalid(errors: map<Field, string>) | Submitted(effects: SubmitEffects)

  /**
   * `form.handleSubmit(onSubmit)`: `onSubmit`, and with it account
   * creation, runs only when every field passes; otherwise the field errors
   * are shown and nothing else happens.
   */
  function HandleSubmit(v: SignUpValues, emailWellFormed: bool, creation: AccountCreation): (r: FormSubmission)
    ensures r.Invalid? <==> |v.username| < 2 || !emailWellFormed || |v.password| < 6
    ensures r.Invalid? ==> r.errors == FormErrors(v, emailWellFormed) && r.errors != map[]
    ensures r.Submitted? ==> r.effects == OnSubmit(v, creation)
  {
    var errors := FormErrors(v, emailWellFormed);
    if errors != map[] then Invalid(errors) else Submitted(OnSubmit(v, creation))
  }

  /** A username or password that is too short creates no account, writes no profile and navigates nowhere. */
  lemma ShortCredentialsSubmitNothing(v: SignUpValues, emailWellFormed: bool, creation: AccountCreation)
    requires |v.username| < 2 || |v.password| < 6
    ensures HandleSubmit(v, emailWellFormed, creation).Invalid?
    ensures |v.username| < 2 ==> HandleSubmit(v, emailWellFormed, creation).errors[Username] == UsernameTooShort
    ensures |v.password| < 6 ==> HandleSubmit(v, emailWellFormed, creation).errors[Password] == PasswordTooShort
  {
  }
}
