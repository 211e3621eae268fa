/** The earlier login form: no field validation, a faculty claim demanded of
    every user and stored before the role is looked at, roles accepted as
    numbers or strings, and every failure after the token is read reported
    under one message. */
module PublicAuthForm {
  import opened Common
  import AuthForm

  datatype Form = Form(username: string, email: string, password: string)

  /** The form's state: its fields and the error on display. */
  datatype FormState = FormState(form: Form, error: string)

  datatype Field = Username | Email | Password

  /** `handleChange`: writes one field; the error on display stays. */
  function HandleChange(st: FormState, field: Field, value: string): (r: FormState)
    ensures r.error == st.error
    ensures field == Username ==> r.form == st.form.(username := value)
    ensures field == Email ==> r.form == st.form.(email := value)
    ensures field == Password ==> r.form == st.form.(password := value)
  {
    var f := match field
      case Username => st.form.(username := value)
      case Email => st.form.(email := value)
      case Password => st.form.(password := value);
    FormState(f, st.error)
  }

  /** The role values that open the student dashboard. */
  predicate StudentRole(role: JsVal)
  {
    role == Num(1) || role == Str("1") || role == Str("student")
  }

  /** The role values that open the admin dashboard. */
  predicate AdminRole(role: JsVal)
  {
    role == Num(3) || role == Str("3") || role == Str("admin")
  }

  const TokenFailure := "Failed to process authentication token"

  datatype Outcome = ToStudent | ToAdmin | Failed(message: string) | AuthFailed

  /** The outcome, and the faculty id written to storage on the way, if any. */
  datatype Submit = Submit(storedFaculty: Option<JsVal>, outcome: Outcome)

  /** `handleSubmit`. A failed authentication shows the service's message; no
      token shows "No token received after login"; an undecodable token, a
      missing `faculty` claim or an unknown role all show the token failure
      message. The faculty claim is stored before the role is checked, so it
      stays stored when the role is then refused. */
  function HandleSubmit(authSucceeded: bool, token: StoredToken): (r: Submit)
    ensures !authSucceeded ==> r == Submit(None, AuthFailed)
    ensures authSucceeded && token.NoToken? ==> r == Submit(None, Failed("No token received after login"))
    ensures authSucceeded && token.Undecodable? ==> r == Submit(None, Failed(TokenFailure))
    ensures r.storedFaculty.Some? <==> authSucceeded && token.Decoded? && Truthy(token.claims.faculty)
    ensures r.storedFaculty.Some? ==> r.storedFaculty.value == token.claims.faculty
    ensures r.outcome == ToStudent <==>
      authSucceeded && token.Decoded? && Truthy(token.claims.faculty) && StudentRole(AuthForm.RoleOf(token.claims))
    ensures r.outcome == ToAdmin <==>
      authSucceeded && token.Decoded? && Truthy(token.claims.faculty) && AdminRole(AuthForm.RoleOf(token.claims))
    ensures authSucceeded && token.Decoded? && (r.outcome.Failed? || r.outcome.AuthFailed?) ==>
      r.outcome == Failed(TokenFailure)
  {
    if !authSucceeded then Submit(None, AuthFailed)
    else
      match token
      case NoToken => Submit(None, Failed("No token received after login"))
      case Undecodable => Submit(None, Failed(TokenFailure))
      case Decoded(c) =>
        if !Truthy(c.faculty) then Submit(None, Failed(TokenFailure))
        else
          var role := AuthForm.RoleOf(c);
          var outcome := if StudentRole(role) then ToStudent else if AdminRole(role) then ToAdmin else Failed(TokenFailure);
          Submit(Some(c.faculty), outcome)
  }

  /** A student whose role claim is the string "1" reaches the student
      dashboard here and is turned away by the newer form. */
  lemma StringStudentRoleDiffers(c: Claims)
    requires c.role == Str("1") && Truthy(c.faculty)
    ensures HandleSubmit(true, Decoded(c)).outcome == ToStudent
    ensures AuthForm.RouteAfterLogin(Decoded(c)) == AuthForm.LoginError("Invalid account type. Please contact support.")
  {
  }

  /** An administrator without a `faculty` claim is let in by the newer form
      and refused here. */
  lemma AdminWithoutFacultyDiffers(c: Claims)
    requires AuthForm.RoleOf(c) == Num(3) && !Truthy(c.faculty)
    ensures HandleSubmit(true, Decoded(c)) == Submit(None, Failed(TokenFailure))
    ensures AuthForm.RouteAfterLogin(Decoded(c)) == AuthForm.AdminDashboard
  {
  }

  /** Where the newer form lets a user in, this one lets the same user into
      the same dashboard when the `faculty` claim is present. */
  lemma NewerAcceptsOlderAgrees(c: Claims)
    requires Truthy(c.faculty)
    ensures AuthForm.RouteAfterLogin(Decoded(c)) == AuthForm.AdminDashboard ==> HandleSubmit(true, Decoded(c)).outcome == ToAdmin
    ensures AuthForm.RouteAfterLogin(Decoded(c)).StudentDashboard? ==> HandleSubmit(true, Decoded(c)).outcome == ToStudent
  {
  }
}
