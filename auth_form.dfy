/** The login and signup form: field validation in a fixed order with the
    first failure's message, and the routing by role after a successful
    login, which reads the role and faculty claims of the stored token. */
module AuthForm {
  import opened Common

  // ---------------------------------------------------------------------
  // The email pattern `\S+@\S+\.\S+`, unanchored

  /** `\s` in a JavaScript regular expression: the white space and line
      terminator characters. */
  predicate IsSpace(c: char)
  {
    || c == ' ' || c == '\t' || c == '\n' || c == '\r' || c == '\U{0B}' || c == '\U{0C}'
    || c == '\U{A0}' || c == '\U{1680}' || ('\U{2000}' <= c <= '\U{200A}')
    || c == '\U{2028}' || c == '\U{2029}' || c == '\U{202F}' || c == '\U{205F}'
    || c == '\U{3000}' || c == '\U{FEFF}'
  }

  /** A match with its `@` at `p` and its `.` at `q`: a non-space character
      just before the `@`, only non-space characters (at least one) between
      the two, and a non-space character just after the `.`. Longer runs
      around a match only extend it. */
  predicate EmailMatchAt(s: string, p: int, q: int)
  {
    && 1 <= p && p + 2 <= q && q + 1 < |s|
    && s[p] == '@' && s[q] == '.'
    && !IsSpace(s[p - 1]) && !IsSpace(s[q + 1])
    && forall k :: p < k < q ==> !IsSpace(s[k])
  }

  /** The reference meaning of `/\S+@\S+\.\S+/.test(s)`. */
  ghost predicate EmailShaped(s: string)
  {
    exists p, q :: EmailMatchAt(s, p, q)
  }

  /** The end of the run of non-space characters that starts at `i`. */
  function RunEnd(s: string, i: nat): (e: nat)
    requires i <= |s|
    ensures i <= e <= |s|
    ensures forall k :: i <= k < e ==> !IsSpace(s[k])
    ensures e < |s| ==> IsSpace(s[e])
    decreases |s| - i
  {
    if i == |s| || IsSpace(s[i]) then i else RunEnd(s, i + 1)
  }

  /** Some `.` at a position in `[lo, hi)`. */
  function HasDot(s: string, lo: nat, hi: nat): (r: bool)
    requires lo <= hi <= |s|
    ensures r <==> exists q :: lo <= q < hi && s[q] == '.'
    decreases hi - lo
  {
    if lo == hi then false else s[lo] == '.' || HasDot(s, lo + 1, hi)
  }

  /** A match whose `@` sits at `p`: a non-space character before it and a
      `.` in the non-space run after it, neither first nor last in that run. */
  predicate MatchAt(s: string, p: nat)
    requires 1 <= p < |s|
  {
    var e := RunEnd(s, p + 1);
    s[p] == '@' && !IsSpace(s[p - 1]) && p + 2 <= e - 1 && HasDot(s, p + 2, e - 1)
  }

  /** The matcher: tries every position from `p` on for the `@`. */
  function MatchFrom(s: string, p: nat): bool
    requires 1 <= p <= |s|
    decreases |s| - p
  {
    if p == |s| then false else MatchAt(s, p) || MatchFrom(s, p + 1)
  }

  /** `/\S+@\S+\.\S+/.test(s)`. */
  function EmailTest(s: string): bool
  {
    |s| >= 1 && MatchFrom(s, 1)
  }

  /** The run of non-space characters from `i` reaches at least `j` when
      every character in `[i, j)` is non-space. */
  lemma RunEndReaches(s: string, i: nat, j: nat)
    requires i <= j <= |s|
    requires forall k :: i <= k < j ==> !IsSpace(s[k])
    ensures RunEnd(s, i) >= j
  {
  }

  lemma MatchAtCorrect(s: string, p: nat)
    requires 1 <= p < |s|
    ensures MatchAt(s, p) <==> exists q :: EmailMatchAt(s, p, q)
  {
    var e := RunEnd(s, p + 1);
    if MatchAt(s, p) {
      var q :| p + 2 <= q < e - 1 && s[q] == '.';
      assert EmailMatchAt(s, p, q);
    }
    if q :| EmailMatchAt(s, p, q) {
      assert !IsSpace(s[q]);
      RunEndReaches(s, p + 1, q + 2);
      assert p + 2 <= q < e - 1 && s[q] == '.';
    }
  }

  lemma {:induction false} MatchFromCorrect(s: string, p: nat)
    requires 1 <= p <= |s|
    ensures MatchFrom(s, p) <==> exists p', q :: p <= p' && EmailMatchAt(s, p', q)
    decreases |s| - p
  {
    if p < |s| {
      MatchAtCorrect(s, p);
      MatchFromCorrect(s, p + 1);
      if p2, q :| p <= p2 && EmailMatchAt(s, p2, q) {
        if p2 != p {
          assert p + 1 <= p2;
        }
      }
    }
  }

  /** The matcher computes exactly the pattern's meaning. */
  lemma EmailTestCorrect(s: string)
    ensures EmailTest(s) <==> EmailShaped(s)
  {
    if |s| >= 1 {
      MatchFromCorrect(s, 1);
    }
  }

  // ---------------------------------------------------------------------
  // Validation

  datatype Form = Form(username: string, email: string, password: string, facultyId: string)

  datatype Validation = Valid | Invalid(message: string)

  predicate UsernameOk(f: Form) { |f.username| >= 3 }
  predicate EmailOk(f: Form) { f.email != "" && EmailTest(f.email) }
  predicate FacultyOk(f: Form) { f.facultyId != "" }
  predicate PasswordOk(f: Form) { |f.password| >= 6 }

  /** `validateForm`: the user name, then (signup only) the email and the
      faculty id, then the password; the first failure's message wins. */
  function ValidateForm(f: Form, isSignup: bool): (r: Validation)
    ensures r == Valid <==> UsernameOk(f) && (isSignup ==> EmailOk(f) && FacultyOk(f)) && PasswordOk(f)
    ensures !UsernameOk(f) ==> r == Invalid("Username must be at least 3 characters")
    ensures UsernameOk(f) && isSignup && !EmailOk(f) ==> r == Invalid("Please enter a valid email address")
    ensures UsernameOk(f) && isSignup && EmailOk(f) && !FacultyOk(f) ==> r == Invalid("Faculty ID is required")
    ensures UsernameOk(f) && (isSignup ==> EmailOk(f) && FacultyOk(f)) && !PasswordOk(f) ==>
      r == Invalid("Password must be at least 6 characters")
  {
    if !(f.username != "" && |f.username| >= 3) then Invalid("Username must be at least 3 characters")
    else if isSignup && !(f.email != "" && EmailTest(f.email)) then Invalid("Please enter a valid email address")
    else if isSignup && f.facultyId == "" then Invalid("Faculty ID is required")
    else if !(f.password != "" && |f.password| >= 6) then Invalid("Password must be at least 6 characters")
    else Valid
  }

  /** In login mode the email and faculty id are never looked at. */
  lemma LoginIgnoresSignupFields(f: Form, email: string, facultyId: string)
    ensures ValidateForm(f, false) == ValidateForm(f.(email := email, facultyId := facultyId), false)
  {
  }

  /** The form's state: its fields and the error on display. */
  datatype FormState = FormState(form: Form, error: string)

  datatype Field = Username | Email | Password | FacultyIdField

  /** `handleChange`: writes one field and clears any error on display. */
  function HandleChange(st: FormState, field: Field, value: string): (r: FormState)
    ensures r.error == ""
    ensures field == Username ==> r.form == st.form.(username := value)
    ensures field == Email ==> r.form == st.form.(email := value)
    ensures field == Password ==> r.form == st.form.(password := value)
    ensures field == FacultyIdField ==> r.form == st.form.(facultyId := value)
  {
    var f := match field
      case Username => st.form.(username := value)
      case Email => st.form.(email := value)
      case Password => st.form.(password := value)
      case FacultyIdField => st.form.(facultyId := value);
    FormState(f, "")
  }

  // ---------------------------------------------------------------------
  // Routing after login

  datatype Login =
    | AdminDashboard
    | StudentDashboard(facultyId: JsVal)
    | LoginError(message: string)
    /** The token decoder threw; its message is the library's own. */
    | DecodeError

  /** The role claim: the first truthy of `role`, `userRole`, `user_role`. */
  function RoleOf(c: Claims): JsVal
  {
    FirstTruthy(c.role, c.userRole, c.user_role)
  }

  /** What happens once authentication has returned: the stored token's role,
      compared strictly with the numbers 3 and 1, picks the dashboard; a
      student also needs a faculty claim (`faculty`, else `faculty_id`),
      which is stored. */
  function RouteAfterLogin(token: StoredToken): (r: Login)
    ensures token.NoToken? ==> r == LoginError("Authentication failed. Please try again.")
    ensures token.Undecodable? ==> r == DecodeError
    ensures r == AdminDashboard <==> token.Decoded? && RoleOf(token.claims) == Num(3)
    ensures r.StudentDashboard? <==>
      token.Decoded? && RoleOf(token.claims) == Num(1) && Truthy(Or(token.claims.faculty, token.claims.faculty_id))
    ensures r.StudentDashboard? ==> r.facultyId == Or(token.claims.faculty, token.claims.faculty_id)
    ensures token.Decoded? && RoleOf(token.claims) == Num(1) && !r.StudentDashboard? ==>
      r == LoginError("Faculty ID is required for student users.")
    ensures token.Decoded? && RoleOf(token.claims) != Num(1) && RoleOf(token.claims) != Num(3) ==>
      r == LoginError("Invalid account type. Please contact support.")
  {
    match token
    case NoToken => LoginError("Authentication failed. Please try again.")
    case Undecodable => DecodeError
    case Decoded(c) =>
      var role := RoleOf(c);
      if role == Num(3) then AdminDashboard
      else if role == Num(1) then
        var facultyId := Or(c.faculty, c.faculty_id);
        if Truthy(facultyId) then StudentDashboard(facultyId)
        else LoginError("Faculty ID is required for student users.")
      else LoginError("Invalid account type. Please contact support.")
  }

  /** A role sent as the string "1" is turned away, not treated as a student. */
  lemma StringRoleRejected(c: Claims)
    requires Truthy(c.role) && c.role == Str("1")
    ensures RouteAfterLogin(Decoded(c)) == LoginError("Invalid account type. Please contact support.")
  {
  }

  datatype Submit = NotSent(message: string) | AuthFailed | Routed(login: Login)

  /** `handleSubmit`: an invalid form shows its message and authentication is
      not attempted; a failed authentication shows the service's message;
      otherwise the stored token is routed. */
  function HandleSubmit(f: Form, isSignup: bool, authSucceeded: bool, token: StoredToken): (r: Submit)
    ensures r.NotSent? <==> ValidateForm(f, isSignup).Invalid?
    ensures r.NotSent? ==> r.message == ValidateForm(f, isSignup).message
    ensures r.Routed? <==> ValidateForm(f, isSignup) == Valid && authSucceeded
    ensures r.Routed? ==> r.login == RouteAfterLogin(token)
  {
    match ValidateForm(f, isSignup)
    case Invalid(m) => NotSent(m)
    case Valid => if !authSucceeded then AuthFailed else Routed(RouteAfterLogin(token))
  }
}
