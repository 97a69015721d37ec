/** The registration page: its form, its checks before any request, and its handler. */
module RegisterPage {
  import opened Wrappers
  import opened JsString
  import opened Http
  import opened Types
  import opened Auth
  import opened LoginPage
  import RegisterRoute

  datatype RegisterForm = RegisterForm(
    name: string,
    email: string,
    password: string,
    confirmPassword: string,
    role: string,
    phone: string,
    dateOfBirth: string,
    gender: string)

  /** The form as the page opens: empty fields, a patient, male. */
  const InitialForm := RegisterForm("", "", "", "", "patient", "", "", "male")

  /** The roles the radio group offers, in display order. */
  const OfferedRoles: seq<string> := ["patient", "doctor", "pharmacist", "admin"]

  const MinPasswordLength: nat := 6

  /** The checks before any request, in order: the confirmation first, then the length
      (counted in UTF-16 code units, as `length` does). */
  function Validate(f: RegisterForm): (error: Option<string>)
    ensures f.password != f.confirmPassword ==> error == Some("Passwords do not match")
    ensures f.password == f.confirmPassword && Utf16Length(f.password) < MinPasswordLength ==>
      error == Some("Password must be at least 6 characters")
    ensures error.None? <==> f.password == f.confirmPassword && Utf16Length(f.password) >= MinPasswordLength
  {
    if f.password != f.confirmPassword then Some("Passwords do not match")
    else if Utf16Length(f.password) < MinPasswordLength then Some("Password must be at least 6 characters")
    else None
  }

  /** `JSON.stringify(formData)` as the register route reads it: every field is sent, and
      `confirmPassword` is ignored there. */
  function Body(f: RegisterForm): (b: RegisterRoute.RegisterBody)
    ensures b.email == Some(f.email) && b.password == Some(f.password) && b.name == Some(f.name)
    ensures b.role == Some(f.role) && b.phone == Some(f.phone)
    ensures b.dateOfBirth == Some(f.dateOfBirth) && b.gender == Some(f.gender)
  {
    RegisterRoute.RegisterBody(Some(f.email), Some(f.password), Some(f.name), Some(f.role),
      Some(f.phone), Some(f.dateOfBirth), Some(f.gender))
  }

  /** The role picker can only produce a non-empty role, so a form that passes the page's
      checks with a name and an email is never refused by the route as incomplete. */
  lemma ValidFormIsComplete(f: RegisterForm)
    requires f.role in OfferedRoles && f.name != "" && f.email != ""
    requires Validate(f).None?
    ensures RegisterRoute.Complete(Body(f))
  {
    assert Utf16Length(f.password) >= 6;
  }

  /** "admin" is on offer, and every offered role has a dashboard to land on. */
  lemma OfferedRolesLand()
    ensures RoleName(Admin) in OfferedRoles
    ensures InitialForm.role in OfferedRoles && InitialForm.gender == GenderName(Male)
    ensures forall r :: r in OfferedRoles ==> RoleRoute(r).Some?
  {
  }

  /** A mismatched pair is reported as a mismatch even when the password is also too short. */
  lemma MismatchReportedFirst(f: RegisterForm)
    requires f.password != f.confirmPassword && Utf16Length(f.password) < MinPasswordLength
    ensures Validate(f) == Some("Passwords do not match")
  {
  }

  /** The page's state that `handleSubmit` changes. `navigatedTo` records the `router.push`
      target (`Some(None)` for a push of `undefined`). */
  class RegisterPageState {
    var form: RegisterForm
    var error: string
    var loading: bool
    var navigatedTo: Option<Option<string>>

    constructor ()
      ensures form == InitialForm && error == "" && !loading && navigatedTo.None?
    {
      form, error, loading, navigatedTo := InitialForm, "", false, None;
    }

    /** `handleSubmit`. `reply` is what the server would answer; `sent` says whether the page
        sent the request at all. */
    method HandleSubmit(reply: Reply<Account>) returns (sent: bool)
      modifies this
      ensures form == old(form)
      ensures sent <==> Validate(form).None?
      ensures !sent ==> error == Validate(form).value && loading == old(loading) && navigatedTo == old(navigatedTo)
      ensures sent && reply.Err? ==>
        error == OrDefault(Some(reply.error), "Registration failed") && !loading && navigatedTo == old(navigatedTo)
      ensures sent && reply.Ok? ==> error == "" && !loading && navigatedTo == Some(RoleRoute(reply.value.role))
    {
      error := "";
      var invalid := Validate(form);
      if invalid.Some? {
        error := invalid.value;
        return false;
      }
      loading := true;
      sent := true;
      if reply.Err? {
        error := OrDefault(Some(reply.error), "Registration failed");
      } else {
        navigatedTo := Some(RoleRoute(reply.value.role));
      }
      loading := false;
    }
  }
}
