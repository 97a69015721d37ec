/** What the patient and the doctor profile pages share: the three password inputs, their
    check before any request, and the `updateData` document both send to `PUT /api/profile`. */
module ProfileForm {
  import opened Wrappers
  import opened JsString
  import ProfileRoute

  datatype Passwords = Passwords(current: string, next: string, confirm: string)

  const NoPasswords := Passwords("", "", "")

  /** The check before any request: a new password that does not match its confirmation.
      An empty new password is not checked, whatever the confirmation holds. */
  function Mismatch(p: Passwords): (error: Option<string>)
    ensures error.Some? <==> p.next != "" && p.next != p.confirm
    ensures error.Some? ==> error.value == "New passwords do not match"
  {
    if p.next != "" && p.next != p.confirm then Some("New passwords do not match") else None
  }

  /** Whether the password inputs go into the request: only when both are non-empty. */
  predicate SendsPasswords(p: Passwords) { p.current != "" && p.next != "" }

  /** The keys the password inputs add to `updateData`. */
  function PasswordKeys(p: Passwords): (keys: set<string>)
    ensures "currentPassword" in keys <==> SendsPasswords(p)
    ensures "newPassword" in keys <==> SendsPasswords(p)
  {
    if SendsPasswords(p) then {"currentPassword", "newPassword"} else {}
  }

  /** `if (current && new) { updateData.currentPassword = ...; updateData.newPassword = ... }`. */
  method AddPasswords(m: map<string, string>, p: Passwords) returns (updateData: map<string, string>)
    requires "currentPassword" !in m && "newPassword" !in m
    ensures updateData.Keys == m.Keys + PasswordKeys(p)
    ensures forall k :: k in m ==> updateData[k] == m[k]
    ensures SendsPasswords(p) ==> updateData["currentPassword"] == p.current && updateData["newPassword"] == p.next
  {
    updateData := m;
    if p.current != "" && p.next != "" {
      updateData := updateData["currentPassword" := p.current];
      updateData := updateData["newPassword" := p.next];
    }
  }

  /** `m[k]`, or `undefined` when the key is absent. */
  function Field(m: map<string, string>, k: string): (v: Option<string>)
    ensures k in m ==> v == Some(m[k])
    ensures k !in m ==> v.None?
  {
    if k in m then Some(m[k]) else None
  }

  /** `updateData` as the profile route's destructuring reads it: a key that is absent is
      `undefined`. Keys the route does not name are not read. */
  function AsBody(m: map<string, string>): (b: ProfileRoute.ProfileBody)
    ensures b.currentPassword == Field(m, "currentPassword") && b.newPassword == Field(m, "newPassword")
  {
    ProfileRoute.ProfileBody(Field(m, "name"), Field(m, "phone"), Field(m, "dateOfBirth"), Field(m, "gender"),
      Field(m, "address"), Field(m, "specialization"), Field(m, "department"), Field(m, "allergies"),
      Field(m, "bloodGroup"), Field(m, "medicalHistory"), Field(m, "emergencyContact"),
      Field(m, "currentPassword"), Field(m, "newPassword"))
  }

  /** The route is asked to change the password exactly when both inputs were filled in. */
  lemma PasswordChangeRequested(m: map<string, string>, updateData: map<string, string>, p: Passwords)
    requires "currentPassword" !in m && "newPassword" !in m
    requires updateData.Keys == m.Keys + PasswordKeys(p)
    requires SendsPasswords(p) ==> updateData["currentPassword"] == p.current && updateData["newPassword"] == p.next
    ensures ProfileRoute.WantsPasswordChange(AsBody(updateData)) <==> SendsPasswords(p)
  {
  }
}
