/** The patient's profile page: loading the form, the check before saving, the `updateData`
    it sends, and what a save leaves in the form. */
module PatientProfilePage {
  import opened Wrappers
  import opened JsString
  import opened Http
  import opened Types
  import opened ProfileForm
  import ProfileRoute

  datatype PatientForm = PatientForm(
    name: string,
    phone: string,
    dateOfBirth: string,
    gender: string,
    address: string,
    allergies: string,
    bloodGroup: string,
    emergencyContact: string,
    medicalHistory: string,
    passwords: Passwords)

  const EmptyForm := PatientForm("", "", "", "", "", "", "", "", "", NoPasswords)

  /** `fetchProfile`'s `setFormData`: each input from the loaded record, "" when absent, and
      the password inputs empty. */
  function LoadForm(v: UserView): (f: PatientForm)
    ensures f.name == v.name && f.passwords == NoPasswords
    ensures f.phone == OrDefault(v.profile.phone, "") && f.dateOfBirth == OrDefault(v.profile.dateOfBirth, "")
    ensures f.gender == OrDefault(v.profile.gender, "") && f.address == OrDefault(v.profile.address, "")
    ensures f.allergies == OrDefault(v.profile.allergies, "") && f.bloodGroup == OrDefault(v.profile.bloodGroup, "")
    ensures f.emergencyContact == OrDefault(v.profile.emergencyContact, "")
    ensures f.medicalHistory == OrDefault(v.profile.medicalHistory, "")
  {
    var p := v.profile;
    PatientForm(OrDefault(Some(v.name), ""), OrDefault(p.phone, ""), OrDefault(p.dateOfBirth, ""),
      OrDefault(p.gender, ""), OrDefault(p.address, ""), OrDefault(p.allergies, ""), OrDefault(p.bloodGroup, ""),
      OrDefault(p.emergencyContact, ""), OrDefault(p.medicalHistory, ""), NoPasswords)
  }

  /** The nine fields the page always sends: no email, no password. */
  const FormKeys: set<string> := {"name", "phone", "dateOfBirth", "gender", "address", "allergies",
    "bloodGroup", "emergencyContact", "medicalHistory"}

  /** `updateData` holds the nine form fields as typed and, when both are filled in, the
      current and the new password. */
  ghost predicate Sends(m: map<string, string>, f: PatientForm) {
    && m.Keys == FormKeys + PasswordKeys(f.passwords)
    && m["name"] == f.name && m["phone"] == f.phone && m["dateOfBirth"] == f.dateOfBirth
    && m["gender"] == f.gender && m["address"] == f.address && m["allergies"] == f.allergies
    && m["bloodGroup"] == f.bloodGroup && m["emergencyContact"] == f.emergencyContact
    && m["medicalHistory"] == f.medicalHistory
    && (SendsPasswords(f.passwords) ==>
          m["currentPassword"] == f.passwords.current && m["newPassword"] == f.passwords.next)
  }

  method BuildUpdateData(f: PatientForm) returns (updateData: map<string, string>)
    ensures Sends(updateData, f)
    ensures "email" !in updateData
  {
    var base := map["name" := f.name, "phone" := f.phone, "dateOfBirth" := f.dateOfBirth,
      "gender" := f.gender, "address" := f.address, "allergies" := f.allergies,
      "bloodGroup" := f.bloodGroup, "emergencyContact" := f.emergencyContact,
      "medicalHistory" := f.medicalHistory];
    assert base.Keys == FormKeys;
    assert "currentPassword" !in base && "newPassword" !in base && "email" !in base;
    updateData := AddPasswords(base, f.passwords);
  }

  /** Saving a freshly loaded form changes none of the profile fields it shows (an input
      left "" keeps the stored value) and asks for no password change. */
  lemma ResaveKeepsProfile(v: UserView, m: map<string, string>)
    requires Sends(m, LoadForm(v))
    ensures var b := AsBody(m);
      && ProfileRoute.Pick(b.phone, v.profile.phone) == v.profile.phone
      && ProfileRoute.Pick(b.dateOfBirth, v.profile.dateOfBirth) == v.profile.dateOfBirth
      && ProfileRoute.Pick(b.gender, v.profile.gender) == v.profile.gender
      && ProfileRoute.Pick(b.address, v.profile.address) == v.profile.address
      && ProfileRoute.Pick(b.allergies, v.profile.allergies) == v.profile.allergies
      && ProfileRoute.Pick(b.bloodGroup, v.profile.bloodGroup) == v.profile.bloodGroup
      && ProfileRoute.Pick(b.emergencyContact, v.profile.emergencyContact) == v.profile.emergencyContact
      && ProfileRoute.Pick(b.medicalHistory, v.profile.medicalHistory) == v.profile.medicalHistory
      && b.specialization.None? && b.department.None?
      && !ProfileRoute.WantsPasswordChange(b)
  {
  }

  /** The page's state that the handlers change. */
  class PatientProfileState {
    var user: Option<UserView>
    var form: PatientForm
    var message: string
    var saving: bool

    constructor ()
      ensures user.None? && form == EmptyForm && message == "" && !saving
    {
      user, form, message, saving := None, EmptyForm, "", false;
    }

    /** The success path of `fetchProfile`. */
    method Loaded(v: UserView)
      modifies this
      ensures user == Some(v) && form == LoadForm(v)
      ensures message == old(message) && saving == old(saving)
    {
      user := Some(v);
      form := LoadForm(v);
    }

    /** `handleSubmit`. `reply` is what the profile route would answer; `sent` is the
        request body, None when no request is made. */
    method HandleSubmit(reply: Reply<Option<UserView>>) returns (sent: Option<map<string, string>>)
      modifies this
      ensures !saving
      ensures Mismatch(old(form).passwords).Some? ==>
        sent.None? && message == "New passwords do not match" && form == old(form) && user == old(user)
      ensures Mismatch(old(form).passwords).None? ==> sent.Some? && Sends(sent.value, old(form))
      ensures Mismatch(old(form).passwords).None? && reply.Ok? ==>
        && message == "Profile updated successfully!" && user == reply.value
        && form == old(form).(passwords := NoPasswords)
      ensures Mismatch(old(form).passwords).None? && reply.Err? ==>
        message == OrDefault(Some(reply.error), "Failed to update profile") && form == old(form) && user == old(user)
    {
      saving := true;
      message := "";
      var invalid := Mismatch(form.passwords);
      if invalid.Some? {
        message := invalid.value;
        saving := false;
        return None;
      }
      var updateData := BuildUpdateData(form);
      sent := Some(updateData);
      if reply.Ok? {
        message := "Profile updated successfully!";
        user := reply.value;
        form := form.(passwords := NoPasswords);
      } else {
        message := OrDefault(Some(reply.error), "Failed to update profile");
      }
      saving := false;
    }
  }
}
