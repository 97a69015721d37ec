/** The doctor's profile page: loading the form, the check before saving, the `updateData`
    it sends, and what a save leaves in the form. */
module DoctorProfilePage {
  import opened Wrappers
  import opened JsString
  import opened Http
  import opened Types
  import opened ProfileForm
  import ProfileRoute

  datatype DoctorForm = DoctorForm(
    name: string,
    phone: string,
    specialization: string,
    licenseNumber: string,
    department: string,
    passwords: Passwords)

  const EmptyForm := DoctorForm("", "", "", "", "", NoPasswords)

  /** `fetchProfile`'s `setFormData`: each input from the loaded record, "" when absent, and
      the password inputs empty. */
  function LoadForm(v: UserView): (f: DoctorForm)
    ensures f.name == v.name && f.passwords == NoPasswords
    ensures f.phone == OrDefault(v.profile.phone, "")
    ensures f.specialization == OrDefault(v.profile.specialization, "")
    ensures f.licenseNumber == OrDefault(v.profile.licenseNumber, "")
    ensures f.department == OrDefault(v.profile.department, "")
  {
    var p := v.profile;
    DoctorForm(OrDefault(Some(v.name), ""), OrDefault(p.phone, ""), OrDefault(p.specialization, ""),
      OrDefault(p.licenseNumber, ""), OrDefault(p.department, ""), NoPasswords)
  }

  /** The four fields the page always sends: the license number is shown but never sent. */
  const FormKeys: set<string> := {"name", "phone", "specialization", "department"}

  ghost predicate Sends(m: map<string, string>, f: DoctorForm) {
    && m.Keys == FormKeys + PasswordKeys(f.passwords)
    && m["name"] == f.name && m["phone"] == f.phone
    && m["specialization"] == f.specialization && m["department"] == f.department
    && (SendsPasswords(f.passwords) ==>
          m["currentPassword"] == f.passwords.current && m["newPassword"] == f.passwords.next)
  }

  method BuildUpdateData(f: DoctorForm) returns (updateData: map<string, string>)
    ensures Sends(updateData, f)
    ensures "email" !in updateData && "licenseNumber" !in updateData
  {
    var base := map["name" := f.name, "phone" := f.phone, "specialization" := f.specialization,
      "department" := f.department];
    updateData := AddPasswords(base, f.passwords);
  }

  /** The route reads only what was sent: the patient-only fields arrive absent, so the
      stored ones are kept, and saving a freshly loaded form keeps the shown fields too. */
  lemma ResaveKeepsProfile(v: UserView, m: map<string, string>)
    requires Sends(m, LoadForm(v))
    ensures var b := AsBody(m);
      && ProfileRoute.Pick(b.phone, v.profile.phone) == v.profile.phone
      && ProfileRoute.Pick(b.specialization, v.profile.specialization) == v.profile.specialization
      && ProfileRoute.Pick(b.department, v.profile.department) == v.profile.department
      && b.dateOfBirth.None? && b.gender.None? && b.address.None? && b.allergies.None?
      && b.bloodGroup.None? && b.medicalHistory.None? && b.emergencyContact.None?
      && !ProfileRoute.WantsPasswordChange(b)
  {
  }

  class DoctorProfileState {
    var user: Option<UserView>
    var form: DoctorForm
    var message: string
    var saving: bool

    constructor ()
      ensures user.None? && form == EmptyForm && message == "" && !saving
    {
      user, form, message, saving := None, EmptyForm, "", false;
    }

    /** The success path of `fetchProfile`. */
    method Loaded(v: UserView)
      modifies this
      ensures user == Some(v) && form == LoadForm(v)
      ensures message == old(message) && saving == old(saving)
    {
      user := Some(v);
      form := LoadForm(v);
    }

    /** `handleSubmit`. `reply` is what the profile route would answer; `sent` is the
        request body, None when no request is made. */
    method HandleSubmit(reply: Reply<Option<UserView>>) returns (sent: Option<map<string, string>>)
      modifies this
      ensures !saving
      ensures Mismatch(old(form).passwords).Some? ==>
        sent.None? && message == "New passwords do not match" && form == old(form) && user == old(user)
      ensures Mismatch(old(form).passwords).None? ==> sent.Some? && Sends(sent.value, old(form))
      ensures Mismatch(old(form).passwords).None? && reply.Ok? ==>
        && message == "Profile updated successfully!" && user == reply.value
        && form == old(form).(passwords := NoPasswords)
      ensures Mismatch(old(form).passwords).None? && reply.Err? ==>
        message == OrDefault(Some(reply.error), "Failed to update profile") && form == old(form) && user == old(user)
    {
      saving := true;
      message := "";
      var invalid := Mismatch(form.passwords);
      if invalid.Some? {
        message := invalid.value;
        saving := false;
        return None;
      }
      var updateData := BuildUpdateData(form);
      sent := Some(updateData);
      if reply.Ok? {
        message := "Profile updated successfully!";
        user := reply.value;
        form := form.(passwords := NoPasswords);
      } else {
        message := OrDefault(Some(reply.error), "Failed to update profile");
      }
      saving := false;
    }
  }
}
