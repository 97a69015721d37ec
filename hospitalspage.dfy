/** The administrator's hospitals page: the form, the body it posts, and the table. */
module AdminHospitalsPage {
  import opened Wrappers
  import opened JsString
  import opened Types
  import opened Query
  import HospitalsRoute

  datatype HospitalForm = HospitalForm(
    name: string,
    address: string,
    phone: string,
    email: string,
    registrationNumber: string,
    kind: string,
    departments: string,
    facilities: string)

  /** The form as the page opens and as a successful create leaves it. */
  const InitialForm := HospitalForm("", "", "", "", "", "private", "", "")

  /** The body `handleSubmit` posts: the form fields, with the two list inputs split at commas
      and trimmed; no operating hours. */
  function Body(f: HospitalForm): (b: HospitalsRoute.HospitalBody)
    ensures b.name == Some(f.name) && b.address == Some(f.address) && b.phone == Some(f.phone)
    ensures b.email == Some(f.email) && b.registrationNumber == Some(f.registrationNumber)
    ensures b.kind == Some(f.kind) && b.operatingHours.None?
    ensures b.departments == Some(SplitAndTrim(f.departments))
    ensures b.facilities == Some(SplitAndTrim(f.facilities))
  {
    HospitalsRoute.HospitalBody(Some(f.name), Some(f.address), Some(f.phone), Some(f.email),
      Some(f.registrationNumber), Some(f.kind), Some(SplitAndTrim(f.departments)),
      Some(SplitAndTrim(f.facilities)), None)
  }

  /** What the stored hospital holds: the pieces of each list input (an empty input gives
      [""], which the route keeps since an array is truthy), the type as chosen (the initial
      "private" included) and the default opening hours. */
  lemma CreatedFromForm(f: HospitalForm, id: Id, nowMs: Timestamp)
    requires f.name != "" && f.address != "" && f.phone != "" && f.email != "" && f.registrationNumber != ""
    ensures HospitalsRoute.Complete(Body(f))
    ensures var h := HospitalsRoute.NewHospital(id, Body(f), nowMs);
      && h.departments == SplitAndTrim(f.departments) && |h.departments| == Count(f.departments, ',') + 1
      && h.facilities == SplitAndTrim(f.facilities)
      && (f.departments == "" ==> h.departments == [""])
      && (f.kind != "" ==> h.kind == f.kind)
      && h.operatingHours == HospitalsRoute.DefaultHours
  {
  }

  /** The departments column: at most the first three, in order. */
  function ShownDepartments(h: Hospital): (r: seq<string>)
    ensures |r| == if |h.departments| <= 3 then |h.departments| else 3
    ensures r == h.departments[..|r|]
  {
    Take(h.departments, 3)
  }

  class HospitalsPageState {
    var hospitals: seq<Hospital>
    var showForm: bool
    var form: HospitalForm

    constructor ()
      ensures hospitals == [] && !showForm && form == InitialForm
    {
      hospitals, showForm, form := [], false, InitialForm;
    }

    /** `handleSubmit`. `created` says whether the route accepted the body; on success the
        form closes and returns to its initial values, otherwise nothing changes. */
    method HandleSubmit(created: bool) returns (sent: HospitalsRoute.HospitalBody)
      modifies this
      ensures sent == Body(old(form))
      ensures created ==> !showForm && form == InitialForm && hospitals == old(hospitals)
      ensures !created ==> showForm == old(showForm) && form == old(form) && hospitals == old(hospitals)
    {
      sent := Body(form);
      if created {
        showForm := false;
        form := InitialForm;
      }
    }

    /** The success path of `fetchHospitals`. */
    method Fetched(list: seq<Hospital>)
      modifies this
      ensures hospitals == list && showForm == old(showForm) && form == old(form)
    {
      hospitals := list;
    }
  }
}
