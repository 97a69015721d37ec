/** `GET /api/prescriptions`: the caller's prescriptions, newest first, each with its patient,
    its doctor and its medicine. */
module PrescriptionsRoute {
  import opened Wrappers
  import opened Http
  import opened Types
  import opened Query
  import opened Auth
  import opened Db
  import opened Guards

  /** One element of the response: the prescription, the password-free views of its patient
      and doctor, and the medicine document `medicineId` names (with every field). */
  datatype PopulatedPrescription = PopulatedPrescription(
    doc: Prescription, patient: Option<UserView>, doctor: Option<UserView>, medicine: Option<Medicine>)

  function Prescriptions(r: seq<PopulatedPrescription>): (s: seq<Prescription>)
    ensures |s| == |r| && forall i :: 0 <= i < |r| ==> s[i] == r[i].doc
  {
    if r == [] then [] else [r[0].doc] + Prescriptions(r[1..])
  }

  /** `medicines.findOne({_id})`. */
  function MedicineById(medicines: seq<Medicine>, id: Id): (r: Option<Medicine>)
    ensures r.Some? ==> r.value in medicines && r.value.id == id
    ensures r.None? ==> forall m :: m in medicines ==> m.id != id
  {
    FindOne(medicines, (m: Medicine) => m.id == id)
  }

  function PopulateAll(db: Db, s: seq<Prescription>): (r: seq<PopulatedPrescription>)
    ensures Prescriptions(r) == s
    ensures forall i :: 0 <= i < |r| ==>
      && r[i].patient == UserViewById(db.users, r[i].doc.patientId)
      && r[i].doctor == UserViewById(db.users, r[i].doc.doctorId)
      && r[i].medicine == MedicineById(db.medicines, r[i].doc.medicineId)
  {
    if s == [] then []
    else
      var x := s[0];
      var head := PopulatedPrescription(x, UserViewById(db.users, x.patientId), UserViewById(db.users, x.doctorId),
        MedicineById(db.medicines, x.medicineId));
      [head] + PopulateAll(db, s[1..])
  }

  method Get(db: Db, session: Option<UserPayload>) returns (r: Reply<seq<PopulatedPrescription>>)
    ensures session.None? ==> r == Err(Unauthorized, "Unauthorized")
    ensures session.Some? ==>
      && r.Ok?
      && SortedDesc(Prescriptions(r.value), PrescriptionCreatedAt)
      && (forall x :: multiset(Prescriptions(r.value))[x] ==
            if InScope(session.value, x.patientId, x.doctorId) then multiset(db.prescriptions)[x] else 0)
      && (forall i :: 0 <= i < |r.value| ==>
            && r.value[i].patient == UserViewById(db.users, r.value[i].doc.patientId)
            && r.value[i].doctor == UserViewById(db.users, r.value[i].doc.doctorId)
            && r.value[i].medicine == MedicineById(db.medicines, r.value[i].doc.medicineId))
  {
    if session.None? {
      return Err(Unauthorized, "Unauthorized");
    }
    var q := BuildRowQuery(session.value);
    var matches := (x: Prescription) => RowMatches(q, x.patientId, x.doctorId);
    var found := SortDesc(Filter(db.prescriptions, matches), PrescriptionCreatedAt);
    forall x: Prescription ensures multiset(found)[x] ==
      if InScope(session.value, x.patientId, x.doctorId) then multiset(db.prescriptions)[x] else 0
    {
      FilterMultiplicity(db.prescriptions, matches, x);
    }
    r := Ok(PopulateAll(db, found));
  }
}
