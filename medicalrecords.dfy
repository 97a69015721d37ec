/** `GET /api/medical-records`: the caller's medical records, newest first, each with its
    patient and its doctor. */
module MedicalRecordsRoute {
  import opened Wrappers
  import opened Http
  import opened Types
  import opened Query
  import opened Auth
  import opened Db
  import opened Guards

  method Get(db: Db, session: Option<UserPayload>) returns (r: Reply<seq<Populated<MedicalRecord>>>)
    ensures session.None? ==> r == Err(Unauthorized, "Unauthorized")
    ensures session.Some? ==>
      && r.Ok?
      && SortedDesc(Docs(r.value), RecordCreatedAt)
      && (forall m :: multiset(Docs(r.value))[m] ==
            if InScope(session.value, m.patientId, m.doctorId) then multiset(db.medicalRecords)[m] else 0)
      && (forall i :: 0 <= i < |r.value| ==>
            r.value[i].patient == UserViewById(db.users, r.value[i].doc.patientId)
            && r.value[i].doctor == UserViewById(db.users, r.value[i].doc.doctorId))
  {
    if session.None? {
      return Err(Unauthorized, "Unauthorized");
    }
    var q := BuildRowQuery(session.value);
    var matches := (m: MedicalRecord) => RowMatches(q, m.patientId, m.doctorId);
    var found := SortDesc(Filter(db.medicalRecords, matches), RecordCreatedAt);
    forall m: MedicalRecord ensures multiset(found)[m] ==
      if InScope(session.value, m.patientId, m.doctorId) then multiset(db.medicalRecords)[m] else 0
    {
      FilterMultiplicity(db.medicalRecords, matches, m);
    }
    r := Ok(Populate(db.users, found, (m: MedicalRecord) => m.patientId, (m: MedicalRecord) => m.doctorId));
  }
}
