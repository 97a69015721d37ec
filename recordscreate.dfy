/** `POST /api/medical-records/create`: a doctor writes a medical record for a patient. */
module MedicalRecordsCreateRoute {
  import opened Wrappers
  import opened JsString
  import opened Http
  import opened Types
  import opened Auth
  import opened Db
  import opened Guards

  /** `symptoms` as the body may carry it: one string or an array of them. */
  datatype Symptoms = One(text: string) | Many(items: seq<string>)

  /** `!symptoms` is false for every array, even an empty one, and for a non-empty string. */
  predicate SymptomsGiven(s: Option<Symptoms>) {
    s.Some? && (s.value.One? ==> s.value.text != "")
  }

  /** `Array.isArray(symptoms) ? symptoms : [symptoms]`. */
  function SymptomList(s: Symptoms): (r: seq<string>)
    ensures s.Many? ==> r == s.items
    ensures s.One? ==> r == [s.text]
  {
    match s
    case One(t) => [t]
    case Many(items) => items
  }

  /** The fields of the body the route reads. */
  datatype RecordBody = RecordBody(
    patientId: Option<Id>,
    appointmentId: Option<Id>,
    diagnosis: Option<string>,
    symptoms: Option<Symptoms>,
    treatment: Option<string>,
    prescriptions: Option<seq<Id>>,
    labResults: Option<string>,
    notes: Option<string>)

  predicate Complete(b: RecordBody) {
    Truthy(b.patientId) && Truthy(b.diagnosis) && SymptomsGiven(b.symptoms) && Truthy(b.treatment)
  }

  /** The record the route inserts; its doctor is the caller. */
  function NewRecord(id: Id, caller: UserPayload, b: RecordBody, nowMs: Timestamp): (m: MedicalRecord)
    requires Complete(b)
    ensures m.id == id && m.patientId == b.patientId.value && m.doctorId == caller.userId
    ensures m.appointmentId == (if Truthy(b.appointmentId) then b.appointmentId else None)
    ensures m.diagnosis == b.diagnosis.value && m.treatment == b.treatment.value
    ensures m.symptoms == SymptomList(b.symptoms.value)
    ensures b.symptoms.value.One? ==> m.symptoms == [b.symptoms.value.text]
    ensures m.prescriptions == (if b.prescriptions.Some? then b.prescriptions.value else [])
    ensures m.labResults == b.labResults && m.notes == b.notes
    ensures m.createdAt == nowMs && m.updatedAt == nowMs
  {
    MedicalRecord(id, b.patientId.value, caller.userId,
      if Truthy(b.appointmentId) then b.appointmentId else None,
      b.diagnosis.value, SymptomList(b.symptoms.value), b.treatment.value,
      if b.prescriptions.Some? then b.prescriptions.value else [],
      b.labResults, b.notes, nowMs, nowMs)
  }

  /** `POST /api/medical-records/create`. The clock and the inserted id are inputs. */
  method Create(store: Store, session: Option<UserPayload>, body: RecordBody, nowMs: Timestamp, newId: Id)
    returns (r: Reply<Id>)
    modifies store
    ensures !HasRole(session, Doctor) ==> r == Err(Unauthorized, "Unauthorized")
    ensures HasRole(session, Doctor) && !Complete(body) ==> r == Err(BadRequest, "Missing required fields")
    ensures HasRole(session, Doctor) && Complete(body) ==> r.Ok?
    ensures r.Err? ==> store.Snapshot() == old(store.Snapshot())
    ensures r.Ok? ==>
      && HasRole(session, Doctor) && Complete(body) && r.value == newId
      && store.Snapshot() == old(store.Snapshot()).(medicalRecords := old(store.medicalRecords) + [NewRecord(newId, session.value, body, nowMs)])
  {
    if !HasRole(session, Doctor) {
      return Err(Unauthorized, "Unauthorized");
    }
    if !Complete(body) {
      return Err(BadRequest, "Missing required fields");
    }
    store.medicalRecords := store.medicalRecords + [NewRecord(newId, session.value, body, nowMs)];
    r := Ok(newId);
  }

  /** Whatever the body says, the record's doctor is the caller: the record lies in the
      caller's row scope and in that of the patient it names. */
  lemma AuthoredByCaller(id: Id, caller: UserPayload, b: RecordBody, nowMs: Timestamp, patient: UserPayload)
    requires Complete(b) && caller.role == RoleName(Doctor)
    requires patient.role == RoleName(Patient) && patient.userId == b.patientId.value
    ensures var m := NewRecord(id, caller, b, nowMs);
      InScope(caller, m.patientId, m.doctorId) && InScope(patient, m.patientId, m.doctorId)
  {
  }
}
