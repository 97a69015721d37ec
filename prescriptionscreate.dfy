/** `POST /api/prescriptions/create`: a doctor prescribes a medicine to a patient. */
module PrescriptionsCreateRoute {
  import opened Wrappers
  import opened JsString
  import opened Http
  import opened Types
  import opened Auth
  import opened Db
  import opened Guards

  /** The fields of the body the route reads. */
  datatype PrescriptionBody = PrescriptionBody(
    patientId: Option<Id>,
    medicineId: Option<Id>,
    medicineName: Option<string>,
    dosage: Option<string>,
    frequency: Option<string>,
    duration: Option<string>,
    instructions: Option<string>)

  predicate Complete(b: PrescriptionBody) {
    Truthy(b.patientId) && Truthy(b.medicineName) && Truthy(b.dosage) && Truthy(b.frequency) && Truthy(b.duration)
  }

  /** The prescription the route inserts: prescribed by the caller, active, and naming the
      body's medicine or, when there is none, the fresh id `freshMedicineId`. */
  function NewPrescription(id: Id, caller: UserPayload, b: PrescriptionBody, freshMedicineId: Id, nowMs: Timestamp): (x: Prescription)
    requires Complete(b)
    ensures x.id == id && x.patientId == b.patientId.value && x.doctorId == caller.userId
    ensures x.medicineId == (if Truthy(b.medicineId) then b.medicineId.value else freshMedicineId)
    ensures x.medicineName == b.medicineName.value && x.dosage == b.dosage.value
    ensures x.frequency == b.frequency.value && x.duration == b.duration.value
    ensures x.instructions == b.instructions
    ensures x.status == PrescriptionStatusName(RxActive)
    ensures x.createdAt == nowMs && x.updatedAt == nowMs
  {
    Prescription(id, b.patientId.value, caller.userId,
      if Truthy(b.medicineId) then b.medicineId.value else freshMedicineId,
      b.medicineName.value, b.dosage.value, b.frequency.value, b.duration.value,
      b.instructions, "active", nowMs, nowMs)
  }

  /** `POST /api/prescriptions/create`. The clock, the inserted id and the id `new ObjectId()`
      would draw are inputs. */
  method Create(store: Store, session: Option<UserPayload>, body: PrescriptionBody, freshMedicineId: Id, nowMs: Timestamp, newId: Id)
    returns (r: Reply<Id>)
    modifies store
    ensures !HasRole(session, Doctor) ==> r == Err(Unauthorized, "Unauthorized")
    ensures HasRole(session, Doctor) && !Complete(body) ==> r == Err(BadRequest, "Missing required fields")
    ensures HasRole(session, Doctor) && Complete(body) ==> r.Ok?
    ensures r.Err? ==> store.Snapshot() == old(store.Snapshot())
    ensures r.Ok? ==>
      && HasRole(session, Doctor) && Complete(body) && r.value == newId
      && store.Snapshot() == old(store.Snapshot()).(prescriptions := old(store.prescriptions) + [NewPrescription(newId, session.value, body, freshMedicineId, nowMs)])
  {
    if !HasRole(session, Doctor) {
      return Err(Unauthorized, "Unauthorized");
    }
    if !Complete(body) {
      return Err(BadRequest, "Missing required fields");
    }
    store.prescriptions := store.prescriptions + [NewPrescription(newId, session.value, body, freshMedicineId, nowMs)];
    r := Ok(newId);
  }

  /** Whatever the body says, the prescription's doctor is the caller, and it starts out
      active: it lies in the caller's row scope and carries a declared status. */
  lemma AuthoredByCaller(id: Id, caller: UserPayload, b: PrescriptionBody, freshId: Id, nowMs: Timestamp)
    requires Complete(b) && caller.role == RoleName(Doctor)
    ensures var x := NewPrescription(id, caller, b, freshId, nowMs);
      InScope(caller, x.patientId, x.doctorId) && ConformsPrescriptionStatus(x.status)
  {
    assert PrescriptionStatusName(RxActive) == NewPrescription(id, caller, b, freshId, nowMs).status;
  }
}
