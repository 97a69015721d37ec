/** The doctor's dashboard: the appointment counts it shows and the requests it sends to
    complete an appointment, to write a medical record and to prescribe. */
module DoctorDashboardPage {
  import opened Wrappers
  import opened JsString
  import opened Types
  import opened Query
  import opened Auth
  import opened Db
  import MedicalRecordsCreateRoute
  import PrescriptionsCreateRoute

  // ---- counts ------------------------------------------------------------------------------

  /** `appointments.filter((apt) => apt.status === status)`. */
  function WithStatus(appointments: seq<Populated<Appointment>>, status: string): (r: seq<Populated<Appointment>>)
    ensures forall x :: multiset(r)[x] == if x.doc.status == status then multiset(appointments)[x] else 0
  {
    var keep := (x: Populated<Appointment>) => x.doc.status == status;
    forall x { FilterMultiplicity(appointments, keep, x); }
    Filter(appointments, keep)
  }

  /** The "Pending" and "Completed" figures. */
  function PendingCount(appointments: seq<Populated<Appointment>>): nat {
    |WithStatus(appointments, AppointmentStatusName(Scheduled))|
  }

  function CompletedCount(appointments: seq<Populated<Appointment>>): nat {
    |WithStatus(appointments, AppointmentStatusName(Completed))|
  }

  /** An appointment is counted at most once, in at most one of the two figures, so the two
      never add up to more than the appointments shown. */
  lemma CountsPartition(appointments: seq<Populated<Appointment>>)
    ensures PendingCount(appointments) + CompletedCount(appointments) <= |appointments|
  {
    var s := WithStatus(appointments, "scheduled");
    var c := WithStatus(appointments, "completed");
    assert multiset(s) + multiset(c) <= multiset(appointments) by {
      forall x ensures (multiset(s) + multiset(c))[x] <= multiset(appointments)[x] {
      }
    }
    assert |multiset(s) + multiset(c)| <= |multiset(appointments)| by {
      MultisetSizeMonotone(multiset(s) + multiset(c), multiset(appointments));
    }
  }

  lemma MultisetSizeMonotone<T>(a: multiset<T>, b: multiset<T>)
    requires a <= b
    ensures |a| <= |b|
  {
    assert b == a + (b - a);
  }

  // ---- completing an appointment -----------------------------------------------------------

  /** The PATCH `handleCompleteAppointment` sends: the appointment's URL, and a body holding
      the status and nothing else. */
  function CompleteRequest(appointmentId: Id): (r: (string, map<string, string>))
    ensures r.0 == "/api/appointments/" + appointmentId
    ensures r.1.Keys == {"status"} && r.1["status"] == AppointmentStatusName(Completed)
  {
    ("/api/appointments/" + appointmentId, map["status" := "completed"])
  }

  // ---- the medical-record form -----------------------------------------------------------

  datatype RecordForm = RecordForm(diagnosis: string, symptoms: string, treatment: string, labResults: string, notes: string)

  /** The body the record modal posts. Reading `appointment.patient._id` of an appointment
      whose patient was not found throws, and no request is sent: None. */
  function RecordPayload(apt: Populated<Appointment>, f: RecordForm): (b: Option<MedicalRecordsCreateRoute.RecordBody>)
    ensures apt.patient.None? <==> b.None?
    ensures b.Some? ==>
      && b.value.patientId == Some(apt.patient.value.id) && b.value.appointmentId == Some(apt.doc.id)
      && b.value.symptoms == Some(MedicalRecordsCreateRoute.Many(SplitAndTrim(f.symptoms)))
      && b.value.diagnosis == Some(f.diagnosis) && b.value.treatment == Some(f.treatment)
      && b.value.labResults == Some(f.labResults) && b.value.notes == Some(f.notes)
      && b.value.prescriptions.None?
  {
    match apt.patient
    case None => None
    case Some(p) =>
      Some(MedicalRecordsCreateRoute.RecordBody(Some(p.id), Some(apt.doc.id), Some(f.diagnosis),
        Some(MedicalRecordsCreateRoute.Many(SplitAndTrim(f.symptoms))), Some(f.treatment), None,
        Some(f.labResults), Some(f.notes)))
  }

  /** A record written from a populated appointment names that appointment's patient and the
      appointment itself; its symptoms are the comma-separated pieces, trimmed, so an empty
      input is stored as [""] (an array is always present) and no prescriptions are attached. */
  lemma RecordFromAppointment(users: seq<User>, apt: Populated<Appointment>, f: RecordForm,
                              caller: UserPayload, id: Id, nowMs: Timestamp)
    requires apt.patient == UserViewById(users, apt.doc.patientId) && apt.patient.Some?
    requires apt.doc.patientId != "" && apt.doc.id != "" && f.diagnosis != "" && f.treatment != ""
    ensures RecordPayload(apt, f).Some? && MedicalRecordsCreateRoute.Complete(RecordPayload(apt, f).value)
    ensures var m := MedicalRecordsCreateRoute.NewRecord(id, caller, RecordPayload(apt, f).value, nowMs);
      && m.patientId == apt.doc.patientId && m.appointmentId == Some(apt.doc.id)
      && |m.symptoms| == Count(f.symptoms, ',') + 1
      && (f.symptoms == "" ==> m.symptoms == [""])
      && m.prescriptions == []
  {
  }

  // ---- the prescription form ---------------------------------------------------------------

  datatype PrescriptionForm = PrescriptionForm(medicineName: string, dosage: string, frequency: string, duration: string, instructions: string)

  /** The body the prescription modal posts: the selected patient's id and the form; no
      medicine id. */
  function PrescriptionPayload(patient: UserView, f: PrescriptionForm): (b: PrescriptionsCreateRoute.PrescriptionBody)
    ensures b.patientId == Some(patient.id) && b.medicineId.None?
    ensures b.medicineName == Some(f.medicineName) && b.dosage == Some(f.dosage)
    ensures b.frequency == Some(f.frequency) && b.duration == Some(f.duration)
    ensures b.instructions == Some(f.instructions)
  {
    PrescriptionsCreateRoute.PrescriptionBody(Some(patient.id), None, Some(f.medicineName), Some(f.dosage),
      Some(f.frequency), Some(f.duration), Some(f.instructions))
  }

  /** The page never names a medicine by id, so every prescription it creates points to a
      freshly drawn id rather than to a catalogue entry. */
  lemma PrescriptionGetsFreshMedicine(patient: UserView, f: PrescriptionForm, caller: UserPayload,
                                      id: Id, freshId: Id, nowMs: Timestamp)
    requires PrescriptionsCreateRoute.Complete(PrescriptionPayload(patient, f))
    ensures var x := PrescriptionsCreateRoute.NewPrescription(id, caller, PrescriptionPayload(patient, f), freshId, nowMs);
      x.medicineId == freshId && x.patientId == patient.id
  {
  }
}
