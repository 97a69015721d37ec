/** `POST /api/health-card/scan`: a doctor presents a card number and receives the card, its
    patient and the patient's most recent records, prescriptions and appointments. */
module HealthCardScanRoute {
  import opened Wrappers
  import opened JsString
  import opened Http
  import opened Types
  import opened Query
  import opened Auth
  import opened Db
  import opened Guards

  /** The patient object of the response: an explicit list of fields, without the password. */
  datatype PatientSummary = PatientSummary(
    id: Id,
    name: string,
    email: string,
    phone: Option<string>,
    dateOfBirth: Option<string>,
    gender: Option<string>,
    address: Option<string>,
    allergies: Option<string>,
    bloodGroup: Option<string>,
    medicalHistory: Option<string>,
    emergencyContact: Option<string>)

  function Summary(u: User): (s: PatientSummary)
    ensures s.id == u.id && s.name == u.name && s.email == u.email
    ensures s.phone == u.profile.phone && s.dateOfBirth == u.profile.dateOfBirth
    ensures s.gender == u.profile.gender && s.address == u.profile.address
    ensures s.allergies == u.profile.allergies && s.bloodGroup == u.profile.bloodGroup
    ensures s.medicalHistory == u.profile.medicalHistory && s.emergencyContact == u.profile.emergencyContact
  {
    var p := u.profile;
    PatientSummary(u.id, u.name, u.email, p.phone, p.dateOfBirth, p.gender, p.address,
      p.allergies, p.bloodGroup, p.medicalHistory, p.emergencyContact)
  }

  datatype ScanResult = ScanResult(
    patient: PatientSummary,
    healthCard: HealthCard,
    medicalHistory: seq<MedicalRecord>,
    prescriptions: seq<Prescription>,
    appointments: seq<Appointment>)

  const HistoryLimit: nat := 10
  const PrescriptionLimit: nat := 10
  const AppointmentLimit: nat := 5

  /** The three bounded histories of patient `pid`. */
  function Histories(db: Db, pid: Id): (r: (seq<MedicalRecord>, seq<Prescription>, seq<Appointment>))
    ensures NewestOf(r.0, db.medicalRecords, (m: MedicalRecord) => m.patientId == pid, RecordCreatedAt, HistoryLimit)
    ensures NewestOf(r.1, db.prescriptions, (x: Prescription) => x.patientId == pid, PrescriptionCreatedAt, PrescriptionLimit)
    ensures NewestOf(r.2, db.appointments, (a: Appointment) => a.patientId == pid, AppointmentDate, AppointmentLimit)
  {
    var ofRecord := (m: MedicalRecord) => m.patientId == pid;
    var ofPrescription := (x: Prescription) => x.patientId == pid;
    var ofAppointment := (a: Appointment) => a.patientId == pid;
    NewestMatching(db.medicalRecords, ofRecord, RecordCreatedAt, HistoryLimit);
    NewestMatching(db.prescriptions, ofPrescription, PrescriptionCreatedAt, PrescriptionLimit);
    NewestMatching(db.appointments, ofAppointment, AppointmentDate, AppointmentLimit);
    (Take(SortDesc(Filter(db.medicalRecords, ofRecord), RecordCreatedAt), HistoryLimit),
     Take(SortDesc(Filter(db.prescriptions, ofPrescription), PrescriptionCreatedAt), PrescriptionLimit),
     Take(SortDesc(Filter(db.appointments, ofAppointment), AppointmentDate), AppointmentLimit))
  }

  /** The handler. `cardNumber` is the body's field (None when absent); the handler only reads. */
  function Scan(db: Db, session: Option<UserPayload>, cardNumber: Option<string>): (r: Reply<ScanResult>)
    ensures !HasRole(session, Doctor) ==> r == Err(Unauthorized, "Unauthorized - Doctor access only")
    ensures HasRole(session, Doctor) && !Truthy(cardNumber) ==> r == Err(BadRequest, "Card number is required")
    ensures HasRole(session, Doctor) && Truthy(cardNumber) ==>
      (r == Err(NotFound, "Invalid health card") <==> forall c :: c in db.healthCards ==> c.cardNumber != cardNumber.value)
    ensures r == Err(NotFound, "Patient not found") <==>
      HasRole(session, Doctor) && Truthy(cardNumber)
      && (exists c :: c in db.healthCards && c.cardNumber == cardNumber.value)
      && UserById(db.users, FindOne(db.healthCards, (c: HealthCard) => c.cardNumber == cardNumber.value).value.patientId).None?
    ensures r.Ok? ==>
      var pid := r.value.healthCard.patientId;
      && HasRole(session, Doctor) && Truthy(cardNumber)
      && r.value.healthCard in db.healthCards && r.value.healthCard.cardNumber == cardNumber.value
      && r.value.patient.id == pid
      && (exists u :: u in db.users && Summary(u) == r.value.patient)
      && NewestOf(r.value.medicalHistory, db.medicalRecords, (m: MedicalRecord) => m.patientId == pid, RecordCreatedAt, HistoryLimit)
      && NewestOf(r.value.prescriptions, db.prescriptions, (x: Prescription) => x.patientId == pid, PrescriptionCreatedAt, PrescriptionLimit)
      && NewestOf(r.value.appointments, db.appointments, (a: Appointment) => a.patientId == pid, AppointmentDate, AppointmentLimit)
  {
    if !HasRole(session, Doctor) then Err(Unauthorized, "Unauthorized - Doctor access only")
    else if !Truthy(cardNumber) then Err(BadRequest, "Card number is required")
    else match FindOne(db.healthCards, (c: HealthCard) => c.cardNumber == cardNumber.value)
      case None => Err(NotFound, "Invalid health card")
      case Some(card) =>
        match UserById(db.users, card.patientId)
        case None => Err(NotFound, "Patient not found")
        case Some(patient) =>
          var h := Histories(db, card.patientId);
          Ok(ScanResult(Summary(patient), card, h.0, h.1, h.2))
  }

  /** Every returned item belongs to the card's patient, and the lists respect their limits. */
  lemma ScanScoped(db: Db, session: Option<UserPayload>, cardNumber: Option<string>)
    requires Scan(db, session, cardNumber).Ok?
    ensures var res := Scan(db, session, cardNumber).value;
      && |res.medicalHistory| <= HistoryLimit && |res.prescriptions| <= PrescriptionLimit
      && |res.appointments| <= AppointmentLimit
      && (forall m :: m in res.medicalHistory ==> m in db.medicalRecords && m.patientId == res.healthCard.patientId)
      && (forall x :: x in res.prescriptions ==> x in db.prescriptions && x.patientId == res.healthCard.patientId)
      && (forall a :: a in res.appointments ==> a in db.appointments && a.patientId == res.healthCard.patientId)
  {
  }
}
