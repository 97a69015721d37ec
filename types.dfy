/** The documents of the application's collections and the enumerations their fields are
    declared with. A field the routes fill from a request body without checking it (a role,
    a gender, a payment method, a hospital type) is stored as the string the body gave; the
    declared enumeration is its set of names, and `Conforms...` says a stored value lies in it. */
module Types {
  import opened Wrappers
  import opened Password

  /** An ObjectId, compared and printed as its hexadecimal string. */
  type Id = string

  /** A `Date`, as milliseconds since the epoch. */
  type Timestamp = int

  // ---- enumerations -----------------------------------------------------------------

  datatype Role = Patient | Doctor | Admin | Pharmacist

  const Roles: seq<Role> := [Patient, Doctor, Admin, Pharmacist]

  function RoleName(r: Role): string {
    match r
    case Patient => "patient"
    case Doctor => "doctor"
    case Admin => "admin"
    case Pharmacist => "pharmacist"
  }

  function ParseRole(s: string): (r: Option<Role>)
    ensures r.Some? ==> RoleName(r.value) == s
    ensures r.None? ==> forall x: Role :: RoleName(x) != s
  {
    if s == "patient" then Some(Patient)
    else if s == "doctor" then Some(Doctor)
    else if s == "admin" then Some(Admin)
    else if s == "pharmacist" then Some(Pharmacist)
    else None
  }

  /** Distinct roles have distinct names, so a role is recovered from its name. */
  lemma RoleNameParses(r: Role)
    ensures ParseRole(RoleName(r)) == Some(r)
  {
  }

  predicate ConformsRole(s: string) { ParseRole(s).Some? }

  datatype AppointmentStatus = Scheduled | Completed | Cancelled | NoShow

  function AppointmentStatusName(s: AppointmentStatus): string {
    match s
    case Scheduled => "scheduled"
    case Completed => "completed"
    case Cancelled => "cancelled"
    case NoShow => "no-show"
  }

  predicate ConformsAppointmentStatus(s: string) {
    exists x: AppointmentStatus :: AppointmentStatusName(x) == s
  }

  datatype PrescriptionStatus = RxActive | RxCompleted | RxCancelled

  function PrescriptionStatusName(s: PrescriptionStatus): string {
    match s
    case RxActive => "active"
    case RxCompleted => "completed"
    case RxCancelled => "cancelled"
  }

  predicate ConformsPrescriptionStatus(s: string) {
    exists x: PrescriptionStatus :: PrescriptionStatusName(x) == s
  }

  datatype PaymentMethod = Card | Cash | Insurance

  function PaymentMethodName(m: PaymentMethod): string {
    match m
    case Card => "card"
    case Cash => "cash"
    case Insurance => "insurance"
  }

  predicate ConformsPaymentMethod(s: string) {
    exists x: PaymentMethod :: PaymentMethodName(x) == s
  }

  datatype PaymentStatus = PayPending | PayCompleted | PayFailed | PayRefunded

  function PaymentStatusName(s: PaymentStatus): string {
    match s
    case PayPending => "pending"
    case PayCompleted => "completed"
    case PayFailed => "failed"
    case PayRefunded => "refunded"
  }

  predicate ConformsPaymentStatus(s: string) {
    exists x: PaymentStatus :: PaymentStatusName(x) == s
  }

  datatype HospitalType = Government | Private | Clinic

  function HospitalTypeName(t: HospitalType): string {
    match t
    case Government => "government"
    case Private => "private"
    case Clinic => "clinic"
  }

  predicate ConformsHospitalType(s: string) {
    exists x: HospitalType :: HospitalTypeName(x) == s
  }

  datatype HospitalStatus = HospitalActive | HospitalInactive

  function HospitalStatusName(s: HospitalStatus): string {
    match s
    case HospitalActive => "active"
    case HospitalInactive => "inactive"
  }

  datatype Gender = Male | Female | Other

  function GenderName(g: Gender): string {
    match g
    case Male => "male"
    case Female => "female"
    case Other => "other"
  }

  /** Each enumeration's names are pairwise distinct, so every name function is injective. */
  lemma EnumerationNamesInjective()
    ensures forall a: Role, b: Role :: RoleName(a) == RoleName(b) ==> a == b
    ensures forall a: AppointmentStatus, b: AppointmentStatus ::
      AppointmentStatusName(a) == AppointmentStatusName(b) ==> a == b
    ensures forall a: PrescriptionStatus, b: PrescriptionStatus ::
      PrescriptionStatusName(a) == PrescriptionStatusName(b) ==> a == b
    ensures forall a: PaymentMethod, b: PaymentMethod :: PaymentMethodName(a) == PaymentMethodName(b) ==> a == b
    ensures forall a: PaymentStatus, b: PaymentStatus :: PaymentStatusName(a) == PaymentStatusName(b) ==> a == b
    ensures forall a: HospitalType, b: HospitalType :: HospitalTypeName(a) == HospitalTypeName(b) ==> a == b
    ensures forall a: HospitalStatus, b: HospitalStatus ::
      HospitalStatusName(a) == HospitalStatusName(b) ==> a == b
    ensures forall a: Gender, b: Gender :: GenderName(a) == GenderName(b) ==> a == b
  {
  }

  // ---- documents ----------------------------------------------------------------------

  datatype OperatingHours = OperatingHours(open: string, close: string)

  datatype Hospital = Hospital(
    id: Id,
    name: string,
    address: string,
    phone: string,
    email: string,
    registrationNumber: string,
    kind: string,
    departments: seq<string>,
    facilities: seq<string>,
    operatingHours: OperatingHours,
    status: string,
    createdAt: Timestamp,
    updatedAt: Timestamp)

  /** The optional profile fields a user document may carry. */
  datatype Profile = Profile(
    phone: Option<string>,
    dateOfBirth: Option<string>,
    gender: Option<string>,
    address: Option<string>,
    profileImage: Option<string>,
    specialization: Option<string>,
    licenseNumber: Option<string>,
    department: Option<string>,
    hospitalId: Option<Id>,
    allergies: Option<string>,
    bloodGroup: Option<string>,
    medicalHistory: Option<string>,
    emergencyContact: Option<string>)

  const EmptyProfile := Profile(None, None, None, None, None, None, None, None, None, None, None, None, None)

  datatype User = User(
    id: Id,
    email: string,
    password: PasswordHash,
    role: string,
    name: string,
    profile: Profile,
    createdAt: Timestamp,
    updatedAt: Timestamp)

  /** A user document read with `{projection: {password: 0}}`: every field but the hash. */
  datatype UserView = UserView(
    id: Id,
    email: string,
    role: string,
    name: string,
    profile: Profile,
    createdAt: Timestamp,
    updatedAt: Timestamp)

  function View(u: User): (v: UserView)
    ensures v.id == u.id && v.email == u.email && v.role == u.role && v.name == u.name
    ensures v.profile == u.profile && v.createdAt == u.createdAt && v.updatedAt == u.updatedAt
  {
    UserView(u.id, u.email, u.role, u.name, u.profile, u.createdAt, u.updatedAt)
  }

  /** The projection forgets the password and nothing else: two users have the same view
      exactly when they differ at most in their password. */
  lemma ViewForgetsOnlyPassword(u: User, w: User)
    ensures View(u) == View(w) <==> u.(password := w.password) == w
  {
  }

  datatype Appointment = Appointment(
    id: Id,
    patientId: Id,
    doctorId: Id,
    date: Timestamp,
    time: string,
    status: string,
    reason: string,
    notes: Option<string>,
    paymentStatus: Option<string>,
    paymentId: Option<Id>,
    createdAt: Timestamp,
    updatedAt: Timestamp)

  datatype MedicalRecord = MedicalRecord(
    id: Id,
    patientId: Id,
    doctorId: Id,
    appointmentId: Option<Id>,
    diagnosis: string,
    symptoms: seq<string>,
    treatment: string,
    prescriptions: seq<Id>,
    labResults: Option<string>,
    notes: Option<string>,
    createdAt: Timestamp,
    updatedAt: Timestamp)

  datatype Prescription = Prescription(
    id: Id,
    patientId: Id,
    doctorId: Id,
    medicineId: Id,
    medicineName: string,
    dosage: string,
    frequency: string,
    duration: string,
    instructions: Option<string>,
    status: string,
    createdAt: Timestamp,
    updatedAt: Timestamp)

  datatype Medicine = Medicine(
    id: Id,
    name: string,
    genericName: string,
    manufacturer: string,
    category: string,
    price: int,
    stock: int,
    description: Option<string>,
    sideEffects: seq<string>,
    createdAt: Timestamp,
    updatedAt: Timestamp)

  datatype Payment = Payment(
    id: Id,
    userId: Id,
    appointmentId: Option<Id>,
    amount: int,
    paymentMethod: string,
    status: string,
    transactionId: Option<string>,
    createdAt: Timestamp,
    updatedAt: Timestamp)

  datatype EmergencyContact = EmergencyContact(name: string, phone: string, relationship: string)

  /** The QR code of a card; the model keeps the data it encodes, not the image URL. */
  datatype QrCode = QrCode(payload: string)

  datatype HealthCard = HealthCard(
    id: Id,
    patientId: Id,
    cardNumber: string,
    qrCode: QrCode,
    bloodGroup: Option<string>,
    allergies: Option<seq<string>>,
    emergencyContact: Option<EmergencyContact>,
    medicalConditions: Option<seq<string>>,
    createdAt: Timestamp,
    updatedAt: Timestamp)

  // ---- the sort keys of `sort({key: -1})` ---------------------------------------------

  function AppointmentDate(a: Appointment): int { a.date }
  function AppointmentCreatedAt(a: Appointment): int { a.createdAt }
  function RecordCreatedAt(m: MedicalRecord): int { m.createdAt }
  function PrescriptionCreatedAt(x: Prescription): int { x.createdAt }
  function PaymentCreatedAt(x: Payment): int { x.createdAt }
}
