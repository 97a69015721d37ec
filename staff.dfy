/** `/api/admin/staff`: an administrator creates doctor and pharmacist accounts and lists
    them. */
module AdminStaffRoute {
  import opened Wrappers
  import opened JsString
  import opened Http
  import opened Password
  import opened Types
  import opened Query
  import opened Auth
  import opened Db
  import opened Guards

  /** The fields of the POST body. */
  datatype StaffBody = StaffBody(
    email: Option<string>,
    password: Option<string>,
    name: Option<string>,
    role: Option<string>,
    phone: Option<string>,
    dateOfBirth: Option<string>,
    gender: Option<string>,
    specialization: Option<string>,
    licenseNumber: Option<string>,
    department: Option<string>,
    hospitalId: Option<Id>)

  predicate Complete(b: StaffBody) {
    Truthy(b.email) && Truthy(b.password) && Truthy(b.name) && Truthy(b.role)
  }

  /** `["doctor", "pharmacist"].includes(role)`. */
  predicate IsStaffRole(role: string) {
    role == RoleName(Doctor) || role == RoleName(Pharmacist)
  }

  /** The account the route inserts: the given fields as given, `hospitalId` only when
      non-empty, the password hashed. */
  function NewStaff(id: Id, b: StaffBody, salt: nat, nowMs: Timestamp): (u: User)
    requires Complete(b)
    ensures u.id == id && u.email == b.email.value && u.name == b.name.value && u.role == b.role.value
    ensures VerifyPassword(b.password.value, u.password)
    ensures u.profile.hospitalId == (if Truthy(b.hospitalId) then b.hospitalId else None)
    ensures u.profile.phone == b.phone && u.profile.specialization == b.specialization
    ensures u.profile.licenseNumber == b.licenseNumber && u.profile.department == b.department
  {
    User(id, b.email.value, HashPassword(b.password.value, salt), b.role.value, b.name.value,
      EmptyProfile.(phone := b.phone, dateOfBirth := b.dateOfBirth, gender := b.gender,
        specialization := b.specialization, licenseNumber := b.licenseNumber, department := b.department,
        hospitalId := if Truthy(b.hospitalId) then b.hospitalId else None),
      nowMs, nowMs)
  }

  /** `POST /api/admin/staff`. The salt, the clock and the inserted id are inputs. */
  method Post(store: Store, session: Option<UserPayload>, body: StaffBody, salt: nat, nowMs: Timestamp, newId: Id)
    returns (r: Reply<Account>)
    modifies store
    ensures !HasRole(session, Admin) ==> r == Err(Unauthorized, "Unauthorized - Admin only")
    ensures HasRole(session, Admin) && !Complete(body) ==> r == Err(BadRequest, "Missing required fields")
    ensures HasRole(session, Admin) && Complete(body) && !IsStaffRole(body.role.value) ==>
      r == Err(BadRequest, "Invalid role. Only doctor and pharmacist allowed")
    ensures HasRole(session, Admin) && Complete(body) && IsStaffRole(body.role.value) ==>
      (r == Err(BadRequest, "User already exists") <==> exists u :: u in old(store.users) && u.email == body.email.value)
    ensures
      (&& HasRole(session, Admin) && Complete(body) && IsStaffRole(body.role.value)
       && forall u :: u in old(store.users) ==> u.email != body.email.value)
      ==> r.Ok?
    ensures r.Err? ==> store.Snapshot() == old(store.Snapshot())
    ensures r.Ok? ==>
      && HasRole(session, Admin) && Complete(body) && IsStaffRole(body.role.value)
      && r.value == Account(newId, body.email.value, body.name.value, body.role.value)
      && store.Snapshot() == old(store.Snapshot()).(users := old(store.users) + [NewStaff(newId, body, salt, nowMs)])
      && (EmailsUnique(old(store.users)) ==> EmailsUnique(store.users))
  {
    if !HasRole(session, Admin) {
      return Err(Unauthorized, "Unauthorized - Admin only");
    }
    if !Complete(body) {
      return Err(BadRequest, "Missing required fields");
    }
    if !IsStaffRole(body.role.value) {
      return Err(BadRequest, "Invalid role. Only doctor and pharmacist allowed");
    }
    if UserByEmail(store.users, body.email.value).Some? {
      return Err(BadRequest, "User already exists");
    }
    var u := NewStaff(newId, body, salt, nowMs);
    if EmailsUnique(store.users) {
      AppendKeepsEmailsUnique(store.users, u);
    }
    store.users := store.users + [u];
    r := Ok(Account(newId, body.email.value, body.name.value, body.role.value));
  }

  /** Every account this route creates is a doctor or a pharmacist. */
  lemma CreatesOnlyStaff(id: Id, b: StaffBody, salt: nat, nowMs: Timestamp)
    requires Complete(b) && IsStaffRole(b.role.value)
    ensures ConformsRole(NewStaff(id, b, salt, nowMs).role)
    ensures NewStaff(id, b, salt, nowMs).role != RoleName(Admin) && NewStaff(id, b, salt, nowMs).role != RoleName(Patient)
  {
  }

  /** `GET /api/admin/staff`: every doctor and pharmacist, in stored order, as stored: no
      projection, so each carries its password hash. */
  function Get(db: Db, session: Option<UserPayload>): (r: Reply<seq<User>>)
    ensures !HasRole(session, Admin) ==> r == Err(Unauthorized, "Unauthorized")
    ensures HasRole(session, Admin) ==> r.Ok?
    ensures r.Ok? ==>
      && SubsequenceOf(r.value, db.users)
      && forall u :: u in r.value <==> u in db.users && IsStaffRole(u.role)
  {
    if !HasRole(session, Admin) then Err(Unauthorized, "Unauthorized")
    else
      FilterIsSubsequence(db.users, (u: User) => IsStaffRole(u.role));
      Ok(Filter(db.users, (u: User) => IsStaffRole(u.role)))
  }
}
