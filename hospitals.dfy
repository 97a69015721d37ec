/** `/api/hospitals`: the active hospitals, and an administrator registering a new one. */
module HospitalsRoute {
  import opened Wrappers
  import opened JsString
  import opened Http
  import opened Types
  import opened Query
  import opened Auth
  import opened Db
  import opened Guards

  predicate IsActive(h: Hospital) { h.status == HospitalStatusName(HospitalActive) }

  /** `GET /api/hospitals`: any signed-in caller; `find({status: "active"})`. */
  function Get(db: Db, session: Option<UserPayload>): (r: Reply<seq<Hospital>>)
    ensures session.None? ==> r == Err(Unauthorized, "Unauthorized")
    ensures session.Some? ==> r.Ok?
    ensures r.Ok? ==>
      && SubsequenceOf(r.value, db.hospitals)
      && forall h :: h in r.value <==> h in db.hospitals && IsActive(h)
  {
    if session.None? then Err(Unauthorized, "Unauthorized")
    else
      FilterIsSubsequence(db.hospitals, IsActive);
      Ok(Filter(db.hospitals, IsActive))
  }

  /** The fields of the POST body the route reads. Arrays and objects are always truthy, so
      `departments || []` keeps any array given. */
  datatype HospitalBody = HospitalBody(
    name: Option<string>,
    address: Option<string>,
    phone: Option<string>,
    email: Option<string>,
    registrationNumber: Option<string>,
    kind: Option<string>,
    departments: Option<seq<string>>,
    facilities: Option<seq<string>>,
    operatingHours: Option<OperatingHours>)

  predicate Complete(b: HospitalBody) {
    Truthy(b.name) && Truthy(b.address) && Truthy(b.phone) && Truthy(b.email) && Truthy(b.registrationNumber)
  }

  const DefaultHours := OperatingHours("09:00", "17:00")

  /** The hospital the route inserts: the given fields, the defaults for the missing optional
      ones, and always active. */
  function NewHospital(id: Id, b: HospitalBody, nowMs: Timestamp): (h: Hospital)
    requires Complete(b)
    ensures h.id == id && h.name == b.name.value && h.address == b.address.value
    ensures h.phone == b.phone.value && h.email == b.email.value && h.registrationNumber == b.registrationNumber.value
    ensures h.kind == (if Truthy(b.kind) then b.kind.value else HospitalTypeName(Private))
    ensures h.departments == (if b.departments.Some? then b.departments.value else [])
    ensures h.facilities == (if b.facilities.Some? then b.facilities.value else [])
    ensures h.operatingHours == (if b.operatingHours.Some? then b.operatingHours.value else OperatingHours("09:00", "17:00"))
    ensures IsActive(h)
    ensures h.createdAt == nowMs && h.updatedAt == nowMs
  {
    Hospital(id, b.name.value, b.address.value, b.phone.value, b.email.value, b.registrationNumber.value,
      if Truthy(b.kind) then b.kind.value else "private",
      if b.departments.Some? then b.departments.value else [],
      if b.facilities.Some? then b.facilities.value else [],
      if b.operatingHours.Some? then b.operatingHours.value else DefaultHours,
      "active", nowMs, nowMs)
  }

  /** `POST /api/hospitals`. The clock and the inserted id are inputs; the answer is the
      inserted document. */
  method Post(store: Store, session: Option<UserPayload>, body: HospitalBody, nowMs: Timestamp, newId: Id)
    returns (r: Reply<Hospital>)
    modifies store
    ensures !HasRole(session, Admin) ==> r == Err(Unauthorized, "Unauthorized")
    ensures HasRole(session, Admin) && !Complete(body) ==> r == Err(BadRequest, "Missing required fields")
    ensures HasRole(session, Admin) && Complete(body) ==> r.Ok?
    ensures r.Err? ==> store.Snapshot() == old(store.Snapshot())
    ensures r.Ok? ==>
      && HasRole(session, Admin) && Complete(body)
      && r.value == NewHospital(newId, body, nowMs)
      && store.Snapshot() == old(store.Snapshot()).(hospitals := old(store.hospitals) + [r.value])
  {
    if !HasRole(session, Admin) {
      return Err(Unauthorized, "Unauthorized");
    }
    if !Complete(body) {
      return Err(BadRequest, "Missing required fields");
    }
    var h := NewHospital(newId, body, nowMs);
    store.hospitals := store.hospitals + [h];
    r := Ok(h);
  }

  /** A created hospital is listed by every later GET, after all the hospitals listed before
      it. */
  lemma CreatedIsListed(db: Db, session: Option<UserPayload>, id: Id, b: HospitalBody, nowMs: Timestamp)
    requires session.Some? && Complete(b)
    ensures var after := db.(hospitals := db.hospitals + [NewHospital(id, b, nowMs)]);
      Get(after, session) == Ok(Get(db, session).value + [NewHospital(id, b, nowMs)])
  {
    FilterSnoc(db.hospitals, IsActive, NewHospital(id, b, nowMs));
  }
}
