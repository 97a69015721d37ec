/** `GET /api/doctors`: the doctors, optionally of one department, without their passwords. */
module DoctorsRoute {
  import opened Wrappers
  import opened JsString
  import opened Http
  import opened Types
  import opened Query
  import opened Auth
  import opened Db

  /** The `query` document: `role` always, `department` when the parameter is given. */
  datatype DoctorQuery = DoctorQuery(role: string, department: Option<string>)

  predicate Matches(q: DoctorQuery, u: User) {
    u.role == q.role && (q.department.Some? ==> u.profile.department == q.department)
  }

  /** What the route is meant to list: doctors, of the given department when there is one. */
  predicate Wanted(department: Option<string>, u: User) {
    u.role == RoleName(Doctor) && (Truthy(department) ==> u.profile.department == department)
  }

  method BuildQuery(department: Option<string>) returns (q: DoctorQuery)
    ensures forall u :: Matches(q, u) <==> Wanted(department, u)
  {
    q := DoctorQuery("doctor", None);
    if Truthy(department) {
      q := q.(department := department);
    }
  }

  /** `GET /api/doctors?department=...`. */
  method Get(db: Db, session: Option<UserPayload>, department: Option<string>) returns (r: Reply<seq<UserView>>)
    ensures session.None? ==> r == Err(Unauthorized, "Unauthorized")
    ensures session.Some? ==> r.Ok?
    ensures r.Ok? ==>
      && (forall v :: v in r.value ==> v.role == RoleName(Doctor))
      && (Truthy(department) ==> forall v :: v in r.value ==> v.profile.department == department)
      && (forall v :: v in r.value <==> exists u :: u in db.users && Wanted(department, u) && View(u) == v)
  {
    if session.None? {
      return Err(Unauthorized, "Unauthorized");
    }
    var q := BuildQuery(department);
    var found := Filter(db.users, (u: User) => Matches(q, u));
    forall v ensures v in Views(found) <==> exists u :: u in db.users && Wanted(department, u) && View(u) == v {
      ViewsMembership(found, v);
    }
    r := Ok(Views(found));
  }
}
