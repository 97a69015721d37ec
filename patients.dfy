/** `GET /api/patients`: every patient, for any doctor, without their passwords. */
module PatientsRoute {
  import opened Wrappers
  import opened Http
  import opened Types
  import opened Query
  import opened Auth
  import opened Db
  import opened Guards

  predicate IsPatient(u: User) { u.role == RoleName(Patient) }

  /** `find({role: "patient"}, {projection: {password: 0}})`: no scoping by the caller. */
  function Get(db: Db, session: Option<UserPayload>): (r: Reply<seq<UserView>>)
    ensures !HasRole(session, Doctor) ==> r == Err(Unauthorized, "Unauthorized")
    ensures HasRole(session, Doctor) ==> r.Ok?
    ensures r.Ok? ==> forall v :: v in r.value <==> exists u :: u in db.users && IsPatient(u) && View(u) == v
  {
    if !HasRole(session, Doctor) then Err(Unauthorized, "Unauthorized")
    else
      var found := Filter(db.users, IsPatient);
      assert forall v :: v in Views(found) <==> exists u :: u in db.users && IsPatient(u) && View(u) == v by {
        forall v ensures v in Views(found) <==> exists u :: u in db.users && IsPatient(u) && View(u) == v {
          ViewsMembership(found, v);
        }
      }
      Ok(Views(found))
  }

  /** The listing does not depend on which doctor asks: every doctor sees every patient. */
  lemma SameForEveryDoctor(db: Db, p: UserPayload, q: UserPayload)
    requires p.role == RoleName(Doctor) && q.role == RoleName(Doctor)
    ensures Get(db, Some(p)) == Get(db, Some(q))
  {
  }
}
