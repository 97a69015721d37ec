/** `GET /api/admin/appointments`: every appointment, latest date first, with its patient and
    its doctor. */
module AdminAppointmentsRoute {
  import opened Wrappers
  import opened Http
  import opened Types
  import opened Query
  import opened Auth
  import opened Db
  import opened Guards

  function Get(db: Db, session: Option<UserPayload>): (r: Reply<seq<Populated<Appointment>>>)
    ensures !HasRole(session, Admin) ==> r == Err(Unauthorized, "Unauthorized")
    ensures HasRole(session, Admin) ==>
      && r.Ok?
      && SortedDesc(Docs(r.value), AppointmentDate)
      && multiset(Docs(r.value)) == multiset(db.appointments)
      && (forall i :: 0 <= i < |r.value| ==>
            r.value[i].patient == UserViewById(db.users, r.value[i].doc.patientId)
            && r.value[i].doctor == UserViewById(db.users, r.value[i].doc.doctorId))
  {
    if !HasRole(session, Admin) then Err(Unauthorized, "Unauthorized")
    else Ok(Populate(db.users, SortDesc(db.appointments, AppointmentDate), (a: Appointment) => a.patientId, (a: Appointment) => a.doctorId))
  }
}
