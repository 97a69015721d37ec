/** `/api/appointments`: the caller's appointments, newest first, and booking a new one. */
module AppointmentsRoute {
  import opened Wrappers
  import opened JsString
  import opened Http
  import opened Types
  import opened Query
  import opened Auth
  import opened Db
  import opened Guards

  // ---- GET ---------------------------------------------------------------------------------

  /** The `query` document of GET: the row scope and, when given, the status. */
  datatype AppointmentQuery = AppointmentQuery(rows: RowQuery, status: Option<string>)

  predicate Matches(q: AppointmentQuery, a: Appointment) {
    RowMatches(q.rows, a.patientId, a.doctorId) && (q.status.Some? ==> a.status == q.status.value)
  }

  /** What GET is meant to return: the caller's rows, restricted to `status` when the
      parameter is non-empty. */
  predicate Visible(caller: UserPayload, status: Option<string>, a: Appointment) {
    InScope(caller, a.patientId, a.doctorId) && (Truthy(status) ==> a.status == status.value)
  }

  method BuildQuery(caller: UserPayload, status: Option<string>) returns (q: AppointmentQuery)
    ensures forall a :: Matches(q, a) <==> Visible(caller, status, a)
  {
    var rows := BuildRowQuery(caller);
    q := AppointmentQuery(rows, None);
    if Truthy(status) {
      q := q.(status := status);
    }
  }

  /** `GET /api/appointments?status=...`. */
  method Get(db: Db, session: Option<UserPayload>, status: Option<string>)
    returns (r: Reply<seq<Populated<Appointment>>>)
    ensures session.None? ==> r == Err(Unauthorized, "Unauthorized")
    ensures session.Some? ==>
      && r.Ok?
      && SortedDesc(Docs(r.value), AppointmentDate)
      && (forall a :: multiset(Docs(r.value))[a] ==
            if Visible(session.value, status, a) then multiset(db.appointments)[a] else 0)
      && (forall i :: 0 <= i < |r.value| ==>
            r.value[i].patient == UserViewById(db.users, r.value[i].doc.patientId)
            && r.value[i].doctor == UserViewById(db.users, r.value[i].doc.doctorId))
  {
    if session.None? {
      return Err(Unauthorized, "Unauthorized");
    }
    var q := BuildQuery(session.value, status);
    var matches := (a: Appointment) => Matches(q, a);
    var found := SortDesc(Filter(db.appointments, matches), AppointmentDate);
    forall a ensures multiset(found)[a] == if Visible(session.value, status, a) then multiset(db.appointments)[a] else 0 {
      FilterMultiplicity(db.appointments, matches, a);
    }
    r := Ok(Populate(db.users, found, (a: Appointment) => a.patientId, (a: Appointment) => a.doctorId));
  }

  // ---- POST --------------------------------------------------------------------------------

  /** The fields of the POST body the route reads; `date` is the body's date already parsed
      by `new Date(date)` (the parse is not modelled). */
  datatype Booking = Booking(doctorId: Option<Id>, date: Option<string>, time: Option<string>, reason: Option<string>)

  predicate Complete(b: Booking) {
    Truthy(b.doctorId) && Truthy(b.date) && Truthy(b.time) && Truthy(b.reason)
  }

  /** `POST /api/appointments`. The inserted id, the parsed date and the clock are inputs. */
  method Post(store: Store, session: Option<UserPayload>, body: Booking, parsedDate: Timestamp, nowMs: Timestamp, newId: Id)
    returns (r: Reply<Id>)
    modifies store
    ensures session.None? ==> r == Err(Unauthorized, "Unauthorized")
    ensures session.Some? && !Complete(body) ==> r == Err(BadRequest, "Missing required fields")
    ensures session.Some? && Complete(body) ==> r.Ok?
    ensures r.Err? ==> store.Snapshot() == old(store.Snapshot())
    ensures r.Ok? ==>
      && session.Some? && Complete(body) && r.value == newId
      && |store.appointments| == |old(store.appointments)| + 1
      && store.appointments[..|old(store.appointments)|] == old(store.appointments)
      && store.Snapshot() == old(store.Snapshot()).(appointments := store.appointments)
      && var a := store.appointments[|old(store.appointments)|];
         && a.id == newId && a.patientId == session.value.userId && a.doctorId == body.doctorId.value
         && a.date == parsedDate && a.time == body.time.value && a.reason == body.reason.value
         && a.status == AppointmentStatusName(Scheduled)
         && a.notes.None? && a.paymentStatus.None? && a.paymentId.None?
         && a.createdAt == nowMs && a.updatedAt == nowMs
  {
    if session.None? {
      return Err(Unauthorized, "Unauthorized");
    }
    if !Complete(body) {
      return Err(BadRequest, "Missing required fields");
    }
    var a := Appointment(newId, session.value.userId, body.doctorId.value, parsedDate, body.time.value,
      "scheduled", body.reason.value, None, None, None, nowMs, nowMs);
    store.appointments := store.appointments + [a];
    r := Ok(newId);
  }
}
