/** The two checks every route begins with: who is calling, and which rows they may see. */
module Guards {
  import opened Wrappers
  import opened Types
  import opened Auth

  /** `session && session.role === "<r>"`: signed in, and with exactly that role string. */
  predicate HasRole(session: Option<UserPayload>, r: Role) {
    session.Some? && session.value.role == RoleName(r)
  }

  /** The row scoping of the listing routes: a patient sees the rows whose `patientId` is
      theirs, a doctor the rows whose `doctorId` is theirs, any other role every row. */
  predicate InScope(caller: UserPayload, patientId: Id, doctorId: Id) {
    if caller.role == RoleName(Patient) then patientId == caller.userId
    else if caller.role == RoleName(Doctor) then doctorId == caller.userId
    else true
  }

  /** The `query` document the listing routes fill in before `find(query)`. */
  datatype RowQuery = RowQuery(patientId: Option<Id>, doctorId: Option<Id>)

  /** A row matches when it agrees with every key the query sets. */
  predicate RowMatches(q: RowQuery, patientId: Id, doctorId: Id) {
    && (q.patientId.Some? ==> patientId == q.patientId.value)
    && (q.doctorId.Some? ==> doctorId == q.doctorId.value)
  }

  /** `query.patientId = ...` for a patient, `query.doctorId = ...` for a doctor, nothing for
      the other roles: the query selects exactly the rows in the caller's scope. */
  method BuildRowQuery(caller: UserPayload) returns (q: RowQuery)
    ensures forall pid, did :: RowMatches(q, pid, did) <==> InScope(caller, pid, did)
  {
    q := RowQuery(None, None);
    if caller.role == RoleName(Patient) {
      q := q.(patientId := Some(caller.userId));
    } else if caller.role == RoleName(Doctor) {
      q := q.(doctorId := Some(caller.userId));
    }
  }
}
