/** `GET /api/admin/stats`: the administrator's dashboard figures. */
module AdminStatsRoute {
  import opened Wrappers
  import opened Http
  import opened Types
  import opened Query
  import opened Auth
  import opened Db
  import opened Guards

  const RecentLimit: nat := 10

  datatype Stats = Stats(
    totalUsers: nat,
    totalAppointments: nat,
    totalPrescriptions: nat,
    totalRecords: nat,
    usersByRole: seq<(string, nat)>,
    appointmentsByStatus: seq<(string, nat)>,
    recentAppointments: seq<Appointment>)

  /** The `role` field of every user, in stored order. */
  function RoleValues(users: seq<User>): (r: seq<string>)
    ensures |r| == |users| && forall i :: 0 <= i < |users| ==> r[i] == users[i].role
  {
    if users == [] then [] else [users[0].role] + RoleValues(users[1..])
  }

  /** The `status` field of every appointment, in stored order. */
  function StatusValues(appointments: seq<Appointment>): (r: seq<string>)
    ensures |r| == |appointments| && forall i :: 0 <= i < |appointments| ==> r[i] == appointments[i].status
  {
    if appointments == [] then [] else [appointments[0].status] + StatusValues(appointments[1..])
  }

  /** A counted collection of field values: one group per distinct value, each counting how
      often the value occurs (at least once), the counts adding up to the number of values. */
  ghost predicate GroupsOf(g: seq<(string, nat)>, values: seq<string>) {
    && (forall x :: x in values <==> exists i :: 0 <= i < |g| && g[i].0 == x)
    && (forall i, j :: 0 <= i < j < |g| ==> g[i].0 != g[j].0)
    && (forall i :: 0 <= i < |g| ==> g[i].1 == Occurrences(values, g[i].0) && g[i].1 >= 1)
    && SumCounts(g) == |values|
  }

  /** `$group` by a field with `$sum: 1` yields a counted collection of its values. */
  lemma GroupCountIsGroups(values: seq<string>)
    ensures GroupsOf(GroupCount(values), values)
  {
    GroupCountSum(values);
  }

  /** The figures of the dashboard, computed from the collections. */
  function Figures(db: Db): (s: Stats)
    ensures s.totalUsers == |db.users| && s.totalAppointments == |db.appointments|
    ensures s.totalPrescriptions == |db.prescriptions| && s.totalRecords == |db.medicalRecords|
    ensures GroupsOf(s.usersByRole, RoleValues(db.users))
    ensures GroupsOf(s.appointmentsByStatus, StatusValues(db.appointments))
    ensures NewestOf(s.recentAppointments, db.appointments, (a: Appointment) => true, AppointmentCreatedAt, RecentLimit)
  {
    var all := (a: Appointment) => true;
    GroupCountIsGroups(RoleValues(db.users));
    GroupCountIsGroups(StatusValues(db.appointments));
    NewestMatching(db.appointments, all, AppointmentCreatedAt, RecentLimit);
    Stats(|db.users|, |db.appointments|, |db.prescriptions|, |db.medicalRecords|,
      GroupCount(RoleValues(db.users)), GroupCount(StatusValues(db.appointments)),
      Take(SortDesc(Filter(db.appointments, all), AppointmentCreatedAt), RecentLimit))
  }

  /** `GET /api/admin/stats`: administrators only. */
  function Get(db: Db, session: Option<UserPayload>): (r: Reply<Stats>)
    ensures !HasRole(session, Admin) ==> r == Err(Unauthorized, "Unauthorized")
    ensures HasRole(session, Admin) ==> r.Ok?
    ensures r.Ok? ==>
      && r.value.totalUsers == |db.users| && r.value.totalAppointments == |db.appointments|
      && r.value.totalPrescriptions == |db.prescriptions| && r.value.totalRecords == |db.medicalRecords|
      && GroupsOf(r.value.usersByRole, RoleValues(db.users))
      && GroupsOf(r.value.appointmentsByStatus, StatusValues(db.appointments))
      && NewestOf(r.value.recentAppointments, db.appointments, (a: Appointment) => true, AppointmentCreatedAt, RecentLimit)
  {
    if !HasRole(session, Admin) then Err(Unauthorized, "Unauthorized") else Ok(Figures(db))
  }

  /** A role is listed exactly when some user has it. */
  lemma RoleGroupsAreStoredRoles(db: Db, session: Option<UserPayload>, role: string)
    requires Get(db, session).Ok?
    ensures (exists i :: 0 <= i < |Get(db, session).value.usersByRole| && Get(db, session).value.usersByRole[i].0 == role)
      <==> exists u :: u in db.users && u.role == role
  {
    var values := RoleValues(db.users);
    if exists u :: u in db.users && u.role == role {
      var u :| u in db.users && u.role == role;
      var k :| 0 <= k < |db.users| && db.users[k] == u;
      assert values[k] == role;
    }
    if role in values {
      var k :| 0 <= k < |values| && values[k] == role;
      assert db.users[k] in db.users;
    }
  }
}
