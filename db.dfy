/** The MongoDB database the routes share: eight collections, each held in insertion order.
    `Db` is a value (what a read sees); `Store` is the database the writing routes change. */
module Db {
  import opened Wrappers
  import opened Types
  import opened Query

  datatype Db = Db(
    users: seq<User>,
    appointments: seq<Appointment>,
    medicalRecords: seq<MedicalRecord>,
    prescriptions: seq<Prescription>,
    payments: seq<Payment>,
    medicines: seq<Medicine>,
    hospitals: seq<Hospital>,
    healthCards: seq<HealthCard>)

  class Store {
    var users: seq<User>
    var appointments: seq<Appointment>
    var medicalRecords: seq<MedicalRecord>
    var prescriptions: seq<Prescription>
    var payments: seq<Payment>
    var medicines: seq<Medicine>
    var hospitals: seq<Hospital>
    var healthCards: seq<HealthCard>

    constructor (init: Db)
      ensures Snapshot() == init
    {
      users, appointments, medicalRecords, prescriptions := init.users, init.appointments, init.medicalRecords, init.prescriptions;
      payments, medicines, hospitals, healthCards := init.payments, init.medicines, init.hospitals, init.healthCards;
    }

    /** The collections as one value. */
    function Snapshot(): Db
      reads this
    {
      Db(users, appointments, medicalRecords, prescriptions, payments, medicines, hospitals, healthCards)
    }
  }

  /** `users.findOne({_id})`. */
  function UserById(users: seq<User>, id: Id): (r: Option<User>)
    ensures r.Some? ==> r.value in users && r.value.id == id
    ensures r.None? ==> forall u :: u in users ==> u.id != id
  {
    FindOne(users, (u: User) => u.id == id)
  }

  /** `users.findOne({_id}, {projection: {password: 0}})`. */
  function UserViewById(users: seq<User>, id: Id): (r: Option<UserView>)
    ensures r.Some? <==> exists u :: u in users && u.id == id
    ensures r.Some? ==> r.value.id == id && exists u :: u in users && View(u) == r.value
  {
    match UserById(users, id)
    case None => None
    case Some(u) => Some(View(u))
  }

  /** `find(...)` with `{projection: {password: 0}}`: each user as its view, in order. */
  function Views(s: seq<User>): (r: seq<UserView>)
    ensures |r| == |s| && forall i :: 0 <= i < |s| ==> r[i] == View(s[i])
  {
    if s == [] then [] else [View(s[0])] + Views(s[1..])
  }

  /** A view is listed exactly when it is the view of a listed user. */
  lemma ViewsMembership(s: seq<User>, v: UserView)
    ensures v in Views(s) <==> exists u :: u in s && View(u) == v
  {
    if exists u :: u in s && View(u) == v {
      var u :| u in s && View(u) == v;
      var i :| 0 <= i < |s| && s[i] == u;
      assert Views(s)[i] == v;
    }
  }

  /** `users.findOne({email})`. */
  function UserByEmail(users: seq<User>, email: string): (r: Option<User>)
    ensures r.Some? ==> r.value in users && r.value.email == email
    ensures r.None? ==> forall u :: u in users ==> u.email != email
  {
    FindOne(users, (u: User) => u.email == email)
  }

  /** No two users share an email: what the duplicate checks of registration and staff
      creation maintain (the collection itself has no unique index). */
  ghost predicate EmailsUnique(users: seq<User>) {
    forall i, j :: 0 <= i < j < |users| ==> users[i].email != users[j].email
  }

  /** Appending a user whose email is not taken keeps the emails unique. */
  lemma AppendKeepsEmailsUnique(users: seq<User>, u: User)
    requires EmailsUnique(users)
    requires UserByEmail(users, u.email).None?
    ensures EmailsUnique(users + [u])
  {
    var s := users + [u];
    forall i, j | 0 <= i < j < |s| ensures s[i].email != s[j].email {
      if j == |users| {
        assert s[i] in users;
      } else {
        assert s[i] == users[i] && s[j] == users[j];
      }
    }
  }

  /** `users.findOne({_id}, {projection: {password: 0}})` for the patient and the doctor of a
      document, attached to it: what each listing route's `Promise.all(map(...))` returns. */
  datatype Populated<T> = Populated(doc: T, patient: Option<UserView>, doctor: Option<UserView>)

  function Docs<T>(r: seq<Populated<T>>): (s: seq<T>)
    ensures |s| == |r| && forall i :: 0 <= i < |r| ==> s[i] == r[i].doc
  {
    if r == [] then [] else [r[0].doc] + Docs(r[1..])
  }

  /** One output per document, in the same order, each carrying the views of its patient and
      its doctor. */
  function Populate<T>(users: seq<User>, s: seq<T>, patientOf: T -> Id, doctorOf: T -> Id): (r: seq<Populated<T>>)
    ensures Docs(r) == s
    ensures forall i :: 0 <= i < |r| ==>
      r[i].patient == UserViewById(users, patientOf(r[i].doc)) && r[i].doctor == UserViewById(users, doctorOf(r[i].doc))
  {
    if s == [] then []
    else
      var head := Populated(s[0], UserViewById(users, patientOf(s[0])), UserViewById(users, doctorOf(s[0])));
      [head] + Populate(users, s[1..], patientOf, doctorOf)
  }
}
