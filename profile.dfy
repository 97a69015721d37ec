/** `/api/profile`: read the caller's own user record, and update it field by field,
    optionally changing the password. */
module ProfileRoute {
  import opened Wrappers
  import opened JsString
  import opened Http
  import opened Password
  import opened Types
  import opened Query
  import opened Auth
  import opened Db

  // ---- GET ---------------------------------------------------------------------------------

  /** `GET /api/profile`: the caller's record without its password. */
  function Get(db: Db, session: Option<UserPayload>): (r: Reply<UserView>)
    ensures session.None? ==> r == Err(Unauthorized, "Unauthorized")
    ensures session.Some? ==>
      (r == Err(NotFound, "User not found") <==> forall u :: u in db.users ==> u.id != session.value.userId)
    ensures r.Ok? ==> r.value.id == session.value.userId && exists u :: u in db.users && View(u) == r.value
  {
    if session.None? then Err(Unauthorized, "Unauthorized")
    else match UserViewById(db.users, session.value.userId)
      case None => Err(NotFound, "User not found")
      case Some(v) => Ok(v)
  }

  // ---- PUT ---------------------------------------------------------------------------------

  /** The fields of the PUT body the route reads. email, role and licenseNumber are not
      among them. */
  datatype ProfileBody = ProfileBody(
    name: Option<string>,
    phone: Option<string>,
    dateOfBirth: Option<string>,
    gender: Option<string>,
    address: Option<string>,
    specialization: Option<string>,
    department: Option<string>,
    allergies: Option<string>,
    bloodGroup: Option<string>,
    medicalHistory: Option<string>,
    emergencyContact: Option<string>,
    currentPassword: Option<string>,
    newPassword: Option<string>)

  /** The `updateData` document handed to `$set`. */
  datatype ProfileUpdate = ProfileUpdate(
    updatedAt: Timestamp,
    name: Option<string>,
    phone: Option<string>,
    dateOfBirth: Option<string>,
    gender: Option<string>,
    address: Option<string>,
    specialization: Option<string>,
    department: Option<string>,
    allergies: Option<string>,
    bloodGroup: Option<string>,
    medicalHistory: Option<string>,
    emergencyContact: Option<string>,
    password: Option<PasswordHash>)

  /** A body field that is given and non-empty replaces the stored value. */
  function Pick(given: Option<string>, stored: Option<string>): (r: Option<string>)
    ensures Truthy(given) ==> r == given
    ensures !Truthy(given) ==> r == stored
  {
    if Truthy(given) then given else stored
  }

  predicate WantsPasswordChange(body: ProfileBody) {
    Truthy(body.currentPassword) && Truthy(body.newPassword)
  }

  /** What a successful PUT makes of the record `before`: updatedAt is the time of the
      request, each of the eleven listed fields is replaced when the body gives it non-empty,
      the password is `newHash` when one was made, and every other field keeps its value. */
  ghost predicate Overlaid(before: User, after: User, body: ProfileBody, nowMs: Timestamp, newHash: Option<PasswordHash>) {
    var p := before.profile;
    && after.id == before.id && after.email == before.email && after.role == before.role
    && after.createdAt == before.createdAt && after.updatedAt == nowMs
    && after.name == (if Truthy(body.name) then body.name.value else before.name)
    && after.password == (if newHash.Some? then newHash.value else before.password)
    && after.profile == p.(
         phone := Pick(body.phone, p.phone),
         dateOfBirth := Pick(body.dateOfBirth, p.dateOfBirth),
         gender := Pick(body.gender, p.gender),
         address := Pick(body.address, p.address),
         specialization := Pick(body.specialization, p.specialization),
         department := Pick(body.department, p.department),
         allergies := Pick(body.allergies, p.allergies),
         bloodGroup := Pick(body.bloodGroup, p.bloodGroup),
         medicalHistory := Pick(body.medicalHistory, p.medicalHistory),
         emergencyContact := Pick(body.emergencyContact, p.emergencyContact))
  }

  /** Fills `updateData` one truthy field at a time; the password is added later. */
  method BuildUpdate(body: ProfileBody, nowMs: Timestamp) returns (d: ProfileUpdate)
    ensures UpdateFor(d, body, nowMs, None)
  {
    var name := KeyIfTruthy(body.name);
    var phone := KeyIfTruthy(body.phone);
    var dateOfBirth := KeyIfTruthy(body.dateOfBirth);
    var gender := KeyIfTruthy(body.gender);
    var address := KeyIfTruthy(body.address);
    var specialization := KeyIfTruthy(body.specialization);
    var department := KeyIfTruthy(body.department);
    var allergies := KeyIfTruthy(body.allergies);
    var bloodGroup := KeyIfTruthy(body.bloodGroup);
    var medicalHistory := KeyIfTruthy(body.medicalHistory);
    var emergencyContact := KeyIfTruthy(body.emergencyContact);
    d := ProfileUpdate(nowMs, name, phone, dateOfBirth, gender, address, specialization, department, allergies, bloodGroup, medicalHistory, emergencyContact, None);
  }

  /** `if (field) updateData.field = field`: the key is set exactly when the field is truthy. */
  method KeyIfTruthy(field: Option<string>) returns (key: Option<string>)
    ensures key == KeyOf(field)
  {
    key := None;
    if Truthy(field) {
      key := field;
    }
  }

  /** The value `updateData` holds for a body field: the field when it is truthy, otherwise
      no key at all. */
  function KeyOf(field: Option<string>): (key: Option<string>)
    ensures key.Some? <==> Truthy(field)
    ensures key.Some? ==> key == field
  {
    if Truthy(field) then field else None
  }

  /** `$set` on one optional field: a key that is present replaces the stored value. */
  function Override(key: Option<string>, stored: Option<string>): (r: Option<string>)
    ensures key.Some? ==> r == key
    ensures key.None? ==> r == stored
  {
    if key.Some? then key else stored
  }

  /** Building the key and then setting it is picking the body field when it is truthy. */
  lemma OverrideKeyOf(field: Option<string>, stored: Option<string>)
    ensures Override(KeyOf(field), stored) == Pick(field, stored)
  {
  }

  /** `$set: updateData` on one user record. */
  function SetProfile(u: User, d: ProfileUpdate): User {
    var p := u.profile;
    u.(updatedAt := d.updatedAt,
       name := if d.name.Some? then d.name.value else u.name,
       password := if d.password.Some? then d.password.value else u.password,
       profile := p.(
         phone := Override(d.phone, p.phone),
         dateOfBirth := Override(d.dateOfBirth, p.dateOfBirth),
         gender := Override(d.gender, p.gender),
         address := Override(d.address, p.address),
         specialization := Override(d.specialization, p.specialization),
         department := Override(d.department, p.department),
         allergies := Override(d.allergies, p.allergies),
         bloodGroup := Override(d.bloodGroup, p.bloodGroup),
         medicalHistory := Override(d.medicalHistory, p.medicalHistory),
         emergencyContact := Override(d.emergencyContact, p.emergencyContact)))
  }

  /** `updateData` as BuildUpdate leaves it, with `password` set to `newHash`. */
  ghost predicate UpdateFor(d: ProfileUpdate, body: ProfileBody, nowMs: Timestamp, newHash: Option<PasswordHash>) {
    && d.updatedAt == nowMs && d.password == newHash
    && d.name == KeyOf(body.name)
    && d.phone == KeyOf(body.phone)
    && d.dateOfBirth == KeyOf(body.dateOfBirth)
    && d.gender == KeyOf(body.gender)
    && d.address == KeyOf(body.address)
    && d.specialization == KeyOf(body.specialization)
    && d.department == KeyOf(body.department)
    && d.allergies == KeyOf(body.allergies)
    && d.bloodGroup == KeyOf(body.bloodGroup)
    && d.medicalHistory == KeyOf(body.medicalHistory)
    && d.emergencyContact == KeyOf(body.emergencyContact)
  }

  /** Applying that update overlays the body on the record, as Overlaid describes. */
  lemma SetProfileOverlays(u: User, d: ProfileUpdate, body: ProfileBody, nowMs: Timestamp, newHash: Option<PasswordHash>)
    requires UpdateFor(d, body, nowMs, newHash)
    ensures Overlaid(u, SetProfile(u, d), body, nowMs, newHash)
  {
    OverrideKeyOf(body.phone, u.profile.phone);
    OverrideKeyOf(body.dateOfBirth, u.profile.dateOfBirth);
    OverrideKeyOf(body.gender, u.profile.gender);
    OverrideKeyOf(body.address, u.profile.address);
    OverrideKeyOf(body.specialization, u.profile.specialization);
    OverrideKeyOf(body.department, u.profile.department);
    OverrideKeyOf(body.allergies, u.profile.allergies);
    OverrideKeyOf(body.bloodGroup, u.profile.bloodGroup);
    OverrideKeyOf(body.medicalHistory, u.profile.medicalHistory);
    OverrideKeyOf(body.emergencyContact, u.profile.emergencyContact);
  }

  /** The password branch of PUT: nothing to do unless both password fields are given;
      then the record must exist and the current password must verify, and the new one is
      hashed. */
  method PasswordStep(users: seq<User>, uid: Id, body: ProfileBody, salt: nat)
    returns (r: Reply<Option<PasswordHash>>)
    ensures !WantsPasswordChange(body) ==> r == Ok(None)
    ensures WantsPasswordChange(body) ==>
      match UserById(users, uid)
      case None => r == Err(NotFound, "User not found")
      case Some(u) =>
        r == if VerifyPassword(body.currentPassword.value, u.password)
             then Ok(Some(HashPassword(body.newPassword.value, salt)))
             else Err(BadRequest, "Current password is incorrect")
  {
    if !WantsPasswordChange(body) {
      return Ok(None);
    }
    var found := UserById(users, uid);
    if found.None? {
      return Err(NotFound, "User not found");
    }
    if !VerifyPassword(body.currentPassword.value, found.value.password) {
      return Err(BadRequest, "Current password is incorrect");
    }
    r := Ok(Some(HashPassword(body.newPassword.value, salt)));
  }

  /** `PUT /api/profile`. The salt of the new hash and the clock are inputs. */
  method Put(store: Store, session: Option<UserPayload>, body: ProfileBody, nowMs: Timestamp, salt: nat)
    returns (r: Reply<Option<UserView>>)
    modifies store
    ensures session.None? ==> r == Err(Unauthorized, "Unauthorized")
    ensures session.Some? ==>
      (r == Err(NotFound, "User not found") <==> forall u :: u in old(store.users) ==> u.id != session.value.userId)
    ensures r == Err(BadRequest, "Current password is incorrect") <==>
      && session.Some? && WantsPasswordChange(body)
      && UserById(old(store.users), session.value.userId).Some?
      && !VerifyPassword(body.currentPassword.value, UserById(old(store.users), session.value.userId).value.password)
    ensures session.Some? && UserById(old(store.users), session.value.userId).Some?
      && (WantsPasswordChange(body) ==>
            VerifyPassword(body.currentPassword.value, UserById(old(store.users), session.value.userId).value.password))
      ==> r.Ok?
    ensures r.Err? ==> store.Snapshot() == old(store.Snapshot())
    ensures r.Ok? ==>
      && Applied(old(store.users), store.users, session.value.userId, body, nowMs,
           if WantsPasswordChange(body) then Some(HashPassword(body.newPassword.value, salt)) else None)
      && r.value == UserViewById(store.users, session.value.userId)
      && store.Snapshot() == old(store.Snapshot()).(users := store.users)
  {
    if session.None? {
      return Err(Unauthorized, "Unauthorized");
    }
    var uid := session.value.userId;
    var d := BuildUpdate(body, nowMs);
    var newHash := PasswordStep(store.users, uid, body, salt);
    if newHash.Err? {
      return Err(newHash.status, newHash.error);
    }
    d := d.(password := newHash.value);
    assert UpdateFor(d, body, nowMs, newHash.value);
    var isCaller := (u: User) => u.id == uid;
    if FindFirst(store.users, isCaller).None? {
      return Err(NotFound, "User not found");
    }
    ApplyUpdate(store.users, uid, d, body, nowMs, newHash.value);
    store.users := UpdateFirst(store.users, isCaller, (u: User) => SetProfile(u, d));
    r := Ok(UserViewById(store.users, uid));
  }

  /** What a successful PUT does to the users collection: the first record with the
      caller's id is overlaid with the body, stays the one the caller's id finds, and every
      other record is left as it was. */
  ghost predicate Applied(before: seq<User>, after: seq<User>, uid: Id, body: ProfileBody, nowMs: Timestamp,
                          newHash: Option<PasswordHash>) {
    match FindFirst(before, (u: User) => u.id == uid)
    case None => false
    case Some(i) =>
      && |after| == |before|
      && (forall j :: 0 <= j < |after| && j != i ==> after[j] == before[j])
      && Overlaid(before[i], after[i], body, nowMs, newHash)
      && UserViewById(after, uid) == Some(View(after[i]))
  }

  lemma ApplyUpdate(users: seq<User>, uid: Id, d: ProfileUpdate, body: ProfileBody, nowMs: Timestamp,
                    newHash: Option<PasswordHash>)
    requires UpdateFor(d, body, nowMs, newHash)
    requires FindFirst(users, (u: User) => u.id == uid).Some?
    ensures Applied(users, UpdateFirst(users, (u: User) => u.id == uid, (u: User) => SetProfile(u, d)), uid, body, nowMs, newHash)
  {
    var i := FindFirst(users, (u: User) => u.id == uid).value;
    var after := UpdateFirst(users, (u: User) => u.id == uid, (u: User) => SetProfile(u, d));
    assert after[i] == SetProfile(users[i], d);
    SetProfileOverlays(users[i], d, body, nowMs, newHash);
    FindFirstView(after, uid, i);
  }

  /** After the update the first record with the caller's id is still at index i. */
  lemma FindFirstView(users: seq<User>, uid: Id, i: nat)
    requires i < |users| && users[i].id == uid && forall j :: 0 <= j < i ==> users[j].id != uid
    ensures UserViewById(users, uid) == Some(View(users[i]))
  {
    assert FindFirst(users, (u: User) => u.id == uid) == Some(i) by {
      FindFirstIs(users, (u: User) => u.id == uid, i);
    }
  }
}
