/** `GET /api/auth/me`: the signed-in user as the stored record describes them. */
module MeRoute {
  import opened Wrappers
  import opened Http
  import opened Types
  import opened Auth
  import opened Db

  /** The `user` object of the response: twelve listed fields, no password. */
  datatype Me = Me(
    id: Id,
    email: string,
    name: string,
    role: string,
    phone: Option<string>,
    dateOfBirth: Option<string>,
    gender: Option<string>,
    address: Option<string>,
    profileImage: Option<string>,
    specialization: Option<string>,
    licenseNumber: Option<string>,
    department: Option<string>)

  function Describe(v: UserView): Me {
    var p := v.profile;
    Me(v.id, v.email, v.name, v.role, p.phone, p.dateOfBirth, p.gender, p.address, p.profileImage,
      p.specialization, p.licenseNumber, p.department)
  }

  function Get(db: Db, session: Option<UserPayload>): (r: Reply<Me>)
    ensures session.None? ==> r == Err(Unauthorized, "Unauthorized")
    ensures session.Some? ==>
      (r == Err(NotFound, "User not found") <==> forall u :: u in db.users ==> u.id != session.value.userId)
    ensures r.Ok? ==>
      && r.value.id == session.value.userId
      && exists u :: u in db.users && u.id == session.value.userId
           && r.value.email == u.email && r.value.name == u.name && r.value.role == u.role
           && r.value.phone == u.profile.phone && r.value.dateOfBirth == u.profile.dateOfBirth
           && r.value.gender == u.profile.gender && r.value.address == u.profile.address
           && r.value.profileImage == u.profile.profileImage && r.value.specialization == u.profile.specialization
           && r.value.licenseNumber == u.profile.licenseNumber && r.value.department == u.profile.department
  {
    if session.None? then Err(Unauthorized, "Unauthorized")
    else match UserViewById(db.users, session.value.userId)
      case None => Err(NotFound, "User not found")
      case Some(v) => Ok(Describe(v))
  }

  /** Only the token's user id is used: the role, email and name reported are the stored
      ones, so two tokens for the same id get the same answer whatever else they carry. */
  lemma OnlyIdFromToken(db: Db, p: UserPayload, q: UserPayload)
    requires p.userId == q.userId
    ensures Get(db, Some(p)) == Get(db, Some(q))
  {
  }
}
