/** `POST /api/auth/register`: anyone creates an account and is signed in to it. */
module RegisterRoute {
  import opened Wrappers
  import opened JsString
  import opened Http
  import opened Password
  import opened Types
  import opened Auth
  import opened Db

  /** The fields of the body the route reads. */
  datatype RegisterBody = RegisterBody(
    email: Option<string>,
    password: Option<string>,
    name: Option<string>,
    role: Option<string>,
    phone: Option<string>,
    dateOfBirth: Option<string>,
    gender: Option<string>)

  predicate Complete(b: RegisterBody) {
    Truthy(b.email) && Truthy(b.password) && Truthy(b.name) && Truthy(b.role)
  }

  /** The user document the route inserts: the body's role as given, whatever it is. */
  function NewAccount(id: Id, b: RegisterBody, salt: nat, nowMs: Timestamp): (u: User)
    requires Complete(b)
    ensures u.id == id && u.email == b.email.value && u.name == b.name.value && u.role == b.role.value
    ensures VerifyPassword(b.password.value, u.password)
    ensures u.profile == EmptyProfile.(phone := b.phone, dateOfBirth := b.dateOfBirth, gender := b.gender)
    ensures u.createdAt == nowMs && u.updatedAt == nowMs
  {
    User(id, b.email.value, HashPassword(b.password.value, salt), b.role.value, b.name.value,
      EmptyProfile.(phone := b.phone, dateOfBirth := b.dateOfBirth, gender := b.gender), nowMs, nowMs)
  }

  /** The token payload of the new account. */
  function PayloadOf(id: Id, b: RegisterBody): (p: UserPayload)
    requires Complete(b)
    ensures p.userId == id && p.email == b.email.value && p.role == b.role.value && p.name == b.name.value
  {
    UserPayload(id, b.email.value, b.role.value, b.name.value)
  }

  /** `POST /api/auth/register`. The salt, the clock, the inserted id and the signing key are
      inputs; `jar` is the response's cookies. */
  method Register(store: Store, jar: CookieJar, body: RegisterBody, salt: nat, nowMs: Timestamp, newId: Id, key: string)
    returns (r: Reply<Account>)
    modifies store, jar
    ensures !Complete(body) ==> r == Err(BadRequest, "Missing required fields")
    ensures Complete(body) ==>
      (r == Err(BadRequest, "User already exists") <==> exists u :: u in old(store.users) && u.email == body.email.value)
    ensures Complete(body) && (forall u :: u in old(store.users) ==> u.email != body.email.value) ==> r.Ok?
    ensures r.Err? ==> store.Snapshot() == old(store.Snapshot()) && jar.cookies == old(jar.cookies)
    ensures r.Ok? ==>
      && Complete(body)
      && r.value == Account(newId, body.email.value, body.name.value, body.role.value)
      && store.Snapshot() == old(store.Snapshot()).(users := old(store.users) + [NewAccount(newId, body, salt, nowMs)])
      && jar.cookies == old(jar.cookies)[AuthCookie := Cookie(CreateToken(PayloadOf(newId, body), key, nowMs), CookieMaxAge, "/")]
      && (EmailsUnique(old(store.users)) ==> EmailsUnique(store.users))
  {
    if !Complete(body) {
      return Err(BadRequest, "Missing required fields");
    }
    if UserByEmail(store.users, body.email.value).Some? {
      return Err(BadRequest, "User already exists");
    }
    var u := NewAccount(newId, body, salt, nowMs);
    if EmailsUnique(store.users) {
      AppendKeepsEmailsUnique(store.users, u);
    }
    store.users := store.users + [u];
    var token := CreateToken(PayloadOf(newId, body), key, nowMs);
    jar.SetAuthCookie(token);
    r := Ok(Account(newId, body.email.value, body.name.value, body.role.value));
  }

  /** The role is never checked: a complete body naming "admin" creates an administrator,
      and one naming no role at all creates an account with that string as its role. */
  lemma AnyRoleRegisters(id: Id, b: RegisterBody, salt: nat, nowMs: Timestamp)
    requires Complete(b)
    ensures NewAccount(id, b, salt, nowMs).role == b.role.value
    ensures b.role.value == RoleName(Admin) ==> NewAccount(id, b, salt, nowMs).role == RoleName(Admin)
    ensures !ConformsRole(b.role.value) ==> !ConformsRole(NewAccount(id, b, salt, nowMs).role)
  {
  }

  /** The answer and the session agree: the cookie just set yields, on the same request
      clock, the payload whose id, email, name and role the answer reports. */
  lemma SignedInAsCreated(cookies: map<string, Cookie>, id: Id, b: RegisterBody, key: string, nowMs: Timestamp)
    requires Complete(b)
    ensures var p := GetSession(cookies[AuthCookie := Cookie(CreateToken(PayloadOf(id, b), key, nowMs), CookieMaxAge, "/")], key, nowMs);
      && p == Some(PayloadOf(id, b))
      && Account(p.value.userId, p.value.email, p.value.name, p.value.role) == Account(id, b.email.value, b.name.value, b.role.value)
  {
    SessionAfterSet(cookies, CreateToken(PayloadOf(id, b), key, nowMs), key, nowMs);
    IssuedTokenLifetime(PayloadOf(id, b), key, nowMs, nowMs);
  }
}
