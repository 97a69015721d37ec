/** `POST /api/auth/login`: email and password in, a session cookie out. */
module LoginRoute {
  import opened Wrappers
  import opened JsString
  import opened Http
  import opened Password
  import opened Types
  import opened Auth
  import opened Db

  /** The credential check: which user the email and password identify. */
  function Authenticate(users: seq<User>, email: Option<string>, password: Option<string>): (r: Reply<User>)
    ensures !Truthy(email) || !Truthy(password) ==> r == Err(BadRequest, "Email and password are required")
    ensures Truthy(email) && Truthy(password) ==>
      (r.Ok? <==> (exists u :: UserByEmail(users, email.value) == Some(u) && VerifyPassword(password.value, u.password)))
    ensures Truthy(email) && Truthy(password) && r.Err? ==> r == Err(Unauthorized, "Invalid credentials")
    ensures r.Ok? ==> r.value in users && r.value.email == email.value && VerifyPassword(password.value, r.value.password)
  {
    if !Truthy(email) || !Truthy(password) then Err(BadRequest, "Email and password are required")
    else match UserByEmail(users, email.value)
      case None => Err(Unauthorized, "Invalid credentials")
      case Some(u) => if VerifyPassword(password.value, u.password) then Ok(u) else Err(Unauthorized, "Invalid credentials")
  }

  /** The payload signed for an authenticated user: its stored id, email, role and name. */
  function PayloadFor(u: User): (p: UserPayload)
    ensures p.userId == u.id && p.email == u.email && p.role == u.role && p.name == u.name
  {
    UserPayload(u.id, u.email, u.role, u.name)
  }

  /** `POST /api/auth/login`. Only reads the users; the clock and the signing key are inputs
      and `jar` is the response's cookies. */
  method Login(db: Db, jar: CookieJar, email: Option<string>, password: Option<string>, key: string, nowMs: Timestamp)
    returns (r: Reply<Account>)
    modifies jar
    ensures r.Err? ==>
      && Authenticate(db.users, email, password).Err?
      && r == Err(Authenticate(db.users, email, password).status, Authenticate(db.users, email, password).error)
      && jar.cookies == old(jar.cookies)
    ensures r.Ok? ==>
      && Authenticate(db.users, email, password).Ok?
      && var u := Authenticate(db.users, email, password).value;
         && r.value == Account(u.id, u.email, u.name, u.role)
         && jar.cookies == old(jar.cookies)[AuthCookie := Cookie(CreateToken(PayloadFor(u), key, nowMs), CookieMaxAge, "/")]
    ensures Authenticate(db.users, email, password).Ok? ==> r.Ok?
  {
    var found := Authenticate(db.users, email, password);
    if found.Err? {
      return Err(found.status, found.error);
    }
    var u := found.value;
    var token := CreateToken(PayloadFor(u), key, nowMs);
    jar.SetAuthCookie(token);
    r := Ok(Account(u.id, u.email, u.name, u.role));
  }

  /** An unknown email and a wrong password for a known one receive the same answer, so the
      reply does not tell which accounts exist. */
  lemma UniformFailure(users: seq<User>, unknown: string, known: User, wrong: string)
    requires unknown != "" && wrong != ""
    requires forall u :: u in users ==> u.email != unknown
    requires known in users && known.email != "" && UserByEmail(users, known.email) == Some(known)
    requires !VerifyPassword(wrong, known.password)
    ensures Authenticate(users, Some(unknown), Some(wrong)) == Authenticate(users, Some(known.email), Some(wrong))
    ensures Authenticate(users, Some(unknown), Some(wrong)) == Err(Unauthorized, "Invalid credentials")
  {
  }

  /** Logging in with the password an account was created with succeeds for that account,
      provided it is the first stored user with that email. */
  lemma CreatedPasswordLogsIn(users: seq<User>, u: User, plain: string, salt: nat)
    requires plain != "" && u.email != ""
    requires u.password == HashPassword(plain, salt)
    requires UserByEmail(users, u.email) == Some(u)
    ensures Authenticate(users, Some(u.email), Some(plain)) == Ok(u)
  {
  }

  /** With unique emails, a stored user is the one its email finds. */
  lemma UniqueEmailFindsUser(users: seq<User>, u: User)
    requires EmailsUnique(users) && u in users
    ensures UserByEmail(users, u.email) == Some(u)
  {
    var found := UserByEmail(users, u.email);
    var i :| 0 <= i < |users| && users[i] == u;
    var j :| 0 <= j < |users| && users[j] == found.value;
    assert i == j;
  }

  /** With unique emails, the credentials are accepted exactly when some stored user has that
      email and that password. */
  lemma AcceptsExactlyStoredCredentials(users: seq<User>, email: string, password: string)
    requires EmailsUnique(users) && email != "" && password != ""
    ensures Authenticate(users, Some(email), Some(password)).Ok? <==>
      exists u :: u in users && u.email == email && VerifyPassword(password, u.password)
  {
    if u :| u in users && u.email == email && VerifyPassword(password, u.password) {
      UniqueEmailFindsUser(users, u);
    }
  }
}
