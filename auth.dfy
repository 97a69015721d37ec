/** Sessions: the JWT issued at login and registration, the `auth-token` cookie that carries
    it, and `getSession`, which every route asks for the caller. Signing is idealised: a
    token records the key it was signed with, and only that key verifies it. */
module Auth {
  import opened Wrappers

  /** What a token carries. `role` holds whatever string the issuing route put there. */
  datatype UserPayload = UserPayload(userId: string, email: string, role: string, name: string)

  /** The `user` object the account routes answer with, the same four values a token
      carries. */
  datatype Account = Account(id: string, email: string, name: string, role: string)

  /** A compact JWT as the cookie holds it. `Garbage` is any text that is not a token signed
      by this application (a forged, truncated or foreign value). */
  datatype Token =
    | Jwt(payload: UserPayload, iat: int, exp: int, key: string)
    | Garbage(text: string)

  /** `setExpirationTime("7d")`, in seconds. */
  const TokenLifetime: int := 7 * 24 * 60 * 60

  /** The name under which every read, write and delete of the session cookie happens. */
  const AuthCookie: string := "auth-token"

  /** `maxAge` of the session cookie, in seconds. */
  const CookieMaxAge: int := 60 * 60 * 24 * 7

  /** jose writes times as whole seconds: `Math.floor(Date.now() / 1000)`. */
  function EpochSeconds(nowMs: int): int {
    if nowMs >= 0 then nowMs / 1000 else -((-nowMs + 999) / 1000)
  }

  /** `createToken(payload)`, signed with `key` at time `nowMs`. */
  function CreateToken(p: UserPayload, key: string, nowMs: int): (t: Token)
    ensures t.Jwt? && t.payload == p && t.key == key
    ensures t.iat == EpochSeconds(nowMs) && t.exp == t.iat + TokenLifetime
  {
    Jwt(p, EpochSeconds(nowMs), EpochSeconds(nowMs) + TokenLifetime, key)
  }

  /** `verifyToken(token)`: the payload of a token signed with `key` whose expiry is still
      ahead (jose rejects once `exp <= now`), and None for every other value; no failure
      escapes as an exception. */
  function VerifyToken(t: Token, key: string, nowMs: int): (r: Option<UserPayload>)
    ensures r.Some? <==> t.Jwt? && t.key == key && EpochSeconds(nowMs) < t.exp
    ensures r.Some? ==> r.value == t.payload
  {
    if t.Jwt? && t.key == key && EpochSeconds(nowMs) < t.exp then Some(t.payload) else None
  }

  /** An issued token verifies, to its own payload, for exactly seven days of whole seconds. */
  lemma IssuedTokenLifetime(p: UserPayload, key: string, issuedMs: int, nowMs: int)
    ensures VerifyToken(CreateToken(p, key, issuedMs), key, nowMs) ==
      if EpochSeconds(nowMs) < EpochSeconds(issuedMs) + TokenLifetime then Some(p) else None
  {
  }

  /** A token signed with another key never verifies. */
  lemma ForeignKeyRejected(p: UserPayload, key: string, other: string, issuedMs: int, nowMs: int)
    requires other != key
    ensures VerifyToken(CreateToken(p, other, issuedMs), key, nowMs) == None
  {
  }

  /** The cookie's `maxAge` is the token's lifetime. */
  lemma CookieMaxAgeIsTokenLifetime()
    ensures CookieMaxAge == TokenLifetime
  {
  }

  datatype Cookie = Cookie(value: Token, maxAge: int, path: string)

  /** `getSession()` over the cookies of the request: None when there is no `auth-token`
      cookie (without verifying anything), otherwise exactly what verifying its value gives. */
  function GetSession(cookies: map<string, Cookie>, key: string, nowMs: int): (r: Option<UserPayload>)
    ensures AuthCookie !in cookies ==> r == None
    ensures AuthCookie in cookies ==> r == VerifyToken(cookies[AuthCookie].value, key, nowMs)
  {
    if AuthCookie !in cookies then None else VerifyToken(cookies[AuthCookie].value, key, nowMs)
  }

  /** `verifyAuth()`: another name for `getSession()`. */
  function VerifyAuth(cookies: map<string, Cookie>, key: string, nowMs: int): (r: Option<UserPayload>)
    ensures r == GetSession(cookies, key, nowMs)
  {
    GetSession(cookies, key, nowMs)
  }

  /** The cookie store of one request/response pair, which `setAuthCookie` and
      `clearAuthCookie` change in place. */
  class CookieJar {
    var cookies: map<string, Cookie>

    constructor (initial: map<string, Cookie>)
      ensures cookies == initial
    {
      cookies := initial;
    }

    /** `setAuthCookie(token)`: writes `auth-token` for seven days on path "/". */
    method SetAuthCookie(t: Token)
      modifies this
      ensures cookies == old(cookies)[AuthCookie := Cookie(t, CookieMaxAge, "/")]
    {
      cookies := cookies[AuthCookie := Cookie(t, CookieMaxAge, "/")];
    }

    /** `clearAuthCookie()`: deletes `auth-token` and nothing else. */
    method ClearAuthCookie()
      modifies this
      ensures cookies == old(cookies) - {AuthCookie}
    {
      cookies := cookies - {AuthCookie};
    }
  }

  /** Reading the session right after setting the cookie verifies the token just set. */
  lemma SessionAfterSet(cookies: map<string, Cookie>, t: Token, key: string, nowMs: int)
    ensures GetSession(cookies[AuthCookie := Cookie(t, CookieMaxAge, "/")], key, nowMs)
      == VerifyToken(t, key, nowMs)
  {
  }

  /** After the cookie is cleared the request has no session, yet clearing revokes nothing:
      verification has no state, so a copy of the token taken earlier still verifies until it
      expires. */
  lemma ClearDoesNotRevoke(cookies: map<string, Cookie>, p: UserPayload, key: string, issuedMs: int, nowMs: int)
    requires AuthCookie in cookies && cookies[AuthCookie].value == CreateToken(p, key, issuedMs)
    requires EpochSeconds(nowMs) < EpochSeconds(issuedMs) + TokenLifetime
    ensures GetSession(cookies - {AuthCookie}, key, nowMs) == None
    ensures GetSession(cookies, key, nowMs) == Some(p)
    ensures VerifyToken(cookies[AuthCookie].value, key, nowMs) == Some(p)
  {
  }
}
