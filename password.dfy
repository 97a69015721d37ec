/** Password hashing as the routes use it: `hashPassword` when a password is stored and
    `verifyPassword` / `bcrypt.compare` when one is checked. The hash is idealised: it keeps
    the salt and a digest that only the original password reproduces. */
module Password {
  /** A stored bcrypt hash; `digest` stands for the one-way image of the password. */
  datatype PasswordHash = Bcrypt(salt: nat, digest: string)

  /** `hashPassword(plain)`; the random salt is a parameter. */
  function HashPassword(plain: string, salt: nat): (h: PasswordHash)
    ensures h.salt == salt
    ensures VerifyPassword(plain, h)
  {
    Bcrypt(salt, plain)
  }

  /** `verifyPassword(plain, hash)`, the same test as `bcrypt.compare(plain, hash)`. */
  predicate VerifyPassword(plain: string, h: PasswordHash) {
    h.digest == plain
  }

  /** A hash accepts exactly the password it was made from, whatever the salt. */
  lemma VerifyHashed(plain: string, attempt: string, salt: nat)
    ensures VerifyPassword(attempt, HashPassword(plain, salt)) <==> attempt == plain
  {
  }
}
