/** Password hashing as the handlers use it: `bcrypt.hashpw(pwd, bcrypt.gensalt())` to store a
    password and `bcrypt.checkpw(pwd, stored)` to test one.

    bcrypt's key-derivation function itself is not modelled: it is a parameter `kdf` of every
    operation, so each fact proved here and in the handlers holds whatever function bcrypt
    computes. A stored hash carries its salt, as a bcrypt hash string does, and `checkpw`
    re-derives the digest from the candidate password and that salt. */
module Bcrypt {

  type Salt = seq<bv8>
  type Digest = seq<bv8>

  /** The key-derivation function bcrypt applies to a password and a salt. */
  type Kdf = (string, Salt) -> Digest

  /** What the user table stores in its `clave` column: a salt and a digest, never the password. */
  datatype PasswordHash = PasswordHash(salt: Salt, digest: Digest)

  /** `bcrypt.hashpw(pwd, salt)`: the stored value keeps the salt it was made with and
      verifies the password it was made from. */
  function HashPw(kdf: Kdf, pwd: string, salt: Salt): (h: PasswordHash)
    ensures h.salt == salt
    ensures CheckPw(kdf, pwd, h)
  {
    PasswordHash(salt, kdf(pwd, salt))
  }

  /** `bcrypt.checkpw(pwd, h)`: derive again with the salt stored in `h` and compare. */
  predicate CheckPw(kdf: Kdf, pwd: string, h: PasswordHash)
  {
    kdf(pwd, h.salt) == h.digest
  }
}
