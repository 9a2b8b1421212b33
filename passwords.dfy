/** The credential hasher: bcrypt through passlib's CryptContext. */
module Passwords {

  /** The random salt bcrypt draws for each hash, passed in explicitly. */
  type Salt = nat

  /** The two operations of the bcrypt context, left abstract. */
  datatype Hasher = Hasher(hash: (string, Salt) -> string, verify: (string, string) -> bool)

  /** What the model relies on from bcrypt: a hash verifies its own password and no other,
      two salts give two different hashes, and a hash is never empty. */
  ghost predicate BcryptLaws(h: Hasher) {
    && (forall p, salt :: h.verify(p, h.hash(p, salt)))
    && (forall p, q, salt :: p != q ==> !h.verify(p, h.hash(q, salt)))
    && (forall p, s1, s2 :: s1 != s2 ==> h.hash(p, s1) != h.hash(p, s2))
    && (forall p, salt :: h.hash(p, salt) != "")
  }

  /** `verify_password(plain, hashed)`. */
  predicate VerifyPassword(h: Hasher, plain: string, hashed: string) {
    h.verify(plain, hashed)
  }

  /** `hash_password(password)`: under the bcrypt laws the stored hash accepts exactly
      the password it was made from. */
  function HashPassword(h: Hasher, password: string, salt: Salt): (hashed: string)
    ensures BcryptLaws(h) ==> hashed != ""
    ensures BcryptLaws(h) ==> forall p :: VerifyPassword(h, p, hashed) <==> p == password
  {
    h.hash(password, salt)
  }

  /** Hashing the same password twice with fresh salts yields two different hashes, and
      both verify it. */
  lemma SaltedHashesDiffer(h: Hasher, password: string, s1: Salt, s2: Salt)
    requires BcryptLaws(h) && s1 != s2
    ensures HashPassword(h, password, s1) != HashPassword(h, password, s2)
    ensures VerifyPassword(h, password, HashPassword(h, password, s1))
    ensures VerifyPassword(h, password, HashPassword(h, password, s2))
  {
  }
}
