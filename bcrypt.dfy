/**
 * bcrypt as the server uses it (`bcrypt.hash(password, 10)` and
 * `bcrypt.compare(password, stored)`). The key-derivation function itself is
 * a parameter the model never looks into; what the model keeps is bcrypt's
 * shape: the stored value carries the cost and the random salt next to the
 * digest, and comparing re-derives the digest from them.
 */
module Bcrypt {

  /** The salt rounds passed to `bcrypt.hash` at registration. */
  const SaltRounds: nat := 10

  type Salt = string
  type Digest = string

  /** The derivation from (cost, salt, password) to a digest: uninterpreted. */
  type Kdf = (nat, Salt, string) -> Digest

  /** What is stored instead of the password. */
  datatype PasswordHash = PasswordHash(cost: nat, salt: Salt, digest: Digest)

  /** `bcrypt.compare(password, h)`. */
  predicate Compare(kdf: Kdf, password: string, h: PasswordHash) {
    kdf(h.cost, h.salt, password) == h.digest
  }

  /** `bcrypt.hash(password, cost)` with the salt it draws: the hash always compares equal to its password. */
  function Hash(kdf: Kdf, password: string, cost: nat, salt: Salt): (h: PasswordHash)
    ensures Compare(kdf, password, h)
    ensures h.cost == cost && h.salt == salt
  {
    PasswordHash(cost, salt, kdf(cost, salt, password))
  }

  /** Comparing a password with a stored value is hashing it again under the stored cost and salt and finding that value. */
  lemma CompareIsRehash(kdf: Kdf, password: string, h: PasswordHash)
    ensures Compare(kdf, password, h) <==> Hash(kdf, password, h.cost, h.salt) == h
  {
  }

  /**
   * Two hashes of the same password under different salts differ (bcrypt's
   * salting). This holds only because the model keeps the salt in the stored
   * value; it says nothing about the digests themselves.
   */
  lemma SaltedHashesDiffer(kdf: Kdf, password: string, cost: nat, s1: Salt, s2: Salt)
    requires s1 != s2
    ensures Hash(kdf, password, cost, s1) != Hash(kdf, password, cost, s2)
    ensures Compare(kdf, password, Hash(kdf, password, cost, s1)) && Compare(kdf, password, Hash(kdf, password, cost, s2))
  {
  }
}
