/**
 * The bcrypt library as the user model uses it (`bcrypt.genSalt`, `bcrypt.hash`,
 * `bcrypt.compare`). The one-way function itself is not modelled: a digest is a
 * symbolic value that records the salt and what was hashed, and only `Compare`
 * looks inside it. Salts come from the caller, because `genSalt` is random.
 */
module Passwords {

  /** A salt drawn by `bcrypt.genSalt(10)`. */
  type Salt = nat

  /** What a password field holds: the plaintext a client sent, or a digest of earlier content. */
  datatype Secret = Plain(text: string) | Digest(salt: Salt, of: Secret)

  /** `bcrypt.hash(content, salt)`. */
  function Hash(salt: Salt, content: Secret): (h: Secret)
    ensures h.Digest?
  {
    Digest(salt, content)
  }

  /** Hashing always changes the content, even content that is already a digest. */
  lemma {:induction false} HashChangesContent(salt: Salt, content: Secret)
    ensures Hash(salt, content) != content
    decreases content
  {
    match content
    case Plain(_) =>
    case Digest(inner, of) =>
      HashChangesContent(inner, of);
  }

  /** `bcrypt.compare(password, stored)`: true only for a digest of exactly that plaintext;
      a stored value that is not a digest never matches. */
  predicate Compare(password: string, stored: Secret)
  {
    stored.Digest? && stored.of == Plain(password)
  }

  /** Hashing a plaintext and comparing the same plaintext succeeds, whatever the salt. */
  lemma CompareAcceptsHash(salt: Salt, password: string)
    ensures Compare(password, Hash(salt, Plain(password)))
  {
  }

  /** A digest of one plaintext rejects every other plaintext. */
  lemma CompareRejectsOtherPassword(salt: Salt, password: string, other: string)
    requires other != password
    ensures !Compare(other, Hash(salt, Plain(password)))
  {
  }

  /** Hashing twice loses the password: the plaintext no longer compares. */
  lemma DoubleHashBreaksCompare(salt1: Salt, salt2: Salt, password: string)
    ensures !Compare(password, Hash(salt2, Hash(salt1, Plain(password))))
  {
  }

  /** Whatever compares against a plaintext is not that plaintext. */
  lemma MatchingDigestIsNotPlaintext(password: string, stored: Secret)
    requires Compare(password, stored)
    ensures stored != Plain(password)
  {
  }

  /** Two records hashed with different salts store different values for the same password. */
  lemma SaltsSeparateDigests(salt1: Salt, salt2: Salt, content: Secret)
    requires salt1 != salt2
    ensures Hash(salt1, content) != Hash(salt2, content)
  {
  }
}
