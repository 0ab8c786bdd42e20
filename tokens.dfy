/**
 * The jsonwebtoken library as the login, "me" and hospital-registration handlers use
 * it, and the textual values a cookie can carry. The signature and the secret are not
 * modelled: a token either was signed with the server's secret or was not.
 */
module Tokens {
  import opened Wrappers

  /** `expiresIn: "7d"`, and the cookies' `maxAge: 7 * 24 * 60 * 60`, in seconds. */
  const SevenDays: int := 7 * 24 * 60 * 60

  /** The payload login signs: the user's id and role (either may be absent in a token
      that some other signer produced). */
  datatype Claims = Claims(id: Option<nat>, role: Option<string>)

  /** A signed token: its payload, its `iat` and `exp` times, and whether the signature
      is the server's. */
  datatype Jwt = Jwt(claims: Claims, issuedAt: int, expiresAt: int, signedByServer: bool)

  /** The string values the model tells apart: free text, the string form of an object
      id, and the compact serialisation of a token. */
  datatype Text = Literal(s: string) | ObjectIdText(id: nat) | Compact(jwt: Jwt)

  /** JavaScript falsiness of a string: only the empty string is falsy. */
  predicate Falsy(t: Text)
  {
    t == Literal("")
  }

  /** `jwt.sign(claims, secret, { expiresIn: "7d" })` at time `now`. */
  function Sign(claims: Claims, now: int): Jwt
  {
    Jwt(claims, now, now + SevenDays, true)
  }

  /** `jwt.verify(text, secret)` at time `now`: the payload, or None where the library
      throws (not a token, a foreign signature, or `now >= exp`). */
  function Verify(text: Text, now: int): Option<Claims>
  {
    if text.Compact? && text.jwt.signedByServer && now < text.jwt.expiresAt then
      Some(text.jwt.claims)
    else
      None
  }

  /** A token the server signed verifies, with its own payload, for exactly seven days. */
  lemma SignedTokenVerifiesForSevenDays(claims: Claims, issued: int, now: int)
    ensures Verify(Compact(Sign(claims, issued)), now) == (if now < issued + SevenDays then Some(claims) else None)
  {
  }

  /** Whatever verifies came out of a server-signed, unexpired token. */
  lemma VerifiedOnlyIfServerSigned(text: Text, now: int)
    requires Verify(text, now).Some?
    ensures text.Compact? && text.jwt.signedByServer && now < text.jwt.expiresAt
    ensures Verify(text, now).value == text.jwt.claims
  {
  }

  /** Free text and bare ids are never accepted as tokens. */
  lemma NonTokenTextNeverVerifies(text: Text, now: int)
    requires !text.Compact?
    ensures Verify(text, now).None?
  {
  }
}
