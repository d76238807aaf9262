/** The foreign cryptography the handlers call, as values the caller supplies:
    a password hasher in the shape of bcrypt and a token signer/verifier in the
    shape of jsonwebtoken with one fixed secret. Their correctness is stated as
    predicates that the lemmas and scenarios assume explicitly. */
module Crypto {
  import opened Js

  /** The random salt bcrypt draws for each hash. */
  type Salt = nat

  /** `bcrypt.hash(password, salt)` and `bcrypt.compare(password, hash)`. */
  datatype Hasher = Hasher(hash: (string, Salt) -> string, compare: (string, string) -> bool)

  /** A password always matches a hash made from it, whatever the salt. */
  ghost predicate Sound(h: Hasher)
  {
    forall p, s :: h.compare(p, h.hash(p, s))
  }

  /** `jwt.sign(claims, secret)` and `jwt.verify(token, secret)`; a failed
      verification (bad signature, expired, malformed) is `None`. */
  datatype TokenScheme<!C> = TokenScheme(sign: C -> string, verify: string -> Option<C>)

  /** A compact JWT: non-empty and free of spaces, so it survives being sent
      as `Bearer <token>`. */
  predicate Compact(token: string)
  {
    token != "" && ' ' !in token
  }

  /** Every token the scheme issues is compact and verifies to the claims it
      was issued for. */
  ghost predicate RoundTrips<C(!new)>(t: TokenScheme<C>)
  {
    forall c :: Compact(t.sign(c)) && t.verify(t.sign(c)) == Some(c)
  }
}
