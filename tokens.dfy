/** The signed-token service the server uses (jsonwebtoken with an HMAC
    secret), reduced to what the handlers depend on. A token is either one
    that `Sign` produced, described by its content, or any other text; only
    a signed token whose signing secret is the server's and whose expiry has
    not passed verifies. */
module Tokens {
  import opened Json

  /** The claims `login` puts in a token. */
  datatype Claims = Claims(shop_id: int, shop_name: string)

  /** A token as it travels in the `token` cookie. Times are in seconds. */
  datatype Token =
    | Signed(claims: Claims, iat: int, exp: int, signer: string)
    | Unsigned(text: string)

  /** `expiresIn: "7d"`, in seconds. */
  const SevenDays: int := 7 * 24 * 60 * 60

  /** A cookie value is falsy only when it is the empty string. */
  predicate TokenTruthy(t: Token)
  {
    t.Signed? || t.text != ""
  }

  /** `jwt.sign(claims, secret, { expiresIn: "7d" })` at time `now`. */
  function Sign(claims: Claims, secret: string, now: int): (t: Token)
    ensures t.Signed? && TokenTruthy(t)
    ensures t.exp - t.iat == SevenDays
  {
    Signed(claims, now, now + SevenDays, secret)
  }

  /** `jwt.verify(token, secret)` at time `now`: the claims, or `None` where
      the library throws (bad signature, expired, not a token). */
  function Verify(t: Token, secret: string, now: int): (r: Option<Claims>)
    ensures r.Some? ==> t.Signed? && t.signer == secret && now < t.exp && r.value == t.claims
    ensures t.Signed? && t.signer == secret && now < t.exp ==> r.Some?
  {
    if t.Signed? && t.signer == secret && now < t.exp then Some(t.claims) else None
  }

  /** Round trip: what `Sign` produced verifies to the same claims for seven
      days, with the same secret. */
  lemma SignThenVerify(claims: Claims, secret: string, issued: int, now: int)
    requires issued <= now < issued + SevenDays
    ensures Verify(Sign(claims, secret, issued), secret, now) == Some(claims)
  {
  }

  /** From the seventh day on, the same token no longer verifies. */
  lemma SignedTokenExpires(claims: Claims, secret: string, issued: int, now: int)
    requires now >= issued + SevenDays
    ensures Verify(Sign(claims, secret, issued), secret, now) == None
  {
  }

  /** A token signed with another secret never verifies. */
  lemma ForeignSecretRejected(claims: Claims, other: string, secret: string, issued: int, now: int)
    requires other != secret
    ensures Verify(Sign(claims, other, issued), secret, now) == None
  {
  }
}
