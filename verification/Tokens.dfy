/** The api-key surface's JWTs: what signing puts in one and what validation asks of it. */
module Tokens {
  import opened Base
  import opened Schema

  /** Travels in the header, so a refresh token never passes as an access token. */
  datatype Use = AccessUse | RefreshUse

  datatype Claims = Claims(
    tenant: Tenant, client: ClientId, subject: Email, jti: Id,
    issuer: string, audience: string, expires: Time, notBefore: Time)

  /** `key` is the private key the signature was made with; `kid` is what the header says. */
  datatype Jwt = Jwt(kid: Id, key: Key, use: Use, claims: Claims)

  datatype Issuance = Issuance(issuer: string, audience: string, accessExpiry: Time, refreshExpiry: Time)

  /** JWT dates are whole seconds. */
  function NumericDate(t: Time): Time {
    t - t % SECOND
  }

  function Expiry(config: Issuance, use: Use): Time {
    if use == AccessUse then config.accessExpiry else config.refreshExpiry
  }

  function Sign(
    ring: Keyring, config: Issuance, now: Time, use: Use,
    tenant: Tenant, email: Email, client: ClientId, jti: Id): Jwt
  {
    Jwt(ring.kid, ring.key, use,
        Claims(tenant, client, email, jti, config.issuer, config.audience,
               NumericDate(now + Expiry(config, use)), NumericDate(now)))
  }

  /** The header's use and kid, the signature, issuer, audience, nbf and a required exp. */
  predicate Verifies(ring: Keyring, config: Issuance, now: Time, use: Use, token: Jwt) {
    && token.use == use
    && token.kid in ring.public
    && token.key == ring.public[token.kid]
    && token.claims.issuer == config.issuer
    && token.claims.audience == config.audience
    && token.claims.notBefore <= now < token.claims.expires
  }

  function Validate(ring: Keyring, config: Issuance, now: Time, use: Use, token: Jwt): Result<Claims> {
    if Verifies(ring, config, now, use, token) then Ok(token.claims) else Err(TokenInvalid)
  }

  /** The signing key is published under its own kid. */
  predicate Matched(ring: Keyring) {
    ring.kid in ring.public && ring.public[ring.kid] == ring.key
  }

  /** A fresh token validates exactly when the ring publishes its signing key and exp is ahead. */
  lemma FreshTokenValidates(
    ring: Keyring, config: Issuance, now: Time, use: Use, tenant: Tenant, email: Email, client: ClientId, jti: Id)
    ensures
      var token := Sign(ring, config, now, use, tenant, email, client, jti);
      Validate(ring, config, now, use, token).Ok? <==>
      Matched(ring) && now < NumericDate(now + Expiry(config, use))
  {
    assert NumericDate(now) <= now;
  }

  /** ... and never as the other kind of token. */
  lemma UsesAreDisjoint(ring: Keyring, config: Issuance, now: Time, token: Jwt)
    ensures Validate(ring, config, now, AccessUse, token).Err? || Validate(ring, config, now, RefreshUse, token).Err?
  {
  }
}
