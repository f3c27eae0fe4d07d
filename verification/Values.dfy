/** Configuration, and what the operations of every service report. */
module Values {
  import opened Base
  import opened Schema
  import opened Tokens

  /** The surfaces a credential change revokes on, in the order they are wired. */
  datatype Revoker = ApiKeySessions | OidcSessions

  datatype Config = Config(
    issuance: Issuance, maxAttempts: int, lockFor: Time, codeExpiry: Time, resetExpiry: Time,
    requestExpiry: Time, cookieExpiry: Time, revokers: seq<Revoker>)

  /** The claims setUserinfo shapes; the email pair is there when the scope asks for it. */
  datatype Profile = Profile(subject: Id, email: Option<(Email, bool)>)

  datatype Value =
    | Nothing
    | Pair(access: Jwt, refresh: Jwt)
    | ClaimsOf(claims: Claims)
    | AccountOf(account: Id)
    | SecretOf(secret: Secret)
    | CodeOf(code: string, until: Time)
    | RequestOf(request: Id, row: AuthRequest)
    | GrantOf(grant: Id, token: RefreshToken)
    | Minted(id: Id, renewal: Option<Secret>, expires: Time)
    | InfoOf(subject: Subject, refreshId: Id)
    | ProfileOf(profile: Profile)
    | CookieOf(cookie: Secret, owner: Id)
}
