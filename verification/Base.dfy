/** Identifiers, instants, secrets and the service's typed errors. */
module Base {

  type Tenant = string
  type Email = string
  type ClientId = string

  /** A minted value: a uuid (row id, jti, kid) or 256 bits of randomness. */
  type Id = nat
  type Secret = Id

  /** Instants and durations, in microseconds, on one clock. */
  type Time = int

  const SECOND: Time := 1_000_000

  datatype Option<+T> = None | Some(value: T)

  datatype Result<+T> = Ok(value: T) | Err(error: Error)

  /** A sha256 digest of a high-entropy secret; collisions are not modelled. */
  datatype Sha = Sha256(of: Secret)

  /** A bcrypt digest of a password or logon code, seen only through BcryptVerify. */
  datatype Bcrypt = Bcrypt(salt: nat, of: string)

  predicate BcryptVerify(hash: Bcrypt, value: string) {
    hash.of == value
  }

  /** The password bounds: at least 8 characters, at most bcrypt's 72 bytes. */
  predicate ValidPassword(password: string) {
    8 <= |password| <= 72
  }

  /** A logon code is exactly six decimal digits. */
  predicate ValidCode(code: string) {
    |code| == 6 && forall i :: 0 <= i < |code| ==> '0' <= code[i] <= '9'
  }

  datatype Error =
    // storage
    | Duplicate
    | Reference
    | Driver
    | MissingTenant
    | TenantMismatch
    | AuthRequestNotFound
    | TokenNotFound
    | BrowserSessionNotFound
    // accounts
    | AccountNotFound
    | AccountDuplicate
    | AccountDisabled
    | AccountNotVerified
    | InvalidAccount
    | VerificationFailed
    | ResetTokenInvalid
    | ResetTokenExpired
    // authentication
    | AuthenticationFailed
    | AccountLocked(until: Time)
    | LogonCodeInvalid
    | LogonCodeExpired
    | SessionNotFound
    | TokenNotAcknowledged
    | TokenTenantMismatch
    | TokenInvalid
    | NoSigningKey
}
