/** The api-key surface: password logon under lockout, and acknowledge / validate / renew / revoke. */
module Authn {
  import opened Base
  import opened Schema
  import opened Sql
  import opened Tokens
  import opened Values

  // ---- the logon gate ----

  /** An expired lock is forgotten, a running one blocks. */
  ghost function CheckLockout(t: State, k: AccountKey): Reply<()> {
    var row := GetAttempt(t, k);
    if row.None? || row.value.lockedUntil.None? then Reply(t, Ok(()))
    else if row.value.lockedUntil.value > t.now then Reply(t, Err(AccountLocked(row.value.lockedUntil.value)))
    else Reply(ClearAttempts(t, k), Ok(()))
  }

  ghost function GateLogon(t: State, k: AccountKey): Reply<Account> {
    var gate := CheckLockout(t, k);
    if gate.result.Err? then Reply(gate.state, Err(gate.result.error))
    else
      var account := ReadAccount(gate.state, k);
      if account.Err? || account.value.deleted then Reply(gate.state, Err(AuthenticationFailed))
      else if !account.value.enabled then Reply(gate.state, Err(AccountDisabled))
      else if !account.value.verified then Reply(gate.state, Err(AccountNotVerified))
      else Reply(gate.state, account)
  }

  ghost function CountFailure(c: Config, t: State, k: AccountKey): (State, Error) {
    var (u, until) := IncrementAndLock(t, k, c.maxAttempts, c.lockFor);
    (u, if until.Some? && until.value > u.now then AccountLocked(until.value) else AuthenticationFailed)
  }

  ghost function VerifyPassword(c: Config, t: State, k: AccountKey, password: string): Reply<Account> {
    var gate := GateLogon(t, k);
    if gate.result.Err? then gate
    else if !BcryptVerify(gate.result.value.password, password) then
      var (u, e) := CountFailure(c, gate.state, k);
      Reply(u, Err(e))
    else Reply(ClearAttempts(gate.state, k), gate.result)
  }

  // ---- tokens ----

  /** Minting touches no table: a pair stays inert until it is acknowledged. */
  ghost function Issue(c: Config, t: State, k: AccountKey, client: ClientId, accessJti: Id, refreshJti: Id): Value {
    Pair(Sign(t.ring, c.issuance, t.now, AccessUse, k.tenant, k.email, client, accessJti),
         Sign(t.ring, c.issuance, t.now, RefreshUse, k.tenant, k.email, client, refreshJti))
  }

  ghost function Authenticate(
    c: Config, t: State, k: AccountKey, client: ClientId, password: string, accessJti: Id, refreshJti: Id): Reply<Value>
  {
    var logon := VerifyPassword(c, t, k, password);
    if logon.result.Err? then Reply(logon.state, Err(logon.result.error))
    else Reply(logon.state, Ok(Issue(c, logon.state, k, client, accessJti, refreshJti)))
  }

  function SessionOf(claims: Claims): SessionKey {
    SessionKey(claims.tenant, claims.subject, claims.client)
  }

  function OwnerOf(claims: Claims): AccountKey {
    AccountKey(claims.tenant, claims.subject)
  }

  ghost function Acknowledge(c: Config, t: State, tenant: Tenant, access: Jwt, refresh: Jwt): Reply<Value> {
    var a := Validate(t.ring, c.issuance, t.now, AccessUse, access);
    var r := Validate(t.ring, c.issuance, t.now, RefreshUse, refresh);
    if a.Err? then Reply(t, Err(a.error))
    else if r.Err? then Reply(t, Err(r.error))
    else if a.value.tenant != tenant || r.value.tenant != tenant then Reply(t, Err(TokenTenantMismatch))
    else if a.value.client != r.value.client || a.value.subject != r.value.subject then Reply(t, Err(TokenInvalid))
    else Reply(UpsertSession(t, SessionOf(r.value), Session(r.value.jti, r.value.expires)), Ok(Nothing))
  }

  ghost function LiveAccount(t: State, k: AccountKey): Result<Account> {
    var account := ReadAccount(t, k);
    if account.Ok? && (account.value.deleted || !account.value.enabled) then Err(AuthenticationFailed) else account
  }

  ghost function ValidateAccess(c: Config, t: State, tenant: Tenant, access: Jwt): Result<Value> {
    var a := Validate(t.ring, c.issuance, t.now, AccessUse, access);
    if a.Err? then Err(a.error)
    else if a.value.tenant != tenant then Err(TokenTenantMismatch)
    else if ReadSession(t, SessionOf(a.value)).Err? then Err(TokenNotAcknowledged)
    else
      var account := LiveAccount(t, OwnerOf(a.value));
      if account.Err? then Err(account.error) else Ok(ClaimsOf(a.value))
  }

  ghost function Renew(c: Config, t: State, tenant: Tenant, refresh: Jwt, accessJti: Id, refreshJti: Id): Reply<Value> {
    var r := Validate(t.ring, c.issuance, t.now, RefreshUse, refresh);
    if r.Err? then Reply(t, Err(r.error))
    else if r.value.tenant != tenant then Reply(t, Err(TokenTenantMismatch))
    else
      var account := LiveAccount(t, OwnerOf(r.value));
      if account.Err? then Reply(t, Err(account.error))
      else
        var pair := Issue(c, t, OwnerOf(r.value), r.value.client, accessJti, refreshJti);
        var next := Session(refreshJti, pair.refresh.claims.expires);
        var (u, rotated) := RotateSession(t, SessionOf(r.value), r.value.jti, next);
        if rotated then Reply(u, Ok(pair)) else Reply(u, Err(TokenNotAcknowledged))
  }

  ghost function Revoke(t: State, k: AccountKey, client: ClientId): Reply<Value> {
    if client == "" then Reply(DeleteSessions(t, k), Ok(Nothing))
    else
      var r := DeleteSession(t, SessionKey(k.tenant, k.email, client));
      Reply(r.state, if r.result.Ok? then Ok(Nothing) else Err(r.result.error))
  }

  datatype Op =
    | Logon(k: AccountKey, client: ClientId, password: string, accessJti: Id, refreshJti: Id)
    | Ack(tenant: Tenant, access: Jwt, refresh: Jwt)
    | Check(tenant: Tenant, access: Jwt)
    | Renewal(tenant: Tenant, refresh: Jwt, accessJti: Id, refreshJti: Id)
    | Revocation(k: AccountKey, client: ClientId)

  ghost function Step(c: Config, t: State, op: Op): Reply<Value> {
    match op
    case Logon(k, client, password, a, r) => Authenticate(c, t, k, client, password, a, r)
    case Ack(tenant, access, refresh) => Acknowledge(c, t, tenant, access, refresh)
    case Check(tenant, access) => Reply(t, ValidateAccess(c, t, tenant, access))
    case Renewal(tenant, refresh, a, r) => Renew(c, t, tenant, refresh, a, r)
    case Revocation(k, client) => Revoke(t, k, client)
  }
}
