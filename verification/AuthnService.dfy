/** DefaultAuthenticationService: the api-key surface's methods, each proved against its function in Authn. */
module AuthnServices {
  import opened Base
  import opened Schema
  import opened Sql
  import opened Tokens
  import opened Values
  import opened Backends
  import Authn

  class AuthenticationService {
    const db: Backend
    const config: Config

    constructor (db: Backend, config: Config)
      ensures this.db == db && this.config == config
    {
      this.db, this.config := db, config;
    }

    method CheckLockout(k: AccountKey) returns (r: Result<()>)
      modifies db
      ensures Authn.CheckLockout(old(db.View()), k) == Reply(db.View(), r)
    {
      var attempt := db.GetAttempt(k);
      if attempt.None? {
        return Ok(());
      }
      if attempt.value.lockedUntil.Some? {
        if attempt.value.lockedUntil.value > db.now {
          return Err(AccountLocked(attempt.value.lockedUntil.value));
        }
        db.ClearAttempts(k);
      }
      return Ok(());
    }

    method GateLogon(k: AccountKey) returns (r: Result<Account>)
      modifies db
      ensures Authn.GateLogon(old(db.View()), k) == Reply(db.View(), r)
    {
      var open := CheckLockout(k);
      if open.Err? {
        return Err(open.error);
      }
      r := db.ReadAccount(k);
      if r.Err? || r.value.deleted {
        return Err(AuthenticationFailed);
      }
      if !r.value.enabled {
        return Err(AccountDisabled);
      }
      if !r.value.verified {
        return Err(AccountNotVerified);
      }
    }

    method CountFailure(k: AccountKey) returns (e: Error)
      modifies db
      ensures (db.View(), e) == Authn.CountFailure(config, old(db.View()), k)
    {
      var until := db.IncrementAndLock(k, config.maxAttempts, config.lockFor);
      e := if until.Some? && until.value > db.now then AccountLocked(until.value) else AuthenticationFailed;
    }

    method VerifyPassword(k: AccountKey, password: string) returns (r: Result<Account>)
      modifies db
      ensures Authn.VerifyPassword(config, old(db.View()), k, password) == Reply(db.View(), r)
    {
      r := GateLogon(k);
      if r.Err? {
        return;
      }
      if !BcryptVerify(r.value.password, password) {
        var e := CountFailure(k);
        return Err(e);
      }
      db.ClearAttempts(k);
    }

    method Issue(k: AccountKey, client: ClientId, accessJti: Id, refreshJti: Id) returns (pair: Value)
      ensures pair == Authn.Issue(config, db.View(), k, client, accessJti, refreshJti) && pair.Pair?
    {
      var access := Sign(db.ring, config.issuance, db.now, AccessUse, k.tenant, k.email, client, accessJti);
      var refresh := Sign(db.ring, config.issuance, db.now, RefreshUse, k.tenant, k.email, client, refreshJti);
      pair := Pair(access, refresh);
    }

    method Authenticate(k: AccountKey, client: ClientId, password: string, accessJti: Id, refreshJti: Id)
      returns (r: Result<Value>)
      modifies db
      ensures Authn.Step(config, old(db.View()), Authn.Logon(k, client, password, accessJti, refreshJti)) ==
                Reply(db.View(), r)
    {
      var account := VerifyPassword(k, password);
      if account.Err? {
        return Err(account.error);
      }
      var pair := Issue(k, client, accessJti, refreshJti);
      r := Ok(pair);
    }

    method Acknowledge(tenant: Tenant, access: Jwt, refresh: Jwt) returns (r: Result<Value>)
      modifies db
      ensures Authn.Step(config, old(db.View()), Authn.Ack(tenant, access, refresh)) == Reply(db.View(), r)
    {
      var a := Tokens.Validate(db.ring, config.issuance, db.now, AccessUse, access);
      if a.Err? {
        return Err(a.error);
      }
      var f := Tokens.Validate(db.ring, config.issuance, db.now, RefreshUse, refresh);
      if f.Err? {
        return Err(f.error);
      }
      if a.value.tenant != tenant || f.value.tenant != tenant {
        return Err(TokenTenantMismatch);
      }
      if a.value.client != f.value.client || a.value.subject != f.value.subject {
        return Err(TokenInvalid);
      }
      db.UpsertSession(Authn.SessionOf(f.value), Session(f.value.jti, f.value.expires));
      r := Ok(Nothing);
    }

    method LiveAccount(k: AccountKey) returns (r: Result<Account>)
      ensures r == Authn.LiveAccount(db.View(), k)
    {
      r := db.ReadAccount(k);
      if r.Ok? && (r.value.deleted || !r.value.enabled) {
        return Err(AuthenticationFailed);
      }
    }

    method Validate(tenant: Tenant, access: Jwt) returns (r: Result<Value>)
      ensures r == Authn.ValidateAccess(config, db.View(), tenant, access)
    {
      var a := Tokens.Validate(db.ring, config.issuance, db.now, AccessUse, access);
      if a.Err? {
        return Err(a.error);
      }
      if a.value.tenant != tenant {
        return Err(TokenTenantMismatch);
      }
      var session := db.ReadSession(Authn.SessionOf(a.value));
      if session.Err? {
        return Err(TokenNotAcknowledged);
      }
      var account := LiveAccount(Authn.OwnerOf(a.value));
      r := if account.Err? then Err(account.error) else Ok(ClaimsOf(a.value));
    }

    method Renew(tenant: Tenant, refresh: Jwt, accessJti: Id, refreshJti: Id) returns (r: Result<Value>)
      modifies db
      ensures Authn.Step(config, old(db.View()), Authn.Renewal(tenant, refresh, accessJti, refreshJti)) ==
                Reply(db.View(), r)
    {
      var f := Tokens.Validate(db.ring, config.issuance, db.now, RefreshUse, refresh);
      if f.Err? {
        return Err(f.error);
      }
      if f.value.tenant != tenant {
        return Err(TokenTenantMismatch);
      }
      var account := LiveAccount(Authn.OwnerOf(f.value));
      if account.Err? {
        return Err(account.error);
      }
      var pair := Issue(Authn.OwnerOf(f.value), f.value.client, accessJti, refreshJti);
      var rotated :=
        db.RotateSession(Authn.SessionOf(f.value), f.value.jti, Session(refreshJti, pair.refresh.claims.expires));
      r := if rotated then Ok(pair) else Err(TokenNotAcknowledged);
    }

    method Revoke(k: AccountKey, client: ClientId) returns (r: Result<Value>)
      modifies db
      ensures Authn.Step(config, old(db.View()), Authn.Revocation(k, client)) == Reply(db.View(), r)
    {
      if client == "" {
        db.DeleteSessions(k);
        return Ok(Nothing);
      }
      var deleted := db.DeleteSession(SessionKey(k.tenant, k.email, client));
      r := if deleted.Ok? then Ok(Nothing) else Err(deleted.error);
    }
  }
}
