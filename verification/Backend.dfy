/** The tables as fields that the repositories' statements update in place. */
module Backends {
  import opened Base
  import opened Schema
  import Sql

  class Backend {
    var now: Time
    var ring: Keyring
    var accounts: map<AccountKey, Account>
    var sessions: map<SessionKey, Session>
    var attempts: map<AccountKey, Attempt>
    var codes: map<AccountKey, LogonCode>
    var resets: map<AccountKey, PasswordReset>
    var requests: map<Id, AuthRequest>
    var refresh: map<Id, RefreshToken>
    var access: map<Id, AccessToken>
    var browsers: map<Id, BrowserSession>

    function View(): State reads this {
      State(now, ring, accounts, sessions, attempts, codes, resets, requests, refresh, access, browsers)
    }

    constructor (state: State)
      ensures View() == state
    {
      now, ring, accounts, sessions, attempts := state.now, state.ring, state.accounts, state.sessions, state.attempts;
      codes, resets, requests := state.codes, state.resets, state.requests;
      refresh, access, browsers := state.refresh, state.access, state.browsers;
    }

    /** Rolling back: every table as the transaction found it. */
    method Restore(state: State)
      modifies this
      ensures View() == state
    {
      now, ring, accounts, sessions, attempts := state.now, state.ring, state.accounts, state.sessions, state.attempts;
      codes, resets, requests := state.codes, state.resets, state.requests;
      refresh, access, browsers := state.refresh, state.access, state.browsers;
    }

    // ---- accounts/account_repository.go ----

    method ReadAccount(k: AccountKey) returns (r: Result<Account>)
      ensures r == Sql.ReadAccount(View(), k)
    {
      r := if k in accounts then Ok(accounts[k]) else Err(AccountNotFound);
    }

    method ReadAccountById(tenant: Tenant, id: Id) returns (r: Result<(AccountKey, Account)>)
      requires UniqueAccountIds(accounts)
      ensures r == Sql.ReadAccountById(View(), tenant, id)
    {
      if k :| k in accounts && k.tenant == tenant && accounts[k].id == id {
        Sql.FindsAccount(View(), k);
        r := Ok((k, accounts[k]));
      } else {
        r := Err(AccountNotFound);
      }
    }

    method CreateAccount(k: AccountKey, a: Account) returns (r: Result<()>)
      modifies this`accounts
      ensures Sql.InsertAccount(old(View()), k, a) == Sql.Reply(View(), r)
    {
      if k in accounts || exists l :: l in accounts && accounts[l].id == a.id {
        return Err(AccountDuplicate);
      }
      accounts := accounts[k := a];
      r := Ok(());
    }

    method SetVerified(k: AccountKey) returns (r: Result<()>)
      modifies this`accounts
      ensures Sql.SetVerified(old(View()), k) == Sql.Reply(View(), r)
    {
      if k !in accounts { return Err(AccountNotFound); }
      accounts := accounts[k := accounts[k].(verified := true, verification := None)];
      r := Ok(());
    }

    method UpdateVerificationHash(k: AccountKey, hash: Sha) returns (r: Result<()>)
      modifies this`accounts
      ensures Sql.SetVerificationHash(old(View()), k, hash) == Sql.Reply(View(), r)
    {
      if k !in accounts { return Err(AccountNotFound); }
      accounts := accounts[k := accounts[k].(verification := Some(hash))];
      r := Ok(());
    }

    method UpdatePasswordHash(k: AccountKey, hash: Bcrypt) returns (r: Result<()>)
      modifies this`accounts
      ensures Sql.SetPasswordHash(old(View()), k, hash) == Sql.Reply(View(), r)
    {
      if k !in accounts { return Err(AccountNotFound); }
      accounts := accounts[k := accounts[k].(password := hash)];
      r := Ok(());
    }

    method SoftDelete(k: AccountKey) returns (r: Result<()>)
      modifies this`accounts
      ensures Sql.SoftDelete(old(View()), k) == Sql.Reply(View(), r)
    {
      if k !in accounts { return Err(AccountNotFound); }
      accounts := accounts[k := accounts[k].(deleted := true)];
      r := Ok(());
    }

    // ---- authn/session_repository.go ----

    method UpsertSession(k: SessionKey, row: Session)
      modifies this`sessions
      ensures View() == Sql.UpsertSession(old(View()), k, row)
    {
      sessions := sessions[k := row];
    }

    method ReadSession(k: SessionKey) returns (r: Result<Session>)
      ensures r == Sql.ReadSession(View(), k)
    {
      r := if k in sessions then Ok(sessions[k]) else Err(SessionNotFound);
    }

    /** Swaps only from the jti it is given, and touches no other row. */
    method RotateSession(k: SessionKey, current: Id, next: Session) returns (rotated: bool)
      modifies this`sessions
      ensures rotated <==> k in old(sessions) && old(sessions)[k].jti == current
      ensures rotated ==> k in sessions && sessions[k] == next && sessions - {k} == old(sessions) - {k}
      ensures !rotated ==> sessions == old(sessions)
      ensures (View(), rotated) == Sql.RotateSession(old(View()), k, current, next)
    {
      rotated := k in sessions && sessions[k].jti == current;
      if rotated { sessions := sessions[k := next]; }
    }

    method DeleteSession(k: SessionKey) returns (r: Result<()>)
      modifies this`sessions
      ensures Sql.DeleteSession(old(View()), k) == Sql.Reply(View(), r)
    {
      if k !in sessions { return Err(SessionNotFound); }
      sessions := sessions - {k};
      r := Ok(());
    }

    method DeleteSessions(k: AccountKey)
      modifies this`sessions
      ensures View() == Sql.DeleteSessions(old(View()), k)
    {
      sessions := map s | s in sessions && AccountKey(s.tenant, s.email) != k :: sessions[s];
    }

    method SweepSessions()
      modifies this`sessions
      ensures View() == Sql.SweepSessions(old(View()))
    {
      sessions := map s | s in sessions && sessions[s].expires >= now :: sessions[s];
    }

    // ---- authn/failed_attempt_repository.go ----

    method GetAttempt(k: AccountKey) returns (r: Option<Attempt>)
      ensures r == Sql.GetAttempt(View(), k)
    {
      r := if k in attempts then Some(attempts[k]) else None;
    }

    /** One more failure; from the limit on, each one locks anew, and below it a lock stays as it is. */
    method IncrementAndLock(k: AccountKey, max: int, lockFor: Time) returns (until: Option<Time>)
      modifies this`attempts
      ensures attempts - {k} == old(attempts) - {k}
      ensures k in attempts && attempts[k].modified == now && until == attempts[k].lockedUntil
      ensures attempts[k].count == (if k in old(attempts) then old(attempts)[k].count else 0) + 1
      ensures attempts[k].count >= max ==> until == Some(now + lockFor)
      ensures attempts[k].count < max ==> until == if k in old(attempts) then old(attempts)[k].lockedUntil else None
      ensures (View(), until) == Sql.IncrementAndLock(old(View()), k, max, lockFor)
    {
      var row: Attempt;
      if k !in attempts {
        row := Attempt(1, if 1 >= max then Some(now + lockFor) else None, now);
      } else {
        var count := attempts[k].count + 1;
        row := Attempt(count, if count >= max then Some(now + lockFor) else attempts[k].lockedUntil, now);
      }
      attempts := attempts[k := row];
      until := row.lockedUntil;
    }

    method ClearAttempts(k: AccountKey)
      modifies this`attempts
      ensures View() == Sql.ClearAttempts(old(View()), k)
    {
      attempts := attempts - {k};
    }

    method SweepAttempts(olderThan: Time)
      modifies this`attempts
      ensures View() == Sql.SweepAttempts(old(View()), olderThan)
    {
      attempts := map k | k in attempts && attempts[k].modified >= now - olderThan :: attempts[k];
    }

    // ---- authn/logon_code_repository.go, accounts/password_reset_repository.go ----

    method UpsertCode(k: AccountKey, row: LogonCode)
      modifies this`codes
      ensures View() == Sql.UpsertCode(old(View()), k, row)
    {
      codes := codes[k := row];
    }

    method ReadCode(k: AccountKey) returns (r: Result<Bcrypt>)
      ensures r == Sql.ReadCode(View(), k)
    {
      if k !in codes { return Err(LogonCodeInvalid); }
      if now > codes[k].expires { return Err(LogonCodeExpired); }
      r := Ok(codes[k].hash);
    }

    method DeleteCode(k: AccountKey)
      modifies this`codes
      ensures View() == Sql.DeleteCode(old(View()), k)
    {
      codes := codes - {k};
    }

    method SweepCodes()
      modifies this`codes
      ensures View() == Sql.SweepCodes(old(View()))
    {
      codes := map k | k in codes && codes[k].expires >= now :: codes[k];
    }

    method UpsertReset(k: AccountKey, row: PasswordReset)
      modifies this`resets
      ensures View() == Sql.UpsertReset(old(View()), k, row)
    {
      resets := resets[k := row];
    }

    method ReadReset(k: AccountKey) returns (r: Result<Sha>)
      ensures r == Sql.ReadReset(View(), k)
    {
      if k !in resets { return Err(ResetTokenInvalid); }
      if now > resets[k].expires { return Err(ResetTokenExpired); }
      r := Ok(resets[k].hash);
    }

    method DeleteReset(k: AccountKey)
      modifies this`resets
      ensures View() == Sql.DeleteReset(old(View()), k)
    {
      resets := resets - {k};
    }

    method SweepResets()
      modifies this`resets
      ensures View() == Sql.SweepResets(old(View()))
    {
      resets := map k | k in resets && resets[k].expires >= now :: resets[k];
    }

    // ---- oidc/auth_request_repository.go ----

    method CreateRequest(id: Id, row: AuthRequest) returns (r: Result<()>)
      modifies this`requests
      ensures Sql.InsertRequest(old(View()), id, row) == Sql.Reply(View(), r)
    {
      if id in requests || (row.code.Some? && exists j :: j in requests && requests[j].code == row.code) {
        return Err(Duplicate);
      }
      requests := requests[id := row];
      r := Ok(());
    }

    /** The tenant and expiry checks both reads share. */
    method CheckRequest(tenant: Tenant, id: Id) returns (r: Result<(Id, AuthRequest)>)
      requires id in requests
      ensures r == Sql.OwnRequest(View(), tenant, Some(id))
    {
      if requests[id].tenant != tenant { return Err(TenantMismatch); }
      if requests[id].expires < now { return Err(AuthRequestNotFound); }
      r := Ok((id, requests[id]));
    }

    method ReadRequest(tenant: Tenant, id: Id) returns (r: Result<(Id, AuthRequest)>)
      ensures r == Sql.ReadRequest(View(), tenant, id)
    {
      if id !in requests { return Err(AuthRequestNotFound); }
      r := CheckRequest(tenant, id);
    }

    method ReadRequestByCode(tenant: Tenant, code: Secret) returns (r: Result<(Id, AuthRequest)>)
      requires UniqueCodes(requests)
      ensures r == Sql.ReadRequestByCode(View(), tenant, code)
    {
      if i :| i in requests && requests[i].code == Some(Sha256(code)) {
        Sql.FindsRequest(View(), i, Sha256(code));
        r := CheckRequest(tenant, i);
      } else {
        r := Err(AuthRequestNotFound);
      }
    }

    method AuthenticateRequest(tenant: Tenant, id: Id, subject: Subject, authTime: Time, amr: seq<string>)
      returns (r: Result<()>)
      modifies this`requests
      ensures Sql.AuthenticateRequest(old(View()), tenant, id, subject, authTime, amr) == Sql.Reply(View(), r)
    {
      if id !in requests || requests[id].tenant != tenant { return Err(AuthRequestNotFound); }
      requests := requests[id := requests[id].(subject := subject, authTime := authTime, amr := amr, done := true)];
      r := Ok(());
    }

    method SaveCode(tenant: Tenant, id: Id, code: Secret) returns (r: Result<()>)
      modifies this`requests
      ensures Sql.SaveCode(old(View()), tenant, id, code) == Sql.Reply(View(), r)
    {
      if id !in requests || requests[id].tenant != tenant { return Err(AuthRequestNotFound); }
      if exists j :: j in requests && j != id && requests[j].code == Some(Sha256(code)) { return Err(Duplicate); }
      requests := requests[id := requests[id].(code := Some(Sha256(code)))];
      r := Ok(());
    }

    method DeleteRequest(tenant: Tenant, id: Id) returns (r: Result<()>)
      modifies this`requests
      ensures Sql.DeleteRequest(old(View()), tenant, id) == Sql.Reply(View(), r)
    {
      if id !in requests || requests[id].tenant != tenant { return Err(AuthRequestNotFound); }
      requests := requests - {id};
      r := Ok(());
    }

    method SweepRequests()
      modifies this`requests
      ensures View() == Sql.SweepRequests(old(View()))
    {
      requests := map i | i in requests && requests[i].expires >= now :: requests[i];
    }

    // ---- oidc/token_repository.go ----

    method CreateRefresh(id: Id, row: RefreshToken) returns (r: Result<()>)
      modifies this`refresh
      ensures Sql.InsertRefresh(old(View()), id, row) == Sql.Reply(View(), r)
    {
      if id in refresh || exists j :: j in refresh && refresh[j].hash == row.hash { return Err(Duplicate); }
      refresh := refresh[id := row];
      r := Ok(());
    }

    method CheckRefresh(tenant: Tenant, id: Id) returns (r: Result<(Id, RefreshToken)>)
      requires id in refresh
      ensures r == Sql.OwnRefresh(View(), tenant, Some(id))
    {
      if refresh[id].tenant != tenant { return Err(TenantMismatch); }
      if refresh[id].expires < now { return Err(TokenNotFound); }
      r := Ok((id, refresh[id]));
    }

    method ReadRefresh(tenant: Tenant, token: Secret) returns (r: Result<(Id, RefreshToken)>)
      requires UniqueRefreshHashes(refresh)
      ensures r == Sql.ReadRefresh(View(), tenant, token)
    {
      if i :| i in refresh && refresh[i].hash == Sha256(token) {
        Sql.FindsRefresh(View(), i);
        r := CheckRefresh(tenant, i);
      } else {
        r := Err(TokenNotFound);
      }
    }

    method ReadRefreshById(tenant: Tenant, id: Id) returns (r: Result<(Id, RefreshToken)>)
      ensures r == Sql.ReadRefreshById(View(), tenant, id)
    {
      if id !in refresh { return Err(TokenNotFound); }
      r := CheckRefresh(tenant, id);
    }

    /** One DELETE on the refresh table, with the cascade into the access table. */
    method DropRefresh(dead: set<Id>)
      modifies this`refresh, this`access
      ensures View() == Sql.DropRefresh(old(View()), dead)
    {
      refresh := refresh - dead;
      access := map a | a in access && !Sql.Under(access[a], dead) :: access[a];
    }

    method DeleteRefresh(tenant: Tenant, id: Id) returns (r: Result<()>)
      modifies this`refresh, this`access
      ensures Sql.DeleteRefresh(old(View()), tenant, id) == Sql.Reply(View(), r)
    {
      if id !in refresh || refresh[id].tenant != tenant { return Err(TokenNotFound); }
      DropRefresh({id});
      r := Ok(());
    }

    method CreateAccess(id: Id, row: AccessToken) returns (r: Result<()>)
      modifies this`access
      ensures Sql.InsertAccess(old(View()), id, row) == Sql.Reply(View(), r)
    {
      if id in access { return Err(Duplicate); }
      if row.parent.Some? && row.parent.value !in refresh { return Err(Reference); }
      access := access[id := row];
      r := Ok(());
    }

    method ReadAccess(tenant: Tenant, id: Id) returns (r: Result<(Id, AccessToken)>)
      ensures r == Sql.ReadAccess(View(), tenant, id)
    {
      if id !in access { return Err(TokenNotFound); }
      if access[id].tenant != tenant { return Err(TenantMismatch); }
      if access[id].expires < now { return Err(TokenNotFound); }
      r := Ok((id, access[id]));
    }

    method DeleteAccess(tenant: Tenant, id: Id) returns (r: Result<()>)
      modifies this`access
      ensures Sql.DeleteAccess(old(View()), tenant, id) == Sql.Reply(View(), r)
    {
      if id !in access || access[id].tenant != tenant { return Err(TokenNotFound); }
      access := access - {id};
      r := Ok(());
    }

    method DropGrantsOf(tenant: Tenant, subjects: set<Subject>, client: Option<ClientId>)
      modifies this`refresh, this`access
      ensures View() ==
                Sql.DropAccessOf(Sql.DropRefreshOf(old(View()), tenant, subjects, client), tenant, subjects, client)
    {
      var dead := set i | i in refresh && Sql.Covers(tenant, subjects, client, refresh[i].tenant, refresh[i].grant);
      DropRefresh(dead);
      access := map a | a in access && !Sql.Covers(tenant, subjects, client, access[a].tenant, access[a].grant)
                  :: access[a];
    }

    /** Removes the rows of this triple, and with its grants what hangs under them; every other row stays. */
    method DeleteGrants(tenant: Tenant, subject: Subject, client: ClientId)
      modifies this`refresh, this`access
      ensures forall i :: i in refresh ==> i in old(refresh) && refresh[i] == old(refresh)[i]
      ensures forall i :: i in old(refresh) ==>
                (i in refresh <==>
                  !Sql.OfTriple(tenant, subject, client, old(refresh)[i].tenant, old(refresh)[i].grant))
      ensures forall a :: a in access ==> a in old(access) && access[a] == old(access)[a]
      ensures forall a :: a in old(access) ==>
                            (a in access <==>
                              && !Sql.OfTriple(tenant, subject, client, old(access)[a].tenant, old(access)[a].grant)
                              && !(old(access)[a].parent.Some? &&
                                   old(access)[a].parent.value in old(refresh).Keys - refresh.Keys))
      ensures View() == Sql.DeleteGrants(old(View()), tenant, subject, client)
    {
      DropGrantsOf(tenant, {subject}, Some(client));
    }

    method DeleteGrantsForEmail(k: AccountKey)
      modifies this`requests, this`refresh, this`access
      ensures View() == Sql.DeleteGrantsForEmail(old(View()), k)
    {
      var subjects: set<Subject> := if k in accounts then {User(accounts[k].id)} else {};
      DropGrantsOf(k.tenant, subjects, None);
      requests := map i | i in requests && !(requests[i].tenant == k.tenant && requests[i].subject in subjects)
                    :: requests[i];
    }

    /** Removes the expired rows, and with an expired grant what hangs under it; every other row stays. */
    method SweepTokens()
      modifies this`refresh, this`access
      ensures forall i :: i in refresh <==> i in old(refresh) && old(refresh)[i].expires >= now
      ensures forall i :: i in refresh ==> refresh[i] == old(refresh)[i]
      ensures forall a :: a in access ==> a in old(access) && access[a] == old(access)[a]
      ensures forall a :: a in old(access) ==>
                            (a in access <==>
                              && old(access)[a].expires >= now
                              && !(old(access)[a].parent.Some? &&
                                   old(access)[a].parent.value in old(refresh).Keys - refresh.Keys))
      ensures View() == Sql.SweepTokens(old(View()))
    {
      access := map a | a in access && access[a].expires >= now :: access[a];
      var dead := set i | i in refresh && refresh[i].expires < now;
      DropRefresh(dead);
    }

    // ---- oidc/browser_session_repository.go ----

    method CreateBrowser(id: Id, row: BrowserSession) returns (r: Result<()>)
      modifies this`browsers
      ensures Sql.InsertBrowser(old(View()), id, row) == Sql.Reply(View(), r)
    {
      if id in browsers || exists j :: j in browsers && browsers[j].hash == row.hash { return Err(Duplicate); }
      if !exists k :: k in accounts && accounts[k].id == row.account { return Err(Reference); }
      browsers := browsers[id := row];
      r := Ok(());
    }

    method ReadBrowser(tenant: Tenant, token: Secret) returns (r: Result<(Id, BrowserSession)>)
      requires UniqueCookies(browsers)
      ensures r == Sql.ReadBrowser(View(), tenant, token)
    {
      if i :| i in browsers && browsers[i].hash == Sha256(token) {
        Sql.FindsBrowser(View(), i);
        if browsers[i].tenant != tenant { return Err(TenantMismatch); }
        if browsers[i].expires < now { return Err(BrowserSessionNotFound); }
        r := Ok((i, browsers[i]));
      } else {
        r := Err(BrowserSessionNotFound);
      }
    }

    method DeleteBrowser(tenant: Tenant, token: Secret) returns (r: Result<()>)
      requires UniqueCookies(browsers)
      modifies this`browsers
      ensures Sql.DeleteBrowser(old(View()), tenant, token) == Sql.Reply(View(), r)
    {
      if i :| i in browsers && browsers[i].tenant == tenant && browsers[i].hash == Sha256(token) {
        Sql.FindsBrowser(View(), i);
        browsers := browsers - {i};
        r := Ok(());
      } else {
        r := Err(BrowserSessionNotFound);
      }
    }

    method DeleteBrowsersForEmail(k: AccountKey)
      modifies this`browsers
      ensures View() == Sql.DeleteBrowsersForEmail(old(View()), k)
    {
      browsers := map i | i in browsers &&
                          !(browsers[i].tenant == k.tenant && k in accounts && browsers[i].account == accounts[k].id)
                    :: browsers[i];
    }

    method SweepBrowsers()
      modifies this`browsers
      ensures View() == Sql.SweepBrowsers(old(View()))
    {
      browsers := map i | i in browsers && browsers[i].expires >= now :: browsers[i];
    }
  }
}
