/** Every SQL statement the repositories issue, as a function on the state. Each is one atomic step. */
module Sql {
  import opened Base
  import opened Schema

  /** The state a statement or an operation leaves behind, and what it reports. */
  datatype Reply<+R> = Reply(state: State, result: Result<R>)

  // ---- accounts ----

  ghost function ReadAccount(t: State, k: AccountKey): Result<Account> {
    if k in t.accounts then Ok(t.accounts[k]) else Err(AccountNotFound)
  }

  ghost function AccountWithId(t: State, id: Id): Option<AccountKey> {
    if k: AccountKey :| k in t.accounts && t.accounts[k].id == id then Some(k) else None
  }

  /** SELECT ... WHERE tenant_id = $1 AND id = $2. */
  ghost function ReadAccountById(t: State, tenant: Tenant, id: Id): Result<(AccountKey, Account)> {
    match AccountWithId(t, id)
    case Some(k) => if k.tenant == tenant then Ok((k, t.accounts[k])) else Err(AccountNotFound)
    case None => Err(AccountNotFound)
  }

  /** UNIQUE (tenant_id, email) and the primary key are what makes a duplicate fail. */
  ghost function InsertAccount(t: State, k: AccountKey, a: Account): Reply<()> {
    if k in t.accounts || AccountWithId(t, a.id).Some? then Reply(t, Err(AccountDuplicate))
    else Reply(t.(accounts := t.accounts[k := a]), Ok(()))
  }

  ghost function UpdateAccount(t: State, k: AccountKey, a: Account): Reply<()>
    requires k in t.accounts ==> a.id == t.accounts[k].id
  {
    if k in t.accounts then Reply(t.(accounts := t.accounts[k := a]), Ok(()))
    else Reply(t, Err(AccountNotFound))
  }

  ghost function SetVerified(t: State, k: AccountKey): Reply<()> {
    if k !in t.accounts then Reply(t, Err(AccountNotFound))
    else UpdateAccount(t, k, t.accounts[k].(verified := true, verification := None))
  }

  ghost function SetVerificationHash(t: State, k: AccountKey, hash: Sha): Reply<()> {
    if k !in t.accounts then Reply(t, Err(AccountNotFound))
    else UpdateAccount(t, k, t.accounts[k].(verification := Some(hash)))
  }

  ghost function SetPasswordHash(t: State, k: AccountKey, hash: Bcrypt): Reply<()> {
    if k !in t.accounts then Reply(t, Err(AccountNotFound))
    else UpdateAccount(t, k, t.accounts[k].(password := hash))
  }

  ghost function SoftDelete(t: State, k: AccountKey): Reply<()> {
    if k !in t.accounts then Reply(t, Err(AccountNotFound))
    else UpdateAccount(t, k, t.accounts[k].(deleted := true))
  }

  // ---- api-key sessions ----

  ghost function UpsertSession(t: State, k: SessionKey, row: Session): State {
    t.(sessions := t.sessions[k := row])
  }

  ghost function ReadSession(t: State, k: SessionKey): Result<Session> {
    if k in t.sessions then Ok(t.sessions[k]) else Err(SessionNotFound)
  }

  ghost predicate Holds(t: State, k: SessionKey, jti: Id) {
    k in t.sessions && t.sessions[k].jti == jti
  }

  /** UPDATE ... WHERE the key matches AND refresh_jti = current: a compare-and-swap. */
  ghost function RotateSession(t: State, k: SessionKey, current: Id, next: Session): (State, bool) {
    if Holds(t, k, current) then (t.(sessions := t.sessions[k := next]), true) else (t, false)
  }

  ghost function DeleteSession(t: State, k: SessionKey): Reply<()> {
    if k in t.sessions then Reply(t.(sessions := t.sessions - {k}), Ok(()))
    else Reply(t, Err(SessionNotFound))
  }

  ghost function DeleteSessions(t: State, k: AccountKey): State {
    t.(sessions := map s | s in t.sessions && AccountKey(s.tenant, s.email) != k :: t.sessions[s])
  }

  ghost function SweepSessions(t: State): State {
    t.(sessions := map s | s in t.sessions && t.sessions[s].expires >= t.now :: t.sessions[s])
  }

  // ---- failed attempts ----

  ghost function GetAttempt(t: State, k: AccountKey): Option<Attempt> {
    if k in t.attempts then Some(t.attempts[k]) else None
  }

  /** The row INSERT ... ON CONFLICT DO UPDATE leaves. */
  function Counted(row: Option<Attempt>, now: Time, max: int, lockFor: Time): Attempt {
    var count := if row.Some? then row.value.count + 1 else 1;
    Attempt(count,
            if count >= max then Some(now + lockFor) else if row.Some? then row.value.lockedUntil else None,
            now)
  }

  ghost function IncrementAndLock(t: State, k: AccountKey, max: int, lockFor: Time): (State, Option<Time>) {
    var row := Counted(GetAttempt(t, k), t.now, max, lockFor);
    (t.(attempts := t.attempts[k := row]), row.lockedUntil)
  }

  ghost function ClearAttempts(t: State, k: AccountKey): State {
    t.(attempts := t.attempts - {k})
  }

  ghost function SweepAttempts(t: State, olderThan: Time): State {
    t.(attempts := map k | k in t.attempts && t.attempts[k].modified >= t.now - olderThan :: t.attempts[k])
  }

  // ---- logon codes and reset tokens: one slot per account ----

  ghost function UpsertCode(t: State, k: AccountKey, row: LogonCode): State {
    t.(codes := t.codes[k := row])
  }

  ghost function ReadCode(t: State, k: AccountKey): Result<Bcrypt> {
    if k !in t.codes then Err(LogonCodeInvalid)
    else if t.now > t.codes[k].expires then Err(LogonCodeExpired)
    else Ok(t.codes[k].hash)
  }

  ghost function DeleteCode(t: State, k: AccountKey): State {
    t.(codes := t.codes - {k})
  }

  ghost function SweepCodes(t: State): State {
    t.(codes := map k | k in t.codes && t.codes[k].expires >= t.now :: t.codes[k])
  }

  ghost function UpsertReset(t: State, k: AccountKey, row: PasswordReset): State {
    t.(resets := t.resets[k := row])
  }

  ghost function ReadReset(t: State, k: AccountKey): Result<Sha> {
    if k !in t.resets then Err(ResetTokenInvalid)
    else if t.now > t.resets[k].expires then Err(ResetTokenExpired)
    else Ok(t.resets[k].hash)
  }

  ghost function DeleteReset(t: State, k: AccountKey): State {
    t.(resets := t.resets - {k})
  }

  ghost function SweepResets(t: State): State {
    t.(resets := map k | k in t.resets && t.resets[k].expires >= t.now :: t.resets[k])
  }

  // ---- OIDC authorization requests ----

  ghost function RequestWithCode(t: State, code: Sha): Option<Id> {
    if i: Id :| i in t.requests && t.requests[i].code == Some(code) then Some(i) else None
  }

  ghost function InsertRequest(t: State, id: Id, row: AuthRequest): Reply<()> {
    if id in t.requests || (row.code.Some? && RequestWithCode(t, row.code.value).Some?)
    then Reply(t, Err(Duplicate))
    else Reply(t.(requests := t.requests[id := row]), Ok(()))
  }

  /** The tenant is checked after the row is found, expiry after the tenant. */
  ghost function OwnRequest(t: State, tenant: Tenant, id: Option<Id>): Result<(Id, AuthRequest)>
    requires id.Some? ==> id.value in t.requests
  {
    if id.None? then Err(AuthRequestNotFound)
    else if t.requests[id.value].tenant != tenant then Err(TenantMismatch)
    else if t.requests[id.value].expires < t.now then Err(AuthRequestNotFound)
    else Ok((id.value, t.requests[id.value]))
  }

  ghost function ReadRequest(t: State, tenant: Tenant, id: Id): Result<(Id, AuthRequest)> {
    OwnRequest(t, tenant, if id in t.requests then Some(id) else None)
  }

  ghost function ReadRequestByCode(t: State, tenant: Tenant, code: Secret): Result<(Id, AuthRequest)> {
    OwnRequest(t, tenant, RequestWithCode(t, Sha256(code)))
  }

  ghost predicate OwnsRequest(t: State, tenant: Tenant, id: Id) {
    id in t.requests && t.requests[id].tenant == tenant
  }

  /** The UPDATEs look at the tenant and the id, not at expires. */
  ghost function AuthenticateRequest(
    t: State, tenant: Tenant, id: Id, subject: Subject, authTime: Time, amr: seq<string>): Reply<()>
  {
    if !OwnsRequest(t, tenant, id) then Reply(t, Err(AuthRequestNotFound))
    else
      var row := t.requests[id].(subject := subject, authTime := authTime, amr := amr, done := true);
      Reply(t.(requests := t.requests[id := row]), Ok(()))
  }

  ghost function SaveCode(t: State, tenant: Tenant, id: Id, code: Secret): Reply<()> {
    if !OwnsRequest(t, tenant, id) then Reply(t, Err(AuthRequestNotFound))
    else if exists j :: j in t.requests && j != id && t.requests[j].code == Some(Sha256(code))
    then Reply(t, Err(Duplicate))
    else Reply(t.(requests := t.requests[id := t.requests[id].(code := Some(Sha256(code)))]), Ok(()))
  }

  ghost function DeleteRequest(t: State, tenant: Tenant, id: Id): Reply<()> {
    if !OwnsRequest(t, tenant, id) then Reply(t, Err(AuthRequestNotFound))
    else Reply(t.(requests := t.requests - {id}), Ok(()))
  }

  ghost function SweepRequests(t: State): State {
    t.(requests := map i | i in t.requests && t.requests[i].expires >= t.now :: t.requests[i])
  }

  // ---- OIDC tokens ----

  ghost function RefreshWithHash(t: State, hash: Sha): Option<Id> {
    if i: Id :| i in t.refresh && t.refresh[i].hash == hash then Some(i) else None
  }

  ghost function InsertRefresh(t: State, id: Id, row: RefreshToken): Reply<()> {
    if id in t.refresh || RefreshWithHash(t, row.hash).Some? then Reply(t, Err(Duplicate))
    else Reply(t.(refresh := t.refresh[id := row]), Ok(()))
  }

  ghost function OwnRefresh(t: State, tenant: Tenant, id: Option<Id>): Result<(Id, RefreshToken)>
    requires id.Some? ==> id.value in t.refresh
  {
    if id.None? then Err(TokenNotFound)
    else if t.refresh[id.value].tenant != tenant then Err(TenantMismatch)
    else if t.refresh[id.value].expires < t.now then Err(TokenNotFound)
    else Ok((id.value, t.refresh[id.value]))
  }

  ghost function ReadRefresh(t: State, tenant: Tenant, token: Secret): Result<(Id, RefreshToken)> {
    OwnRefresh(t, tenant, RefreshWithHash(t, Sha256(token)))
  }

  ghost function ReadRefreshById(t: State, tenant: Tenant, id: Id): Result<(Id, RefreshToken)> {
    OwnRefresh(t, tenant, if id in t.refresh then Some(id) else None)
  }

  predicate Under(row: AccessToken, dead: set<Id>) {
    row.parent.Some? && row.parent.value in dead
  }

  /** Deleting refresh rows takes their access tokens along: ON DELETE CASCADE. */
  ghost function DropRefresh(t: State, dead: set<Id>): State {
    t.(refresh := t.refresh - dead,
       access := map a | a in t.access && !Under(t.access[a], dead) :: t.access[a])
  }

  ghost function DeleteRefresh(t: State, tenant: Tenant, id: Id): Reply<()> {
    if id in t.refresh && t.refresh[id].tenant == tenant then Reply(DropRefresh(t, {id}), Ok(()))
    else Reply(t, Err(TokenNotFound))
  }

  ghost function InsertAccess(t: State, id: Id, row: AccessToken): Reply<()> {
    if id in t.access then Reply(t, Err(Duplicate))
    else if row.parent.Some? && row.parent.value !in t.refresh then Reply(t, Err(Reference))
    else Reply(t.(access := t.access[id := row]), Ok(()))
  }

  ghost function ReadAccess(t: State, tenant: Tenant, id: Id): Result<(Id, AccessToken)> {
    if id !in t.access then Err(TokenNotFound)
    else if t.access[id].tenant != tenant then Err(TenantMismatch)
    else if t.access[id].expires < t.now then Err(TokenNotFound)
    else Ok((id, t.access[id]))
  }

  ghost function DeleteAccess(t: State, tenant: Tenant, id: Id): Reply<()> {
    if id in t.access && t.access[id].tenant == tenant then Reply(t.(access := t.access - {id}), Ok(()))
    else Reply(t, Err(TokenNotFound))
  }

  predicate Covers(tenant: Tenant, subjects: set<Subject>, client: Option<ClientId>, rowTenant: Tenant, grant: Grant) {
    rowTenant == tenant && grant.subject in subjects && (client.Some? ==> grant.client == client.value)
  }

  /** The row is this subject's at this client, in this tenant. */
  predicate OfTriple(tenant: Tenant, subject: Subject, client: ClientId, rowTenant: Tenant, grant: Grant) {
    rowTenant == tenant && grant.subject == subject && grant.client == client
  }

  /** The DELETE on the refresh table that DeleteGrants and DeleteGrantsForEmail begin with. */
  ghost function DropRefreshOf(t: State, tenant: Tenant, subjects: set<Subject>, client: Option<ClientId>): State {
    DropRefresh(t, set i | i in t.refresh && Covers(tenant, subjects, client, t.refresh[i].tenant, t.refresh[i].grant))
  }

  /** ... and the one on the access table that follows. */
  ghost function DropAccessOf(t: State, tenant: Tenant, subjects: set<Subject>, client: Option<ClientId>): State {
    t.(access := map a | a in t.access && !Covers(tenant, subjects, client, t.access[a].tenant, t.access[a].grant)
                   :: t.access[a])
  }

  ghost function DropRequestsOf(t: State, tenant: Tenant, subjects: set<Subject>): State {
    t.(requests := map i | i in t.requests && !(t.requests[i].tenant == tenant && t.requests[i].subject in subjects)
                     :: t.requests[i])
  }

  ghost function DeleteGrants(t: State, tenant: Tenant, subject: Subject, client: ClientId): State {
    DropAccessOf(DropRefreshOf(t, tenant, {subject}, Some(client)), tenant, {subject}, Some(client))
  }

  /** SELECT id::text FROM accounts WHERE tenant_id = $1 AND email = $2. */
  ghost function SubjectsOf(t: State, k: AccountKey): set<Subject> {
    if k in t.accounts then {User(t.accounts[k].id)} else {}
  }

  ghost function DeleteGrantsForEmail(t: State, k: AccountKey): State {
    var subjects := SubjectsOf(t, k);
    DropRequestsOf(
      DropAccessOf(DropRefreshOf(t, k.tenant, subjects, None), k.tenant, subjects, None),
      k.tenant, subjects)
  }

  ghost function SweepAccess(t: State): State {
    t.(access := map a | a in t.access && t.access[a].expires >= t.now :: t.access[a])
  }

  ghost function ExpiredRefresh(t: State): set<Id> {
    set i | i in t.refresh && t.refresh[i].expires < t.now
  }

  ghost function SweepRefresh(t: State): State {
    DropRefresh(t, ExpiredRefresh(t))
  }

  ghost function SweepTokens(t: State): State {
    SweepRefresh(SweepAccess(t))
  }

  // ---- OIDC browser sessions ----

  ghost function BrowserWithHash(t: State, hash: Sha): Option<Id> {
    if i: Id :| i in t.browsers && t.browsers[i].hash == hash then Some(i) else None
  }

  /** account_id REFERENCES accounts (id), whatever tenant that account is in. */
  ghost function InsertBrowser(t: State, id: Id, row: BrowserSession): Reply<()> {
    if id in t.browsers || BrowserWithHash(t, row.hash).Some? then Reply(t, Err(Duplicate))
    else if AccountWithId(t, row.account).None? then Reply(t, Err(Reference))
    else Reply(t.(browsers := t.browsers[id := row]), Ok(()))
  }

  ghost function ReadBrowser(t: State, tenant: Tenant, token: Secret): Result<(Id, BrowserSession)> {
    match BrowserWithHash(t, Sha256(token))
    case None => Err(BrowserSessionNotFound)
    case Some(i) =>
      if t.browsers[i].tenant != tenant then Err(TenantMismatch)
      else if t.browsers[i].expires < t.now then Err(BrowserSessionNotFound)
      else Ok((i, t.browsers[i]))
  }

  ghost function DeleteBrowser(t: State, tenant: Tenant, token: Secret): Reply<()> {
    match BrowserWithHash(t, Sha256(token))
    case None => Reply(t, Err(BrowserSessionNotFound))
    case Some(i) =>
      if t.browsers[i].tenant != tenant then Reply(t, Err(BrowserSessionNotFound))
      else Reply(t.(browsers := t.browsers - {i}), Ok(()))
  }

  ghost function DeleteBrowsersForEmail(t: State, k: AccountKey): State {
    t.(browsers := map i | i in t.browsers &&
                           !(t.browsers[i].tenant == k.tenant && k in t.accounts &&
                             t.browsers[i].account == t.accounts[k].id)
                     :: t.browsers[i])
  }

  ghost function SweepBrowsers(t: State): State {
    t.(browsers := map i | i in t.browsers && t.browsers[i].expires >= t.now :: t.browsers[i])
  }

  // ---- the lookups find the one row there is ----

  lemma FindsAccount(t: State, k: AccountKey)
    requires UniqueAccountIds(t.accounts) && k in t.accounts
    ensures AccountWithId(t, t.accounts[k].id) == Some(k)
  {
    assert t.accounts[k].id == t.accounts[k].id;
  }

  lemma FindsRequest(t: State, i: Id, code: Sha)
    requires UniqueCodes(t.requests) && i in t.requests && t.requests[i].code == Some(code)
    ensures RequestWithCode(t, code) == Some(i)
  {
  }

  lemma FindsRefresh(t: State, i: Id)
    requires UniqueRefreshHashes(t.refresh) && i in t.refresh
    ensures RefreshWithHash(t, t.refresh[i].hash) == Some(i)
  {
    assert t.refresh[i].hash == t.refresh[i].hash;
  }

  lemma FindsBrowser(t: State, i: Id)
    requires UniqueCookies(t.browsers) && i in t.browsers
    ensures BrowserWithHash(t, t.browsers[i].hash) == Some(i)
  {
    assert t.browsers[i].hash == t.browsers[i].hash;
  }
}
