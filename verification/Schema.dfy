/** The tables (internal/db/migrations), the clock and the key ring the process caches. */
module Schema {
  import opened Base

  datatype AccountKey = AccountKey(tenant: Tenant, email: Email)

  datatype SessionKey = SessionKey(tenant: Tenant, email: Email, client: ClientId)

  datatype Account = Account(
    id: Id, password: Bcrypt, verified: bool, verification: Option<Sha>, enabled: bool, deleted: bool)

  /** An acknowledged api-key session: only the latest refresh jti renews it. */
  datatype Session = Session(jti: Id, expires: Time)

  datatype Attempt = Attempt(count: int, lockedUntil: Option<Time>, modified: Time)

  datatype LogonCode = LogonCode(hash: Bcrypt, expires: Time)

  datatype PasswordReset = PasswordReset(hash: Sha, expires: Time)

  /** The OIDC subject: an account id, or nothing until the login completes. */
  datatype Subject = Nobody | User(id: Id)

  /** What a token is for; the columns both token tables copy from the request. */
  datatype Grant = Grant(client: ClientId, subject: Subject, audience: seq<string>, scopes: seq<string>)

  datatype AuthRequest = AuthRequest(
    tenant: Tenant, client: ClientId, subject: Subject, scopes: seq<string>, amr: seq<string>,
    authTime: Time, done: bool, code: Option<Sha>, expires: Time)

  datatype RefreshToken = RefreshToken(
    tenant: Tenant, hash: Sha, grant: Grant, amr: seq<string>, authTime: Time, expires: Time)

  datatype AccessToken = AccessToken(tenant: Tenant, grant: Grant, parent: Option<Id>, expires: Time)

  datatype BrowserSession = BrowserSession(
    tenant: Tenant, hash: Sha, account: Id, authTime: Time, expires: Time)

  /** A key pair is named by one number: a signature made with it verifies under it alone. */
  type Key = nat

  datatype Keyring = Keyring(kid: Id, key: Key, public: map<Id, Key>)

  datatype State = State(
    now: Time,
    ring: Keyring,
    accounts: map<AccountKey, Account>,
    sessions: map<SessionKey, Session>,
    attempts: map<AccountKey, Attempt>,
    codes: map<AccountKey, LogonCode>,
    resets: map<AccountKey, PasswordReset>,
    requests: map<Id, AuthRequest>,
    refresh: map<Id, RefreshToken>,
    access: map<Id, AccessToken>,
    browsers: map<Id, BrowserSession>)

  // ---- the constraints the database enforces ----

  ghost predicate UniqueAccountIds(accounts: map<AccountKey, Account>) {
    forall k, l :: k in accounts && l in accounts && accounts[k].id == accounts[l].id ==> k == l
  }

  ghost predicate UniqueCodes(requests: map<Id, AuthRequest>) {
    forall i, j ::
      (i in requests && j in requests && requests[i].code.Some? && requests[i].code == requests[j].code)
      ==> i == j
  }

  ghost predicate UniqueRefreshHashes(refresh: map<Id, RefreshToken>) {
    forall i, j :: i in refresh && j in refresh && refresh[i].hash == refresh[j].hash ==> i == j
  }

  ghost predicate UniqueCookies(browsers: map<Id, BrowserSession>) {
    forall i, j :: i in browsers && j in browsers && browsers[i].hash == browsers[j].hash ==> i == j
  }

  ghost predicate Constrained(t: State) {
    && UniqueAccountIds(t.accounts)
    && UniqueCodes(t.requests)
    && UniqueRefreshHashes(t.refresh)
    && UniqueCookies(t.browsers)
  }

  // ---- what the service adds on top ----

  /**
   * An access token under a grant has its refresh row (the foreign key), of the same tenant and
   * for the same client, subject, audience and scopes.
   */
  ghost predicate Rooted(refresh: map<Id, RefreshToken>, access: map<Id, AccessToken>) {
    forall a :: a in access && access[a].parent.Some? ==>
                  && access[a].parent.value in refresh
                  && access[a].tenant == refresh[access[a].parent.value].tenant
                  && access[a].grant == refresh[access[a].parent.value].grant
  }

  ghost predicate Valid(t: State) {
    Constrained(t) && Rooted(t.refresh, t.access)
  }

  /** ... and expires no later than its grant. */
  ghost predicate Nested(t: State) {
    forall a :: a in t.access && t.access[a].parent.Some? && t.access[a].parent.value in t.refresh ==>
                  t.access[a].expires <= t.refresh[t.access[a].parent.value].expires
  }
}
