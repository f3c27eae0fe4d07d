/** The OIDC storage operations: authorization requests, grants, revocation and browser sessions. */
module Oidc {
  import opened Base
  import opened Schema
  import opened Sql
  import opened Values
  import opened Tokens
  import Authn

  /** What the library passes back to token creation: the request it loaded, held in memory. */
  datatype TokenRequest =
    | ForRequest(id: Id, request: AuthRequest)
    | ForRenewal(id: Id, token: RefreshToken)

  function GrantFor(r: TokenRequest): Grant {
    match r
    case ForRequest(_, q) => Grant(q.client, q.subject, [q.client], q.scopes)
    case ForRenewal(_, f) => f.grant
  }

  /** The minted values of one token response: two row ids and a refresh secret. */
  datatype Mints = Mints(refresh: Id, secret: Secret, access: Id)

  function RefreshRow(c: Config, now: Time, tenant: Tenant, r: TokenRequest, secret: Secret): RefreshToken {
    match r
    case ForRequest(_, q) =>
      RefreshToken(tenant, Sha256(secret), GrantFor(r), q.amr, q.authTime, now + c.issuance.refreshExpiry)
    case ForRenewal(_, f) =>
      RefreshToken(tenant, Sha256(secret), GrantFor(r), f.amr, f.authTime, now + c.issuance.refreshExpiry)
  }

  function AccessRow(c: Config, now: Time, tenant: Tenant, r: TokenRequest, parent: Option<Id>): AccessToken {
    AccessToken(tenant, GrantFor(r), parent, now + c.issuance.accessExpiry)
  }

  ghost function CreateAccessToken(c: Config, t: State, tenant: Tenant, r: TokenRequest, m: Mints): Reply<Value> {
    var row := AccessRow(c, t.now, tenant, r, None);
    var created := InsertAccess(t, m.access, row);
    if created.result.Err? then Reply(t, Err(created.result.error))
    else Reply(created.state, Ok(Minted(m.access, None, row.expires)))
  }

  /** A renewal first spends the presented grant: the row it loaded, or the one its token names. */
  ghost function SpendGrant(t: State, tenant: Tenant, r: TokenRequest, current: Secret): Reply<()> {
    if r.ForRenewal? then DeleteRefresh(t, tenant, r.id)
    else
      var read := ReadRefresh(t, tenant, current);
      if read.Err? then Reply(t, Err(read.error)) else DeleteRefresh(t, tenant, read.value.0)
  }

  ghost function CreatePair(c: Config, t: State, tenant: Tenant, r: TokenRequest, m: Mints): Reply<Value> {
    var refreshed := InsertRefresh(t, m.refresh, RefreshRow(c, t.now, tenant, r, m.secret));
    if refreshed.result.Err? then Reply(t, Err(refreshed.result.error))
    else
      var row := AccessRow(c, t.now, tenant, r, Some(m.refresh));
      var created := InsertAccess(refreshed.state, m.access, row);
      if created.result.Err? then Reply(refreshed.state, Err(created.result.error))
      else Reply(created.state, Ok(Minted(m.access, Some(m.secret), row.expires)))
  }

  ghost function CreateAccessAndRefreshTokens(
    c: Config, t: State, tenant: Tenant, r: TokenRequest, current: Option<Secret>, m: Mints): Reply<Value>
  {
    var spent := if current.Some? then SpendGrant(t, tenant, r, current.value) else Reply(t, Ok(()));
    if spent.result.Err? then Reply(t, Err(spent.result.error))
    else CreatePair(c, spent.state, tenant, r, m)
  }

  /** A request already gone is the desired end state. */
  ghost function DeleteAuthRequest(t: State, tenant: Tenant, id: Id): Reply<Value> {
    Reply(DeleteRequest(t, tenant, id).state, Ok(Nothing))
  }

  /** The token endpoint's code exchange: load by code, mint, and delete the request. */
  ghost function ExchangeCode(
    c: Config, t: State, tenant: Tenant, code: Secret, offline: bool, m: Mints): Reply<Value>
  {
    var read := ReadRequestByCode(t, tenant, code);
    if read.Err? then Reply(t, Err(read.error))
    else
      var r := ForRequest(read.value.0, read.value.1);
      var minted :=
        if offline then CreateAccessAndRefreshTokens(c, t, tenant, r, None, m)
          else CreateAccessToken(c, t, tenant, r, m);
      if minted.result.Err? then minted
      else Reply(DeleteAuthRequest(minted.state, tenant, r.id).state, minted.result)
  }

  /** The refresh grant: load by token, let the library narrow the scopes, and rotate. */
  ghost function RefreshGrant(
    c: Config, t: State, tenant: Tenant, token: Secret, scopes: Option<seq<string>>, m: Mints): Reply<Value>
  {
    var read := ReadRefresh(t, tenant, token);
    if read.Err? then Reply(t, Err(read.error))
    else
      var (id, row) := read.value;
      var r := ForRenewal(id, if scopes.Some? then row.(grant := row.grant.(scopes := scopes.value)) else row);
      CreateAccessAndRefreshTokens(c, t, tenant, r, Some(token), m)
  }

  /** A refresh token is tried first, an access token second; an unknown id is a success (RFC 7009, 2.2). */
  ghost function RevokeToken(t: State, tenant: Tenant, id: Id): Reply<Value> {
    if ReadRefreshById(t, tenant, id).Ok? then Reply(DeleteRefresh(t, tenant, id).state, Ok(Nothing))
    else Reply(DeleteAccess(t, tenant, id).state, Ok(Nothing))
  }

  ghost function TerminateSession(t: State, tenant: Tenant, subject: Subject, client: ClientId): Reply<Value> {
    Reply(DeleteGrants(t, tenant, subject, client), Ok(Nothing))
  }

  /** RP-initiated logout: read the cookie, delete it, and end the grants it names. */
  ghost function Logout(t: State, tenant: Tenant, cookie: Secret, client: ClientId): Reply<Value> {
    var read := ReadBrowser(t, tenant, cookie);
    var u := DeleteBrowser(t, tenant, cookie).state;
    if read.Ok? then TerminateSession(u, tenant, User(read.value.1.account), client) else Reply(u, Ok(Nothing))
  }

  ghost function GetRefreshTokenInfo(t: State, tenant: Tenant, client: ClientId, token: Secret): Result<Value> {
    var read := ReadRefresh(t, tenant, token);
    if read.Err? || read.value.1.grant.client != client then Err(TokenNotFound)
    else Ok(InfoOf(read.value.1.grant.subject, read.value.0))
  }

  /** setUserinfo: the one place claims are shaped, and where a dead account is refused. */
  ghost function SetUserinfo(t: State, tenant: Tenant, subject: Subject, scopes: seq<string>): Result<Value> {
    if subject == Nobody then Err(AccountNotFound)
    else
      var read := ReadAccountById(t, tenant, subject.id);
      if read.Err? then Err(read.error)
      else
        var (k, account) := read.value;
        if account.deleted || !account.enabled then Err(AccountDisabled)
        else Ok(ProfileOf(Profile(account.id, if "email" in scopes then Some((k.email, account.verified)) else None)))
  }

  ghost function UserinfoFromToken(t: State, tenant: Tenant, id: Id): Result<Value> {
    var read := ReadAccess(t, tenant, id);
    if read.Err? then Err(read.error) else SetUserinfo(t, tenant, read.value.1.grant.subject, read.value.1.grant.scopes)
  }

  /** A request nobody has authenticated yet. */
  function PendingRequest(
    c: Config, now: Time, tenant: Tenant, client: ClientId, scopes: seq<string>): (row: AuthRequest)
    ensures row.tenant == tenant && row.subject == Nobody && !row.done && row.code.None? &&
              row.expires == now + c.requestExpiry
  {
    AuthRequest(tenant, client, Nobody, scopes, [], 0, false, None, now + c.requestExpiry)
  }

  ghost function CreateAuthRequest(
    c: Config, t: State, tenant: Tenant, id: Id, client: ClientId, scopes: seq<string>): Reply<Value>
  {
    var row := PendingRequest(c, t.now, tenant, client, scopes);
    var created := InsertRequest(t, id, row);
    Reply(created.state, if created.result.Ok? then Ok(RequestOf(id, row)) else Err(created.result.error))
  }

  /** The login form: the shared logon gate, then a browser session for the account it returned. */
  ghost function SignIn(c: Config, t: State, k: AccountKey, password: string, id: Id, cookie: Secret): Reply<Value> {
    var logon := Authn.VerifyPassword(c, t, k, password);
    if logon.result.Err? then Reply(logon.state, Err(logon.result.error))
    else
      var account := logon.result.value.id;
      var created :=
        InsertBrowser(logon.state, id,
                      BrowserSession(k.tenant, Sha256(cookie), account, t.now, t.now + c.cookieExpiry));
      Reply(created.state, if created.result.Ok? then Ok(CookieOf(cookie, account)) else Err(created.result.error))
  }

  /** What the login form does once the password has passed: the account's browser session. */
  ghost function OpenSession(c: Config, t: State, tenant: Tenant, account: Id, id: Id, cookie: Secret): Reply<Value> {
    var created :=
      InsertBrowser(t, id, BrowserSession(tenant, Sha256(cookie), account, t.now, t.now + c.cookieExpiry));
    Reply(created.state, if created.result.Ok? then Ok(CookieOf(cookie, account)) else Err(created.result.error))
  }

  datatype Op =
    | Authorize(tenant: Tenant, id: Id, client: ClientId, scopes: seq<string>)
    | LoadRequest(tenant: Tenant, id: Id)
    | LoadByCode(tenant: Tenant, code: Secret)
    | Complete(tenant: Tenant, id: Id, subject: Subject, authTime: Time, amr: seq<string>)
    | StoreCode(tenant: Tenant, id: Id, code: Secret)
    | DropRequest(tenant: Tenant, id: Id)
    | Exchange(tenant: Tenant, code: Secret, offline: bool, mints: Mints)
    | Refresh(tenant: Tenant, token: Secret, narrowed: Option<seq<string>>, mints: Mints)
    | LoadGrant(tenant: Tenant, token: Secret)
    | Inspect(tenant: Tenant, client: ClientId, token: Secret)
    | RevokeById(tenant: Tenant, id: Id)
    | Terminate(tenant: Tenant, subject: Subject, client: ClientId)
    | EndSession(tenant: Tenant, cookie: Secret, client: ClientId)
    | Login(tenant: Tenant, email: Email, password: string, id: Id, cookie: Secret)
    | LoadCookie(tenant: Tenant, cookie: Secret)
    | Userinfo(tenant: Tenant, access: Id)
    | IdTokenInfo(tenant: Tenant, subject: Subject, scopes: seq<string>)

  ghost function Done(r: Reply<()>): Reply<Value> {
    Reply(r.state, if r.result.Ok? then Ok(Nothing) else Err(r.result.error))
  }

  /** Every operation needs a tenant in its context (TenantFrom). */
  ghost function Step(c: Config, t: State, op: Op): Reply<Value> {
    if op.tenant == "" then Reply(t, Err(MissingTenant))
    else match op
      case Authorize(tenant, id, client, scopes) => CreateAuthRequest(c, t, tenant, id, client, scopes)
      case LoadRequest(tenant, id) => Loaded(t, ReadRequest(t, tenant, id))
      case LoadByCode(tenant, code) => Loaded(t, ReadRequestByCode(t, tenant, code))
      case Complete(tenant, id, subject, authTime, amr) =>
        Done(AuthenticateRequest(t, tenant, id, subject, authTime, amr))
      case StoreCode(tenant, id, code) => Done(SaveCode(t, tenant, id, code))
      case DropRequest(tenant, id) => DeleteAuthRequest(t, tenant, id)
      case Exchange(tenant, code, offline, m) => ExchangeCode(c, t, tenant, code, offline, m)
      case Refresh(tenant, token, scopes, m) => RefreshGrant(c, t, tenant, token, scopes, m)
      case LoadGrant(tenant, token) => Granted(t, ReadRefresh(t, tenant, token))
      case Inspect(tenant, client, token) => Reply(t, GetRefreshTokenInfo(t, tenant, client, token))
      case RevokeById(tenant, id) => RevokeToken(t, tenant, id)
      case Terminate(tenant, subject, client) => TerminateSession(t, tenant, subject, client)
      case EndSession(tenant, cookie, client) => Logout(t, tenant, cookie, client)
      case Login(tenant, email, password, id, cookie) => SignIn(c, t, AccountKey(tenant, email), password, id, cookie)
      case LoadCookie(tenant, cookie) => Browsed(t, ReadBrowser(t, tenant, cookie), cookie)
      case Userinfo(tenant, access) => Reply(t, UserinfoFromToken(t, tenant, access))
      case IdTokenInfo(tenant, subject, scopes) => Reply(t, SetUserinfo(t, tenant, subject, scopes))
  }

  ghost function Loaded(t: State, r: Result<(Id, AuthRequest)>): Reply<Value> {
    Reply(t, if r.Ok? then Ok(RequestOf(r.value.0, r.value.1)) else Err(r.error))
  }

  ghost function Granted(t: State, r: Result<(Id, RefreshToken)>): Reply<Value> {
    Reply(t, if r.Ok? then Ok(GrantOf(r.value.0, r.value.1)) else Err(r.error))
  }

  ghost function Browsed(t: State, r: Result<(Id, BrowserSession)>, cookie: Secret): Reply<Value> {
    Reply(t, if r.Ok? then Ok(CookieOf(cookie, r.value.1.account)) else Err(r.error))
  }
}
