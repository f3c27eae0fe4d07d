/** What every operation keeps: the database's constraints, and the grants behind the access tokens. */
module Integrity {
  import opened Base
  import opened Schema
  import opened Sql
  import opened Values
  import opened Service
  import Accounts
  import Authn
  import LogonCodes
  import Oidc
  import Tokens

  /** What validity looks at: the clock, the accounts' ids and the OIDC tables. */
  datatype Side = Side(
    now: Time, ids: map<AccountKey, Id>, requests: map<Id, AuthRequest>, refresh: map<Id, RefreshToken>,
    access: map<Id, AccessToken>, browsers: map<Id, BrowserSession>)

  ghost function OidcSide(t: State): Side {
    Side(t.now, map k | k in t.accounts :: t.accounts[k].id, t.requests, t.refresh, t.access, t.browsers)
  }

  lemma SideDecidesValid(t: State, u: State)
    requires OidcSide(t) == OidcSide(u) && Valid(t)
    ensures Valid(u)
  {
    var ids := OidcSide(t).ids;
    assert forall k :: k in u.accounts <==> k in ids;
    assert forall k :: k in ids ==> u.accounts[k].id == ids[k] && t.accounts[k].id == ids[k];
  }

  // ---- the api-key surface leaves that side alone ----

  lemma GateLeavesSide(t: State, k: AccountKey)
    ensures OidcSide(Authn.GateLogon(t, k).state) == OidcSide(t)
    ensures Authn.GateLogon(t, k).state == Authn.CheckLockout(t, k).state
  {
  }

  lemma AttemptsOnlyLeaveSide(t: State, u: State)
    requires u == t.(attempts := u.attempts)
    ensures OidcSide(u) == OidcSide(t)
  {
  }

  lemma VerifyPasswordLeavesSide(c: Config, t: State, k: AccountKey, password: string)
    ensures OidcSide(Authn.VerifyPassword(c, t, k, password).state) == OidcSide(t)
  {
    var gate := Authn.GateLogon(t, k);
    GateLeavesSide(t, k);
    AttemptsOnlyLeaveSide(gate.state, Authn.CountFailure(c, gate.state, k).0);
    AttemptsOnlyLeaveSide(gate.state, ClearAttempts(gate.state, k));
    hide Authn.CheckLockout, Authn.GateLogon, Authn.CountFailure, ClearAttempts, OidcSide;
  }

  lemma AuthnLeavesSide(c: Config, t: State, op: Authn.Op)
    ensures OidcSide(Authn.Step(c, t, op).state) == OidcSide(t)
  {
    hide Authn.VerifyPassword, Authn.Issue, Authn.ValidateAccess, Authn.LiveAccount, Tokens.Validate;
    if op.Logon? { VerifyPasswordLeavesSide(c, t, op.k, op.password); }
  }

  lemma SetVerifiedLeavesSide(t: State, k: AccountKey)
    ensures OidcSide(SetVerified(t, k).state) == OidcSide(t)
  {
  }

  lemma SpendLeavesSide(t: State, k: AccountKey, account: Account)
    ensures OidcSide(LogonCodes.Spend(t, k, account)) == OidcSide(t)
  {
    SetVerifiedLeavesSide(ClearAttempts(DeleteCode(t, k), k), k);
    hide SetVerified;
  }

  lemma CountLeavesSide(c: Config, t: State, k: AccountKey)
    ensures OidcSide(Authn.CountFailure(c, t, k).0) == OidcSide(t)
  {
    AttemptsOnlyLeaveSide(t, Authn.CountFailure(c, t, k).0);
  }

  lemma CodeLogonLeavesSide(c: Config, t: State, k: AccountKey, client: ClientId, code: string, a: Id, r: Id)
    ensures OidcSide(LogonCodes.Authenticate(c, t, k, client, code, a, r).state) == OidcSide(t)
  {
    var gate := LogonCodes.Gate(t, k, code);
    GateLeavesSide(t, k);
    assert gate.state == Authn.CheckLockout(t, k).state;
    hide OidcSide, Authn.CheckLockout, LogonCodes.Gate, LogonCodes.Spend, Authn.Issue, Authn.CountFailure;
    if gate.result.Ok? { SpendLeavesSide(gate.state, k, gate.result.value.0); }
    CountLeavesSide(c, gate.state, k);
  }

  lemma CodesLeaveSide(c: Config, t: State, op: LogonCodes.Op)
    ensures OidcSide(LogonCodes.Step(c, t, op).state) == OidcSide(t)
  {
    if op.CodeLogon? {
      CodeLogonLeavesSide(c, t, op.k, op.client, op.code, op.accessJti, op.refreshJti);
      hide LogonCodes.Authenticate;
    }
  }

  // ---- the account operations ----

  lemma ExecKeepsValid(t: State, k: AccountKey, change: Accounts.Change)
    requires Valid(t)
    ensures Valid(Accounts.Exec(t, k, change).state)
  {
  }

  lemma ExecKeepsNested(t: State, k: AccountKey, change: Accounts.Change)
    requires Nested(t)
    ensures Nested(Accounts.Exec(t, k, change).state)
  {
  }

  lemma {:induction false} RunBodyKeepsValid(
    t: State, k: AccountKey, body: seq<Accounts.Change>, fault: Accounts.Fault, i: nat)
    requires Valid(t) && i <= |body|
    ensures Valid(Accounts.RunBody(t, k, body, fault, i).state)
    ensures Nested(t) ==> Nested(Accounts.RunBody(t, k, body, fault, i).state)
  {
    if i > 0 {
      RunBodyKeepsValid(t, k, body, fault, i - 1);
      ExecKeepsValid(Accounts.RunBody(t, k, body, fault, i - 1).state, k, body[i - 1]);
      if Nested(t) { ExecKeepsNested(Accounts.RunBody(t, k, body, fault, i - 1).state, k, body[i - 1]); }
      hide Valid, Nested, Accounts.Exec;
    }
  }

  lemma RegisterKeepsValid(t: State, op: Accounts.Op)
    requires Valid(t) && op.Registration?
    ensures Valid(Accounts.Register(t, op.k, op.password, op.salt, op.id, op.token).state)
  {
    var a := Account(op.id, Bcrypt(op.salt, op.password), false, Some(Sha256(op.token)), true, false);
    if InsertAccount(t, op.k, a).result.Ok? {
      assert forall l :: l in t.accounts ==> t.accounts[l].id != a.id;
    }
  }

  lemma RegisterKeepsNested(t: State, op: Accounts.Op)
    requires Nested(t) && op.Registration?
    ensures Nested(Accounts.Register(t, op.k, op.password, op.salt, op.id, op.token).state)
  {
  }

  lemma PlainAccountsLeaveSide(c: Config, t: State, op: Accounts.Op)
    requires !Accounts.Credential(op) && !op.Registration?
    ensures OidcSide(Accounts.Step(c, t, op).state) == OidcSide(t)
  {
  }

  lemma PlainAccountsKeepValid(c: Config, t: State, op: Accounts.Op)
    requires Valid(t) && !Accounts.Credential(op)
    ensures Valid(Accounts.Step(c, t, op).state)
    ensures Nested(t) ==> Nested(Accounts.Step(c, t, op).state)
  {
    if op.Registration? {
      hide Valid, Nested, Accounts.Register;
      RegisterKeepsValid(t, op);
      if Nested(t) { RegisterKeepsNested(t, op); }
    } else {
      PlainAccountsLeaveSide(c, t, op);
      SideDecidesValid(t, Accounts.Step(c, t, op).state);
      hide Valid, Accounts.Step;
    }
  }

  lemma AccountsKeepValid(c: Config, t: State, op: Accounts.Op)
    requires Valid(t)
    ensures Valid(Accounts.Step(c, t, op).state)
    ensures Nested(t) ==> Nested(Accounts.Step(c, t, op).state)
  {
    if !Accounts.Credential(op) {
      PlainAccountsKeepValid(c, t, op);
    } else if Accounts.Step(c, t, op).result.Ok? {
      Accounts.CommittedRanItsBody(c, t, op);
      var body := Accounts.BodyOf(c, op);
      RunBodyKeepsValid(t, op.k, body, op.fault, |body|);
    } else {
      Accounts.CredentialChangeIsAllOrNothing(c, t, op);
    }
    hide Valid, Nested, Accounts.Step, Accounts.RunBody;
  }

  // ---- the OIDC statements ----

  lemma DropRefreshKeepsValid(t: State, dead: set<Id>)
    requires Valid(t)
    ensures Valid(DropRefresh(t, dead))
    ensures Nested(t) ==> Nested(DropRefresh(t, dead))
  {
  }

  lemma DropAccessOfKeepsValid(t: State, tenant: Tenant, subjects: set<Subject>, client: Option<ClientId>)
    requires Valid(t)
    ensures Valid(DropAccessOf(t, tenant, subjects, client))
    ensures Nested(t) ==> Nested(DropAccessOf(t, tenant, subjects, client))
  {
  }

  lemma DeleteGrantsKeepsValid(t: State, tenant: Tenant, subject: Subject, client: ClientId)
    requires Valid(t)
    ensures Valid(DeleteGrants(t, tenant, subject, client))
    ensures Nested(t) ==> Nested(DeleteGrants(t, tenant, subject, client))
  {
    var dead := set i | i in t.refresh &&
      Covers(tenant, {subject}, Some(client), t.refresh[i].tenant, t.refresh[i].grant);
    DropRefreshKeepsValid(t, dead);
    DropAccessOfKeepsValid(DropRefresh(t, dead), tenant, {subject}, Some(client));
    hide Valid, Nested, DropRefresh, DropAccessOf;
  }

  lemma InsertRefreshKeepsValid(t: State, id: Id, row: RefreshToken)
    requires Valid(t)
    ensures Valid(InsertRefresh(t, id, row).state)
    ensures Nested(t) ==> Nested(InsertRefresh(t, id, row).state)
  {
    if InsertRefresh(t, id, row).result.Ok? {
      assert forall i :: i in t.refresh ==> t.refresh[i].hash != row.hash;
    }
  }

  /** An access row belongs under its parent when it names the same grant. */
  ghost predicate Fits(t: State, row: AccessToken) {
    row.parent.Some? && row.parent.value in t.refresh ==>
      t.refresh[row.parent.value].tenant == row.tenant && t.refresh[row.parent.value].grant == row.grant
  }

  lemma InsertAccessKeepsValid(t: State, id: Id, row: AccessToken)
    requires Valid(t) && Fits(t, row)
    ensures Valid(InsertAccess(t, id, row).state)
  {
  }

  ghost predicate Outlived(t: State, row: AccessToken) {
    row.parent.Some? && row.parent.value in t.refresh ==> row.expires <= t.refresh[row.parent.value].expires
  }

  lemma InsertAccessKeepsNested(t: State, id: Id, row: AccessToken)
    requires Nested(t) && Outlived(t, row)
    ensures Nested(InsertAccess(t, id, row).state)
  {
  }

  lemma InsertedRefresh(t: State, id: Id, row: RefreshToken)
    requires InsertRefresh(t, id, row).result.Ok?
    ensures InsertRefresh(t, id, row).state == t.(refresh := t.refresh[id := row])
  {
  }

  lemma CreatePairKeepsValid(c: Config, t: State, tenant: Tenant, r: Oidc.TokenRequest, m: Oidc.Mints)
    requires Valid(t)
    ensures Valid(Oidc.CreatePair(c, t, tenant, r, m).state)
  {
    var row := Oidc.RefreshRow(c, t.now, tenant, r, m.secret);
    var under := Oidc.AccessRow(c, t.now, tenant, r, Some(m.refresh));
    var u := InsertRefresh(t, m.refresh, row);
    InsertRefreshKeepsValid(t, m.refresh, row);
    if u.result.Ok? {
      InsertedRefresh(t, m.refresh, row);
      InsertAccessKeepsValid(u.state, m.access, under);
    }
    hide Valid, InsertRefresh, InsertAccess;
  }

  lemma CreatePairKeepsNested(c: Config, t: State, tenant: Tenant, r: Oidc.TokenRequest, m: Oidc.Mints)
    requires Valid(t) && Nested(t) && c.issuance.accessExpiry <= c.issuance.refreshExpiry
    ensures Nested(Oidc.CreatePair(c, t, tenant, r, m).state)
  {
    var row := Oidc.RefreshRow(c, t.now, tenant, r, m.secret);
    var u := InsertRefresh(t, m.refresh, row);
    InsertRefreshKeepsValid(t, m.refresh, row);
    if u.result.Ok? {
      InsertedRefresh(t, m.refresh, row);
      InsertAccessKeepsNested(u.state, m.access, Oidc.AccessRow(c, t.now, tenant, r, Some(m.refresh)));
    }
    hide Valid, Nested, InsertRefresh, InsertAccess;
  }

  lemma CreateAccessKeepsValid(c: Config, t: State, tenant: Tenant, r: Oidc.TokenRequest, m: Oidc.Mints)
    requires Valid(t)
    ensures Valid(Oidc.CreateAccessToken(c, t, tenant, r, m).state)
    ensures Nested(t) ==> Nested(Oidc.CreateAccessToken(c, t, tenant, r, m).state)
  {
    hide Valid, Nested, InsertAccess;
    var row := Oidc.AccessRow(c, t.now, tenant, r, None);
    InsertAccessKeepsValid(t, m.access, row);
    if Nested(t) { InsertAccessKeepsNested(t, m.access, row); }
  }

  lemma DeleteRefreshKeepsValid(t: State, tenant: Tenant, id: Id)
    requires Valid(t)
    ensures Valid(DeleteRefresh(t, tenant, id).state)
    ensures Nested(t) ==> Nested(DeleteRefresh(t, tenant, id).state)
  {
    DropRefreshKeepsValid(t, {id});
    hide Valid, Nested, DropRefresh;
  }

  lemma SpendKeepsValid(t: State, tenant: Tenant, r: Oidc.TokenRequest, current: Secret)
    requires Valid(t)
    ensures Valid(Oidc.SpendGrant(t, tenant, r, current).state)
    ensures Nested(t) ==> Nested(Oidc.SpendGrant(t, tenant, r, current).state)
  {
    DeleteRefreshKeepsValid(t, tenant, r.id);
    var read := ReadRefresh(t, tenant, current);
    if read.Ok? { DeleteRefreshKeepsValid(t, tenant, read.value.0); }
    hide Valid, Nested, DeleteRefresh, ReadRefresh;
  }

  lemma CreationKeepsValid(
    c: Config, t: State, tenant: Tenant, r: Oidc.TokenRequest, current: Option<Secret>, m: Oidc.Mints)
    requires Valid(t)
    ensures Valid(Oidc.CreateAccessAndRefreshTokens(c, t, tenant, r, current, m).state)
    ensures Nested(t) && c.issuance.accessExpiry <= c.issuance.refreshExpiry ==>
              Nested(Oidc.CreateAccessAndRefreshTokens(c, t, tenant, r, current, m).state)
  {
    if current.Some? { SpendKeepsValid(t, tenant, r, current.value); }
    var spent := if current.Some? then Oidc.SpendGrant(t, tenant, r, current.value) else Reply(t, Ok(()));
    CreatePairKeepsValid(c, spent.state, tenant, r, m);
    if Nested(spent.state) && c.issuance.accessExpiry <= c.issuance.refreshExpiry {
      CreatePairKeepsNested(c, spent.state, tenant, r, m);
    }
    hide Valid, Nested, Oidc.SpendGrant, Oidc.CreatePair;
    if spent.result.Err? { SpendFailsClean(t, tenant, r, current); }
  }

  /** A spend that fails has deleted nothing. */
  lemma SpendFailsClean(t: State, tenant: Tenant, r: Oidc.TokenRequest, current: Option<Secret>)
    requires current.Some? && Oidc.SpendGrant(t, tenant, r, current.value).result.Err?
    ensures Oidc.SpendGrant(t, tenant, r, current.value).state == t
  {
  }

  lemma RequestsOnlyKeepValid(t: State, u: State)
    requires Valid(t) && u == t.(requests := u.requests) && UniqueCodes(u.requests)
    ensures Valid(u)
    ensures Nested(t) ==> Nested(u)
  {
  }

  lemma InsertRequestOnly(t: State, id: Id, row: AuthRequest)
    ensures InsertRequest(t, id, row).state == t.(requests := InsertRequest(t, id, row).state.requests)
  {
  }

  lemma RequestUpdatesOnly(
    t: State, tenant: Tenant, id: Id, code: Secret, subject: Subject, authTime: Time, amr: seq<string>)
    ensures SaveCode(t, tenant, id, code).state == t.(requests := SaveCode(t, tenant, id, code).state.requests)
    ensures DeleteRequest(t, tenant, id).state == t.(requests := DeleteRequest(t, tenant, id).state.requests)
    ensures AuthenticateRequest(t, tenant, id, subject, authTime, amr).state ==
            t.(requests := AuthenticateRequest(t, tenant, id, subject, authTime, amr).state.requests)
  {
  }

  lemma RequestWritesOnly(c: Config, t: State, op: Oidc.Op)
    requires op.Authorize? || op.Complete? || op.StoreCode? || op.DropRequest?
    ensures Oidc.Step(c, t, op).state == t.(requests := Oidc.Step(c, t, op).state.requests)
  {
    hide InsertRequest, SaveCode, DeleteRequest, AuthenticateRequest;
    if op.Authorize? {
      InsertRequestOnly(t, op.id, Oidc.PendingRequest(c, t.now, op.tenant, op.client, op.scopes));
    } else if op.Complete? {
      RequestUpdatesOnly(t, op.tenant, op.id, 0, op.subject, op.authTime, op.amr);
    } else if op.StoreCode? {
      RequestUpdatesOnly(t, op.tenant, op.id, op.code, Nobody, 0, []);
    } else {
      RequestUpdatesOnly(t, op.tenant, op.id, 0, Nobody, 0, []);
    }
  }

  lemma RequestWritesKeepValid(c: Config, t: State, op: Oidc.Op)
    requires Valid(t) && (op.Authorize? || op.Complete? || op.StoreCode? || op.DropRequest?)
    ensures Valid(Oidc.Step(c, t, op).state)
    ensures Nested(t) ==> Nested(Oidc.Step(c, t, op).state)
  {
    assert UniqueCodes(t.requests);
    hide Valid, Nested, UniqueCodes, Oidc.Step;
    RequestWritesOnly(c, t, op);
    RequestWritesKeepUnique(c, t, op);
    RequestsOnlyKeepValid(t, Oidc.Step(c, t, op).state);
  }

  lemma RequestWritesKeepUnique(c: Config, t: State, op: Oidc.Op)
    requires UniqueCodes(t.requests) && (op.Authorize? || op.Complete? || op.StoreCode? || op.DropRequest?)
    ensures UniqueCodes(Oidc.Step(c, t, op).state.requests)
  {
  }

  lemma DropRequestKeepsValid(t: State, tenant: Tenant, id: Id)
    requires Valid(t)
    ensures Valid(Oidc.DeleteAuthRequest(t, tenant, id).state)
    ensures Nested(t) ==> Nested(Oidc.DeleteAuthRequest(t, tenant, id).state)
  {
  }

  lemma ExchangeKeepsValid(c: Config, t: State, tenant: Tenant, code: Secret, offline: bool, m: Oidc.Mints)
    requires Valid(t)
    ensures Valid(Oidc.ExchangeCode(c, t, tenant, code, offline, m).state)
    ensures Nested(t) && c.issuance.accessExpiry <= c.issuance.refreshExpiry ==>
              Nested(Oidc.ExchangeCode(c, t, tenant, code, offline, m).state)
  {
    hide Valid, Nested, ReadRequestByCode, Oidc.CreateAccessAndRefreshTokens, Oidc.CreateAccessToken,
         Oidc.DeleteAuthRequest;
    var read := ReadRequestByCode(t, tenant, code);
    if read.Ok? {
      var r := Oidc.ForRequest(read.value.0, read.value.1);
      CreationKeepsValid(c, t, tenant, r, None, m);
      CreateAccessKeepsValid(c, t, tenant, r, m);
      var minted := if offline then Oidc.CreateAccessAndRefreshTokens(c, t, tenant, r, None, m)
                    else Oidc.CreateAccessToken(c, t, tenant, r, m);
      DropRequestKeepsValid(minted.state, tenant, r.id);
    }
  }

  lemma RefreshKeepsValid(
    c: Config, t: State, tenant: Tenant, token: Secret, narrowed: Option<seq<string>>, m: Oidc.Mints)
    requires Valid(t)
    ensures Valid(Oidc.RefreshGrant(c, t, tenant, token, narrowed, m).state)
    ensures Nested(t) && c.issuance.accessExpiry <= c.issuance.refreshExpiry ==>
              Nested(Oidc.RefreshGrant(c, t, tenant, token, narrowed, m).state)
  {
    hide Valid, Nested, ReadRefresh, Oidc.CreateAccessAndRefreshTokens;
    var read := ReadRefresh(t, tenant, token);
    if read.Ok? {
      var (id, row) := read.value;
      var r := Oidc.ForRenewal(id, if narrowed.Some? then row.(grant := row.grant.(scopes := narrowed.value)) else row);
      CreationKeepsValid(c, t, tenant, r, Some(token), m);
    }
  }

  lemma DeleteAccessKeepsValid(t: State, tenant: Tenant, id: Id)
    requires Valid(t)
    ensures Valid(DeleteAccess(t, tenant, id).state)
    ensures Nested(t) ==> Nested(DeleteAccess(t, tenant, id).state)
  {
  }

  lemma RevokeKeepsValid(t: State, tenant: Tenant, id: Id)
    requires Valid(t)
    ensures Valid(Oidc.RevokeToken(t, tenant, id).state)
    ensures Nested(t) ==> Nested(Oidc.RevokeToken(t, tenant, id).state)
  {
    hide Valid, Nested, DeleteRefresh, DeleteAccess, ReadRefreshById;
    DeleteRefreshKeepsValid(t, tenant, id);
    DeleteAccessKeepsValid(t, tenant, id);
  }

  lemma BrowsersOnlyKeepValid(t: State, u: State)
    requires Valid(t) && u == t.(browsers := u.browsers) && UniqueCookies(u.browsers)
    ensures Valid(u)
    ensures Nested(t) ==> Nested(u)
  {
  }

  lemma CookieCutUnique(m: map<Id, BrowserSession>, id: Id)
    requires UniqueCookies(m)
    ensures UniqueCookies(m - {id})
  {
  }

  lemma DeleteBrowserCuts(t: State, tenant: Tenant, cookie: Secret)
    ensures
      var u, found := DeleteBrowser(t, tenant, cookie).state, BrowserWithHash(t, Sha256(cookie));
      u == t || (found.Some? && u == t.(browsers := t.browsers - {found.value}))
  {
    hide BrowserWithHash;
  }

  lemma DeleteBrowserKeepsValid(t: State, tenant: Tenant, cookie: Secret)
    requires Valid(t)
    ensures Valid(DeleteBrowser(t, tenant, cookie).state)
    ensures Nested(t) ==> Nested(DeleteBrowser(t, tenant, cookie).state)
  {
    assert UniqueCookies(t.browsers);
    var u, found := DeleteBrowser(t, tenant, cookie).state, BrowserWithHash(t, Sha256(cookie));
    DeleteBrowserCuts(t, tenant, cookie);
    hide Valid, Nested, UniqueCookies, BrowserWithHash, DeleteBrowser;
    if u != t {
      CookieCutUnique(t.browsers, found.value);
      BrowsersOnlyKeepValid(t, u);
    }
  }

  lemma LogoutKeepsValid(t: State, tenant: Tenant, cookie: Secret, client: ClientId)
    requires Valid(t)
    ensures Valid(Oidc.Logout(t, tenant, cookie, client).state)
    ensures Nested(t) ==> Nested(Oidc.Logout(t, tenant, cookie, client).state)
  {
    hide Valid, Nested, ReadBrowser, DeleteBrowser, DeleteGrants;
    DeleteBrowserKeepsValid(t, tenant, cookie);
    var read := ReadBrowser(t, tenant, cookie);
    if read.Ok? {
      DeleteGrantsKeepsValid(DeleteBrowser(t, tenant, cookie).state, tenant, User(read.value.1.account), client);
    }
  }

  lemma CookiePutUnique(m: map<Id, BrowserSession>, id: Id, row: BrowserSession)
    requires UniqueCookies(m) && forall i :: i in m ==> m[i].hash != row.hash
    ensures UniqueCookies(m[id := row])
  {
  }

  lemma InsertBrowserKeepsValid(t: State, id: Id, row: BrowserSession)
    requires Valid(t)
    ensures Valid(InsertBrowser(t, id, row).state)
    ensures Nested(t) ==> Nested(InsertBrowser(t, id, row).state)
  {
    assert UniqueCookies(t.browsers);
    if InsertBrowser(t, id, row).result.Ok? {
      assert forall i :: i in t.browsers ==> t.browsers[i].hash != row.hash;
      CookiePutUnique(t.browsers, id, row);
    }
    hide Valid, Nested, UniqueCookies, BrowserWithHash, AccountWithId;
    BrowsersOnlyKeepValid(t, InsertBrowser(t, id, row).state);
    hide InsertBrowser;
  }

  lemma SignInKeepsValid(c: Config, t: State, k: AccountKey, password: string, id: Id, cookie: Secret)
    requires Valid(t)
    ensures Valid(Oidc.SignIn(c, t, k, password, id, cookie).state)
    ensures Nested(t) ==> Nested(Oidc.SignIn(c, t, k, password, id, cookie).state)
  {
    hide Authn.VerifyPassword, InsertBrowser;
    VerifyPasswordLeavesSide(c, t, k, password);
    var logon := Authn.VerifyPassword(c, t, k, password);
    SideDecidesValid(t, logon.state);
    assert Nested(t) ==> Nested(logon.state);
    hide Valid, Nested, OidcSide;
    if logon.result.Ok? {
      InsertBrowserKeepsValid(logon.state, id,
        BrowserSession(k.tenant, Sha256(cookie), logon.result.value.id, t.now, t.now + c.cookieExpiry));
    }
  }

  lemma OidcKeepsValid(c: Config, t: State, op: Oidc.Op)
    requires Valid(t)
    ensures Valid(Oidc.Step(c, t, op).state)
    ensures Nested(t) && c.issuance.accessExpiry <= c.issuance.refreshExpiry ==> Nested(Oidc.Step(c, t, op).state)
  {
    hide Valid, Nested, Oidc.ExchangeCode, Oidc.RefreshGrant, Oidc.RevokeToken, Oidc.Logout, Oidc.SignIn;
    hide Oidc.CreateAuthRequest, Oidc.DeleteAuthRequest, Oidc.SetUserinfo, Oidc.UserinfoFromToken,
         Oidc.GetRefreshTokenInfo;
    hide AuthenticateRequest, SaveCode, ReadRequest, ReadRequestByCode, ReadRefresh, ReadBrowser, DeleteGrants;
    match op
    case Exchange(tenant, code, offline, m) => ExchangeKeepsValid(c, t, tenant, code, offline, m);
    case Refresh(tenant, token, narrowed, m) => RefreshKeepsValid(c, t, tenant, token, narrowed, m);
    case RevokeById(tenant, id) => RevokeKeepsValid(t, tenant, id);
    case Terminate(tenant, subject, client) => DeleteGrantsKeepsValid(t, tenant, subject, client);
    case EndSession(tenant, cookie, client) => LogoutKeepsValid(t, tenant, cookie, client);
    case Login(tenant, email, password, id, cookie) =>
      SignInKeepsValid(c, t, AccountKey(tenant, email), password, id, cookie);
    case _ =>
      if op.Authorize? || op.Complete? || op.StoreCode? || op.DropRequest? { RequestWritesKeepValid(c, t, op); }
  }

  lemma SweepKeepsValid(t: State, sweep: Sweep)
    requires Valid(t)
    ensures Valid(Swept(t, sweep))
    ensures Nested(t) ==> Nested(Swept(t, sweep))
  {
    if sweep == ExpiredTokens {
      var u := SweepAccess(t);
      assert Valid(u) && (Nested(t) ==> Nested(u));
      DropRefreshKeepsValid(u, ExpiredRefresh(u));
      hide Valid, Nested, SweepAccess, DropRefresh;
    }
  }

  /** Every operation keeps the constraints and the match between a token and its grant. */
  lemma StepKeepsValid(c: Config, t: State, op: Op)
    requires Valid(t)
    ensures Valid(Step(c, t, op).state)
    ensures Nested(t) && c.issuance.accessExpiry <= c.issuance.refreshExpiry ==> Nested(Step(c, t, op).state)
  {
    match op
    case OnAccounts(o) => AccountsKeepValid(c, t, o); hide Valid, Nested, Accounts.Step;
    case OnAuthn(o) => AuthnLeavesSide(c, t, o); SideDecidesValid(t, Step(c, t, op).state); hide Valid, Authn.Step;
    case OnCodes(o) => CodesLeaveSide(c, t, o); SideDecidesValid(t, Step(c, t, op).state); hide Valid, LogonCodes.Step;
    case OnOidc(o) => OidcKeepsValid(c, t, o); hide Valid, Nested, Oidc.Step;
    case Janitor(sweep) => SweepKeepsValid(t, sweep); hide Valid, Nested, Swept;
    case Tick(_) =>
    case Reload(_) =>
  }

  /**
   * In every state a run reaches, an access token under a grant has its refresh row, of the same
   * tenant, subject and client, expiring no earlier when access expiry is not above refresh expiry.
   */
  lemma {:induction false} RunKeepsValid(c: Config, t: State, ops: seq<Op>)
    requires Valid(t)
    ensures Valid(Run(c, t, ops))
    ensures Nested(t) && c.issuance.accessExpiry <= c.issuance.refreshExpiry ==> Nested(Run(c, t, ops))
    decreases |ops|
  {
    hide Valid, Nested, Step;
    if ops != [] {
      StepKeepsValid(c, t, ops[0]);
      RunKeepsValid(c, Step(c, t, ops[0]).state, ops[1..]);
    }
  }

  /** Minting keeps the nesting exactly when access tokens are not configured to outlive grants. */
  lemma LongerAccessEscapesItsGrant(c: Config, t: State, tenant: Tenant, r: Oidc.TokenRequest, m: Oidc.Mints)
    requires Valid(t) && Nested(t) && Oidc.CreatePair(c, t, tenant, r, m).result.Ok?
    ensures Nested(Oidc.CreatePair(c, t, tenant, r, m).state) <==> c.issuance.accessExpiry <= c.issuance.refreshExpiry
  {
    if c.issuance.accessExpiry <= c.issuance.refreshExpiry { CreatePairKeepsNested(c, t, tenant, r, m); }
    var u := Oidc.CreatePair(c, t, tenant, r, m).state;
    assert m.access in u.access && u.access[m.access].parent == Some(m.refresh);
  }

  // ---- ending a grant ends exactly its rows ----

  /** DeleteGrants removes the token rows of its triple and no other: the cascade reaches nothing else. */
  lemma DeleteGrantsIsExact(t: State, tenant: Tenant, subject: Subject, client: ClientId)
    requires Valid(t)
    ensures
      var u := DeleteGrants(t, tenant, subject, client);
      && (forall i :: i in u.refresh <==>
          i in t.refresh && !OfTriple(tenant, subject, client, t.refresh[i].tenant, t.refresh[i].grant))
      && (forall a :: a in u.access <==>
          a in t.access && !OfTriple(tenant, subject, client, t.access[a].tenant, t.access[a].grant))
      && (forall i :: i in u.refresh ==> u.refresh[i] == t.refresh[i])
      && (forall a :: a in u.access ==> u.access[a] == t.access[a])
      && u == t.(refresh := u.refresh, access := u.access)
  {
  }

  /** The token sweep removes exactly the expired rows of both tables. */
  lemma SweepIsExact(t: State)
    requires Valid(t) && Nested(t)
    ensures
      var u := SweepTokens(t);
      && (forall i :: i in u.refresh <==> i in t.refresh && t.refresh[i].expires >= t.now)
      && (forall a :: a in u.access <==> a in t.access && t.access[a].expires >= t.now)
      && (forall i :: i in u.refresh ==> u.refresh[i] == t.refresh[i])
      && (forall a :: a in u.access ==> u.access[a] == t.access[a])
  {
  }
}
