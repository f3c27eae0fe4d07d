/** Rows are old or freshly minted: what any operation, and so any run, may add to the tables. */
module Growth {
  import opened Base
  import opened Schema
  import opened Sql
  import opened Values
  import opened Service
  import opened Integrity
  import Accounts
  import Authn
  import LogonCodes
  import Oidc
  import Tokens

  /** Refresh rows never change: one that is there was there before, or its id and secret are new mints. */
  ghost predicate GrownRefresh(added: set<Id>, m: map<Id, RefreshToken>, n: map<Id, RefreshToken>) {
    forall i :: i in n ==> (i in m && n[i] == m[i]) || (i in added && n[i].hash.of in added)
  }

  ghost predicate GrownAccess(added: set<Id>, m: map<Id, AccessToken>, n: map<Id, AccessToken>) {
    forall i :: i in n ==> (i in m && n[i] == m[i]) || i in added
  }

  ghost predicate GrownBrowsers(added: set<Id>, m: map<Id, BrowserSession>, n: map<Id, BrowserSession>) {
    forall i :: i in n ==> (i in m && n[i] == m[i]) || (i in added && n[i].hash.of in added)
  }

  ghost predicate SameOrFreshCode(added: set<Id>, was: Option<Sha>, became: Option<Sha>) {
    became == was || (became.Some? && became.value.of in added)
  }

  /** A request keeps its tenant, client and expiry; its code is its old one or a new mint. */
  ghost predicate GrownRequests(added: set<Id>, m: map<Id, AuthRequest>, n: map<Id, AuthRequest>) {
    forall i :: i in n ==>
      (i in m && n[i].tenant == m[i].tenant && n[i].client == m[i].client && n[i].expires == m[i].expires &&
       SameOrFreshCode(added, m[i].code, n[i].code)) ||
      (i in added && SameOrFreshCode(added, None, n[i].code))
  }

  /** No account row goes away or changes its id, and no deletion is undone. */
  ghost predicate GrownAccounts(added: set<Id>, m: map<AccountKey, Account>, n: map<AccountKey, Account>) {
    && (forall k :: k in m ==> k in n && n[k].id == m[k].id && (m[k].deleted ==> n[k].deleted))
    && (forall k :: k in n && k !in m ==> n[k].id in added)
  }

  ghost predicate Grown(added: set<Id>, t: State, u: State) {
    && t.now <= u.now
    && GrownAccounts(added, t.accounts, u.accounts)
    && GrownRequests(added, t.requests, u.requests)
    && GrownRefresh(added, t.refresh, u.refresh)
    && GrownAccess(added, t.access, u.access)
    && GrownBrowsers(added, t.browsers, u.browsers)
  }

  /** None of the minted values is in the tables yet. */
  ghost predicate Unminted(t: State, m: Oidc.Mints) {
    m.refresh !in t.refresh && m.access !in t.access && forall j :: j in t.refresh ==>
      t.refresh[j].hash != Sha256(m.secret)
  }

  lemma GrownTransitive(added: set<Id>, t: State, u: State, v: State)
    requires Grown(added, t, u) && Grown(added, u, v)
    ensures Grown(added, t, v)
  {
  }

  lemma GrownWidens(added: set<Id>, wider: set<Id>, t: State, u: State)
    requires Grown(added, t, u) && added <= wider
    ensures Grown(wider, t, u)
  {
  }

  lemma GrownKeepsKnown(used: set<Id>, added: set<Id>, t: State, u: State)
    requires Known(used, t) && Grown(added, t, u)
    ensures Known(used + added, u)
  {
  }

  lemma SameAccountsGrow(added: set<Id>, m: map<AccountKey, Account>)
    ensures GrownAccounts(added, m, m)
  {
  }

  // ---- the api-key surface ----

  lemma GateGrows(t: State, k: AccountKey)
    ensures Authn.CheckLockout(t, k).state.accounts == t.accounts
    ensures Authn.GateLogon(t, k).state.accounts == t.accounts
  {
  }

  lemma VerifyPasswordGrows(c: Config, t: State, k: AccountKey, password: string)
    ensures Authn.VerifyPassword(c, t, k, password).state.accounts == t.accounts
  {
    var gate := Authn.GateLogon(t, k);
    GateGrows(t, k);
    CountFailureGrows(c, gate.state, k);
    hide Authn.GateLogon, Authn.CountFailure;
  }

  lemma SessionPutGrows(t: State, s: SessionKey, row: Session, current: Id)
    ensures UpsertSession(t, s, row).accounts == t.accounts
    ensures RotateSession(t, s, current, row).0.accounts == t.accounts
  {
  }

  lemma AckGrows(c: Config, t: State, tenant: Tenant, access: Tokens.Jwt, refresh: Tokens.Jwt)
    ensures Authn.Acknowledge(c, t, tenant, access, refresh).state.accounts == t.accounts
  {
    SessionPutGrows(t, Authn.SessionOf(refresh.claims), Session(refresh.claims.jti, refresh.claims.expires), 0);
    hide Tokens.Verifies, UpsertSession, RotateSession;
  }

  lemma RenewGrows(c: Config, t: State, tenant: Tenant, refresh: Tokens.Jwt, a: Id, r: Id)
    ensures Authn.Renew(c, t, tenant, refresh, a, r).state.accounts == t.accounts
  {
    var next := Session(r,
      Authn.Issue(c, t, Authn.OwnerOf(refresh.claims), refresh.claims.client, a, r).refresh.claims.expires);
    SessionPutGrows(t, Authn.SessionOf(refresh.claims), next, refresh.claims.jti);
    hide Tokens.Verifies, Authn.LiveAccount, Authn.Issue, UpsertSession, RotateSession;
  }

  lemma SessionWritesGrow(c: Config, t: State, op: Authn.Op)
    requires op.Ack? || op.Renewal? || op.Revocation?
    ensures Authn.Step(c, t, op).state.accounts == t.accounts
  {
    if op.Ack? { AckGrows(c, t, op.tenant, op.access, op.refresh); }
    else if op.Renewal? { RenewGrows(c, t, op.tenant, op.refresh, op.accessJti, op.refreshJti); }
    else { RevocationGrows(t, op.k, op.client); }
    hide Authn.Acknowledge, Authn.Renew, DeleteSessions, DeleteSession;
  }

  lemma RevocationGrows(t: State, k: AccountKey, client: ClientId)
    ensures DeleteSessions(t, k).accounts == t.accounts
    ensures DeleteSession(t, SessionKey(k.tenant, k.email, client)).state.accounts == t.accounts
  {
  }

  lemma AuthnGrows(c: Config, t: State, op: Authn.Op)
    ensures Authn.Step(c, t, op).state.accounts == t.accounts
  {
    if op.Ack? || op.Renewal? || op.Revocation? {
      hide Authn.Step;
      SessionWritesGrow(c, t, op);
    } else {
      hide Authn.VerifyPassword, Authn.Acknowledge, Authn.Renew, Authn.Revoke, Authn.ValidateAccess;
      if op.Logon? { VerifyPasswordGrows(c, t, op.k, op.password); }
    }
  }

  lemma CodeLogonGrows(t: State, k: AccountKey, account: Account)
    ensures GrownAccounts({}, t.accounts, LogonCodes.Spend(t, k, account).accounts)
  {
    SameAccountsGrow({}, t.accounts);
    var u := ClearAttempts(DeleteCode(t, k), k);
    assert u.accounts == t.accounts;
    if k in t.accounts { UpdateGrows(u, k, t.accounts[k].(verified := true, verification := None)); }
    hide GrownAccounts, UpdateAccount, ClearAttempts, DeleteCode;
  }

  lemma CodesGrow(c: Config, t: State, op: LogonCodes.Op)
    ensures GrownAccounts({}, t.accounts, LogonCodes.Step(c, t, op).state.accounts)
  {
    hide GrownAccounts, Authn.CheckLockout, LogonCodes.Gate, LogonCodes.Spend, Authn.CountFailure, Authn.Issue;
    SameAccountsGrow({}, t.accounts);
    if op.CodeLogon? {
      CodeGateGrows(t, op.k, op.code);
      var gate := LogonCodes.Gate(t, op.k, op.code);
      if gate.result.Ok? { CodeLogonGrows(gate.state, op.k, gate.result.value.0); }
      CountFailureGrows(c, gate.state, op.k);
    }
  }

  lemma CodeGateGrows(t: State, k: AccountKey, code: string)
    ensures LogonCodes.Gate(t, k, code).state.accounts == t.accounts
  {
    GateGrows(t, k);
    hide Authn.CheckLockout;
  }

  lemma CountFailureGrows(c: Config, t: State, k: AccountKey)
    ensures Authn.CountFailure(c, t, k).0.accounts == t.accounts
  {
  }

  lemma SameSideGrows(added: set<Id>, t: State, u: State)
    requires OidcSide(t) == OidcSide(u) && GrownAccounts(added, t.accounts, u.accounts)
    ensures Grown(added, t, u)
  {
    hide GrownAccounts;
  }

  // ---- accounts ----

  lemma TokensOnlyGrow(added: set<Id>, t: State, u: State)
    requires u == t.(refresh := u.refresh, access := u.access)
    requires GrownRefresh(added, t.refresh, u.refresh) && GrownAccess(added, t.access, u.access)
    ensures Grown(added, t, u)
  {
    hide GrownRefresh, GrownAccess;
  }

  lemma RequestsOnlyGrow(added: set<Id>, t: State, u: State)
    requires u == t.(requests := u.requests) && GrownRequests(added, t.requests, u.requests)
    ensures Grown(added, t, u)
  {
    hide GrownRequests;
  }

  lemma BrowsersOnlyGrow(added: set<Id>, t: State, u: State)
    requires u == t.(browsers := u.browsers) && GrownBrowsers(added, t.browsers, u.browsers)
    ensures Grown(added, t, u)
  {
    hide GrownBrowsers;
  }

  lemma OidcExecGrows(t: State, k: AccountKey, change: Accounts.Change)
    requires Accounts.OnOidc(change)
    ensures Grown({}, t, Accounts.Exec(t, k, change).state)
  {
    var u := Accounts.Exec(t, k, change).state;
    if change.DropBrowsers? { BrowsersOnlyGrow({}, t, u); }
    else if change.DropAuthRequests? { RequestsOnlyGrow({}, t, u); }
    else { TokensOnlyGrow({}, t, u); }
    hide Grown;
  }

  lemma AccountExecSide(t: State, k: AccountKey, change: Accounts.Change)
    requires !Accounts.OnOidc(change)
    ensures OidcSide(Accounts.Exec(t, k, change).state) == OidcSide(t)
  {
  }

  lemma RowUpdateGrows(t: State, k: AccountKey, a: Account)
    requires k in t.accounts && a.id == t.accounts[k].id && (t.accounts[k].deleted ==> a.deleted)
    ensures GrownAccounts({}, t.accounts, UpdateAccount(t, k, a).state.accounts)
  {
  }

  lemma AccountExecGrows(t: State, k: AccountKey, change: Accounts.Change)
    requires !Accounts.OnOidc(change)
    ensures OidcSide(Accounts.Exec(t, k, change).state) == OidcSide(t)
    ensures GrownAccounts({}, t.accounts, Accounts.Exec(t, k, change).state.accounts)
  {
    AccountExecSide(t, k, change);
    hide OidcSide;
    SameAccountsGrow({}, t.accounts);
    if k in t.accounts && change.SetPassword? { RowUpdateGrows(t, k, t.accounts[k].(password := change.hash)); }
    if k in t.accounts && change.MarkDeleted? { RowUpdateGrows(t, k, t.accounts[k].(deleted := true)); }
    hide GrownAccounts, UpdateAccount;
  }

  lemma ExecGrows(t: State, k: AccountKey, change: Accounts.Change)
    ensures Grown({}, t, Accounts.Exec(t, k, change).state)
  {
    hide Grown, Accounts.Exec;
    if Accounts.OnOidc(change) {
      OidcExecGrows(t, k, change);
    } else {
      AccountExecGrows(t, k, change);
      SameSideGrows({}, t, Accounts.Exec(t, k, change).state);
    }
  }

  lemma {:induction false} RunBodyGrows(
    t: State, k: AccountKey, body: seq<Accounts.Change>, fault: Accounts.Fault, i: nat)
    requires i <= |body|
    ensures Grown({}, t, Accounts.RunBody(t, k, body, fault, i).state)
  {
    if i > 0 {
      RunBodyGrows(t, k, body, fault, i - 1);
      var u := Accounts.RunBody(t, k, body, fault, i - 1).state;
      ExecGrows(u, k, body[i - 1]);
      GrownTransitive({}, t, u, Accounts.Exec(u, k, body[i - 1]).state);
      hide Accounts.Exec;
    }
  }

  lemma AccountPutGrows(m: map<AccountKey, Account>, k: AccountKey, a: Account)
    requires k !in m
    ensures GrownAccounts({a.id}, m, m[k := a]) && GrownAccounts({a.id}, m, m)
  {
  }

  lemma RegisterGrows(t: State, k: AccountKey, password: string, salt: nat, id: Id, token: Secret)
    ensures GrownAccounts({id}, t.accounts, Accounts.Register(t, k, password, salt, id, token).state.accounts)
  {
    var a := Account(id, Bcrypt(salt, password), false, Some(Sha256(token)), true, false);
    SameAccountsGrow({id}, t.accounts);
    if k !in t.accounts { AccountPutGrows(t.accounts, k, a); }
    hide GrownAccounts;
  }

  lemma InsertAccountOnly(t: State, k: AccountKey, a: Account)
    ensures var u := InsertAccount(t, k, a).state; u == t.(accounts := u.accounts)
  {
    hide AccountWithId;
  }

  lemma RegisterOnlyAccounts(t: State, op: Accounts.Op)
    requires op.Registration?
    ensures
      var u := Accounts.Register(t, op.k, op.password, op.salt, op.id, op.token).state;
      u == t.(accounts := u.accounts)
  {
    InsertAccountOnly(t, op.k,
                      Account(op.id, Bcrypt(op.salt, op.password), false, Some(Sha256(op.token)), true, false));
    hide InsertAccount, ValidPassword;
  }

  lemma AccountsOnlyGrow(added: set<Id>, t: State, u: State)
    requires u == t.(accounts := u.accounts) && GrownAccounts(added, t.accounts, u.accounts)
    ensures Grown(added, t, u)
  {
    hide GrownAccounts;
  }

  lemma RegistrationGrows(c: Config, t: State, op: Accounts.Op)
    requires op.Registration?
    ensures Grown(Using({}, OnAccounts(op)), t, Accounts.Step(c, t, op).state)
  {
    hide Grown, Accounts.Register;
    var u := Accounts.Step(c, t, op).state;
    assert MintsOf(OnAccounts(op))[0] == op.id;
    RegisterGrows(t, op.k, op.password, op.salt, op.id, op.token);
    RegisterOnlyAccounts(t, op);
    AccountsOnlyGrow({op.id}, t, u);
    GrownWidens({op.id}, Using({}, OnAccounts(op)), t, u);
  }

  lemma UpdateGrows(t: State, k: AccountKey, a: Account)
    requires k in t.accounts && a.id == t.accounts[k].id && a.deleted == t.accounts[k].deleted
    ensures GrownAccounts({}, t.accounts, UpdateAccount(t, k, a).state.accounts)
  {
  }

  lemma PlainAccountsKeepRows(c: Config, t: State, op: Accounts.Op)
    requires !Accounts.Credential(op) && !op.Registration?
    ensures GrownAccounts({}, t.accounts, Accounts.Step(c, t, op).state.accounts)
  {
    hide GrownAccounts, UpdateAccount, Accounts.Reset, Accounts.UpdatePassword, Accounts.Delete, Accounts.Register;
    SameAccountsGrow({}, t.accounts);
    if op.k in t.accounts {
      var a := t.accounts[op.k];
      UpdateGrows(t, op.k, a.(verified := true, verification := None));
      UpdateGrows(t, op.k, a.(verification := Some(Sha256(op.token))));
    }
  }

  lemma PlainAccountsGrow(c: Config, t: State, op: Accounts.Op)
    requires !Accounts.Credential(op)
    ensures Grown(Using({}, OnAccounts(op)), t, Accounts.Step(c, t, op).state)
  {
    hide Grown, GrownAccounts, Accounts.Step;
    if op.Registration? {
      RegistrationGrows(c, t, op);
    } else {
      var u := Accounts.Step(c, t, op).state;
      PlainAccountsLeaveSide(c, t, op);
      PlainAccountsKeepRows(c, t, op);
      SameSideGrows({}, t, u);
      GrownWidens({}, Using({}, OnAccounts(op)), t, u);
    }
  }

  lemma AccountsGrow(c: Config, t: State, op: Accounts.Op)
    ensures Grown(Using({}, OnAccounts(op)), t, Accounts.Step(c, t, op).state)
  {
    hide Accounts.Step;
    if !Accounts.Credential(op) {
      PlainAccountsGrow(c, t, op);
    } else if Accounts.Step(c, t, op).result.Ok? {
      Accounts.CommittedRanItsBody(c, t, op);
      var body := Accounts.BodyOf(c, op);
      RunBodyGrows(t, op.k, body, op.fault, |body|);
      hide Accounts.RunBody;
      GrownWidens({}, Using({}, OnAccounts(op)), t, Accounts.Step(c, t, op).state);
    } else {
      Accounts.CredentialChangeIsAllOrNothing(c, t, op);
    }
  }

  // ---- the OIDC surface ----

  lemma DropRefreshGrows(t: State, dead: set<Id>)
    ensures Grown({}, t, DropRefresh(t, dead))
  {
  }

  lemma DeleteGrantsGrows(t: State, tenant: Tenant, subject: Subject, client: ClientId)
    ensures Grown({}, t, DeleteGrants(t, tenant, subject, client))
  {
  }

  lemma RefreshPutGrows(added: set<Id>, m: map<Id, RefreshToken>, id: Id, row: RefreshToken)
    requires id in added && row.hash.of in added
    ensures GrownRefresh(added, m, m[id := row]) && GrownRefresh(added, m, m)
  {
  }

  lemma AccessPutGrows(added: set<Id>, m: map<Id, AccessToken>, id: Id, row: AccessToken)
    requires id in added
    ensures GrownAccess(added, m, m[id := row]) && GrownAccess(added, m, m)
  {
  }

  lemma SameTokensGrow(added: set<Id>, t: State)
    ensures GrownRefresh(added, t.refresh, t.refresh) && GrownAccess(added, t.access, t.access)
  {
  }

  lemma InsertRefreshGrows(added: set<Id>, t: State, id: Id, row: RefreshToken)
    requires id in added && row.hash.of in added
    ensures Grown(added, t, InsertRefresh(t, id, row).state)
  {
    RefreshPutGrows(added, t.refresh, id, row);
    SameTokensGrow(added, t);
    InsertRefreshOrNot(t, id, row);
    hide GrownRefresh, GrownAccess, InsertRefresh;
    TokensOnlyGrow(added, t, InsertRefresh(t, id, row).state);
    hide Grown;
  }

  /** An insert adds its row or does nothing. */
  lemma InsertAccessOrNot(t: State, id: Id, row: AccessToken)
    ensures InsertAccess(t, id, row).state in {t, t.(access := t.access[id := row])}
  {
  }

  lemma InsertRefreshOrNot(t: State, id: Id, row: RefreshToken)
    ensures InsertRefresh(t, id, row).state in {t, t.(refresh := t.refresh[id := row])}
  {
    hide RefreshWithHash;
  }

  lemma InsertBrowserOrNot(t: State, id: Id, row: BrowserSession)
    ensures InsertBrowser(t, id, row).state in {t, t.(browsers := t.browsers[id := row])}
  {
    hide BrowserWithHash, AccountWithId;
  }

  lemma InsertAccessGrows(added: set<Id>, t: State, id: Id, row: AccessToken)
    requires id in added
    ensures Grown(added, t, InsertAccess(t, id, row).state)
  {
    AccessPutGrows(added, t.access, id, row);
    SameTokensGrow(added, t);
    InsertAccessOrNot(t, id, row);
    hide GrownRefresh, GrownAccess, InsertAccess;
    TokensOnlyGrow(added, t, InsertAccess(t, id, row).state);
    hide Grown;
  }

  lemma CreatePairGrows(c: Config, added: set<Id>, t: State, tenant: Tenant, r: Oidc.TokenRequest, m: Oidc.Mints)
    requires {m.refresh, m.secret, m.access} <= added
    ensures Grown(added, t, Oidc.CreatePair(c, t, tenant, r, m).state)
  {
    var row := Oidc.RefreshRow(c, t.now, tenant, r, m.secret);
    var under := Oidc.AccessRow(c, t.now, tenant, r, Some(m.refresh));
    InsertRefreshGrows(added, t, m.refresh, row);
    var u := InsertRefresh(t, m.refresh, row).state;
    InsertAccessGrows(added, u, m.access, under);
    GrownTransitive(added, t, u, InsertAccess(u, m.access, under).state);
    assert InsertRefresh(t, m.refresh, row).result.Err? ==> u == t;
    hide Grown, InsertRefresh, InsertAccess;
    GrownReflexive(added, t);
  }

  lemma GrownReflexive(added: set<Id>, t: State)
    ensures Grown(added, t, t)
  {
  }

  lemma SpendGrows(t: State, tenant: Tenant, r: Oidc.TokenRequest, current: Secret)
    ensures Grown({}, t, Oidc.SpendGrant(t, tenant, r, current).state)
  {
    DropRefreshGrows(t, {r.id});
    var read := ReadRefresh(t, tenant, current);
    if read.Ok? { DropRefreshGrows(t, {read.value.0}); }
    GrownReflexive({}, t);
    hide Grown, DropRefresh, ReadRefresh;
  }

  lemma CreationGrows(
    c: Config, added: set<Id>, t: State, tenant: Tenant, r: Oidc.TokenRequest, current: Option<Secret>, m: Oidc.Mints)
    requires {m.refresh, m.secret, m.access} <= added
    ensures Grown(added, t, Oidc.CreateAccessAndRefreshTokens(c, t, tenant, r, current, m).state)
  {
    hide Oidc.SpendGrant, Oidc.CreatePair;
    var spent := if current.Some? then Oidc.SpendGrant(t, tenant, r, current.value) else Reply(t, Ok(()));
    if current.Some? { SpendGrows(t, tenant, r, current.value); } else { GrownReflexive({}, t); }
    GrownWidens({}, added, t, spent.state);
    CreatePairGrows(c, added, spent.state, tenant, r, m);
    GrownTransitive(added, t, spent.state, Oidc.CreatePair(c, spent.state, tenant, r, m).state);
    GrownReflexive(added, t);
    hide Grown;
  }

  lemma ExchangeGrows(c: Config, added: set<Id>, t: State, tenant: Tenant, code: Secret, offline: bool, m: Oidc.Mints)
    requires {m.refresh, m.secret, m.access} <= added
    ensures Grown(added, t, Oidc.ExchangeCode(c, t, tenant, code, offline, m).state)
  {
    hide Grown, ReadRequestByCode, Oidc.CreateAccessAndRefreshTokens, InsertAccess, DeleteRequest;
    GrownReflexive(added, t);
    var read := ReadRequestByCode(t, tenant, code);
    if read.Ok? {
      var r := Oidc.ForRequest(read.value.0, read.value.1);
      CreationGrows(c, added, t, tenant, r, None, m);
      InsertAccessGrows(added, t, m.access, Oidc.AccessRow(c, t.now, tenant, r, None));
      var minted := if offline then Oidc.CreateAccessAndRefreshTokens(c, t, tenant, r, None, m)
                    else Oidc.CreateAccessToken(c, t, tenant, r, m);
      DeleteRequestGrows(added, minted.state, tenant, r.id);
      GrownTransitive(added, t, minted.state, DeleteRequest(minted.state, tenant, r.id).state);
    }
  }

  lemma DeleteRequestGrows(added: set<Id>, t: State, tenant: Tenant, id: Id)
    ensures Grown(added, t, DeleteRequest(t, tenant, id).state)
  {
    DropRequestGrows(added, t, tenant, id);
    hide GrownRequests;
    RequestsOnlyGrow(added, t, DeleteRequest(t, tenant, id).state);
    hide Grown;
  }

  lemma RefreshGrows(
    c: Config, added: set<Id>, t: State, tenant: Tenant, token: Secret, narrowed: Option<seq<string>>, m: Oidc.Mints)
    requires {m.refresh, m.secret, m.access} <= added
    ensures Grown(added, t, Oidc.RefreshGrant(c, t, tenant, token, narrowed, m).state)
  {
    hide Grown, ReadRefresh, Oidc.CreateAccessAndRefreshTokens;
    GrownReflexive(added, t);
    var read := ReadRefresh(t, tenant, token);
    if read.Ok? {
      var (id, row) := read.value;
      var r := Oidc.ForRenewal(id, if narrowed.Some? then row.(grant := row.grant.(scopes := narrowed.value)) else row);
      CreationGrows(c, added, t, tenant, r, Some(token), m);
    }
  }

  lemma RevokeGrows(t: State, tenant: Tenant, id: Id)
    ensures Grown({}, t, Oidc.RevokeToken(t, tenant, id).state)
  {
    DropRefreshGrows(t, {id});
    GrownReflexive({}, t);
    assert Grown({}, t, DeleteAccess(t, tenant, id).state);
    hide Grown, DropRefresh, DeleteAccess, ReadRefreshById;
  }

  lemma DeleteBrowserGrows(t: State, tenant: Tenant, cookie: Secret)
    ensures Grown({}, t, DeleteBrowser(t, tenant, cookie).state)
  {
    BrowsersOnlyGrow({}, t, DeleteBrowser(t, tenant, cookie).state);
    hide Grown;
  }

  lemma BrowserPutGrows(added: set<Id>, m: map<Id, BrowserSession>, id: Id, row: BrowserSession)
    requires id in added && row.hash.of in added
    ensures GrownBrowsers(added, m, m[id := row]) && GrownBrowsers(added, m, m)
  {
  }

  lemma InsertBrowserGrows(added: set<Id>, t: State, id: Id, row: BrowserSession)
    requires id in added && row.hash.of in added
    ensures Grown(added, t, InsertBrowser(t, id, row).state)
  {
    BrowserPutGrows(added, t.browsers, id, row);
    InsertBrowserOrNot(t, id, row);
    hide GrownBrowsers, InsertBrowser;
    BrowsersOnlyGrow(added, t, InsertBrowser(t, id, row).state);
    hide Grown;
  }

  lemma LogoutGrows(t: State, tenant: Tenant, cookie: Secret, client: ClientId)
    ensures Grown({}, t, Oidc.Logout(t, tenant, cookie, client).state)
  {
    hide Grown, ReadBrowser, DeleteBrowser, DeleteGrants;
    DeleteBrowserGrows(t, tenant, cookie);
    var read := ReadBrowser(t, tenant, cookie);
    var u := DeleteBrowser(t, tenant, cookie).state;
    if read.Ok? {
      DeleteGrantsGrows(u, tenant, User(read.value.1.account), client);
      GrownTransitive({}, t, u, DeleteGrants(u, tenant, User(read.value.1.account), client));
    }
  }

  lemma SignInGrows(c: Config, added: set<Id>, t: State, k: AccountKey, password: string, id: Id, cookie: Secret)
    requires {id, cookie} <= added
    ensures Grown(added, t, Oidc.SignIn(c, t, k, password, id, cookie).state)
  {
    VerifyPasswordLeavesSide(c, t, k, password);
    VerifyPasswordGrows(c, t, k, password);
    var logon := Authn.VerifyPassword(c, t, k, password);
    SameSideGrows(added, t, logon.state);
    if logon.result.Ok? {
      var row := BrowserSession(k.tenant, Sha256(cookie), logon.result.value.id, t.now, t.now + c.cookieExpiry);
      var u := InsertBrowser(logon.state, id, row).state;
      hide Grown, Authn.VerifyPassword, InsertBrowser;
      InsertBrowserGrows(added, logon.state, id, row);
      GrownTransitive(added, t, logon.state, u);
    }
    hide Grown, Authn.VerifyPassword, InsertBrowser;
  }

  lemma InsertRequestGrows(added: set<Id>, t: State, id: Id, row: AuthRequest)
    requires id in added && row.code.None?
    ensures GrownRequests(added, t.requests, InsertRequest(t, id, row).state.requests)
  {
  }

  lemma CodePutGrows(added: set<Id>, m: map<Id, AuthRequest>, id: Id, code: Secret)
    requires id in m && code in added
    ensures GrownRequests(added, m, m[id := m[id].(code := Some(Sha256(code)))])
  {
  }

  lemma StoreCodeGrows(added: set<Id>, t: State, tenant: Tenant, id: Id, code: Secret)
    requires code in added
    ensures GrownRequests(added, t.requests, SaveCode(t, tenant, id, code).state.requests)
  {
    SameRequestsGrow(added, t.requests);
    if id in t.requests { CodePutGrows(added, t.requests, id, code); }
    hide GrownRequests;
  }

  lemma LoginPutGrows(
    added: set<Id>, m: map<Id, AuthRequest>, id: Id, subject: Subject, authTime: Time, amr: seq<string>)
    requires id in m
    ensures GrownRequests(added, m, m[id := m[id].(subject := subject, authTime := authTime, amr := amr, done := true)])
  {
  }

  lemma CompleteGrows(
    added: set<Id>, t: State, tenant: Tenant, id: Id, subject: Subject, authTime: Time, amr: seq<string>)
    ensures GrownRequests(added, t.requests, AuthenticateRequest(t, tenant, id, subject, authTime, amr).state.requests)
  {
    SameRequestsGrow(added, t.requests);
    if id in t.requests { LoginPutGrows(added, t.requests, id, subject, authTime, amr); }
    hide GrownRequests;
  }

  lemma RequestCutGrows(added: set<Id>, m: map<Id, AuthRequest>, id: Id)
    ensures GrownRequests(added, m, m - {id})
  {
  }

  lemma DropRequestGrows(added: set<Id>, t: State, tenant: Tenant, id: Id)
    ensures GrownRequests(added, t.requests, DeleteRequest(t, tenant, id).state.requests)
  {
    SameRequestsGrow(added, t.requests);
    RequestCutGrows(added, t.requests, id);
    hide GrownRequests;
  }

  lemma SameRequestsGrow(added: set<Id>, m: map<Id, AuthRequest>)
    ensures GrownRequests(added, m, m)
  {
  }

  lemma RequestWritesGrow(c: Config, t: State, op: Oidc.Op)
    requires op.Authorize? || op.Complete? || op.StoreCode? || op.DropRequest?
    ensures GrownRequests(Using({}, OnOidc(op)), t.requests, Oidc.Step(c, t, op).state.requests)
  {
    var added := Using({}, OnOidc(op));
    hide GrownRequests, InsertRequest, SaveCode, AuthenticateRequest, DeleteRequest, Oidc.PendingRequest;
    SameRequestsGrow(added, t.requests);
    if op.Authorize? {
      assert MintsOf(OnOidc(op))[0] == op.id;
      InsertRequestGrows(added, t, op.id, Oidc.PendingRequest(c, t.now, op.tenant, op.client, op.scopes));
    } else if op.StoreCode? {
      assert MintsOf(OnOidc(op))[0] == op.code;
      StoreCodeGrows(added, t, op.tenant, op.id, op.code);
    } else if op.Complete? {
      CompleteGrows(added, t, op.tenant, op.id, op.subject, op.authTime, op.amr);
    } else {
      DropRequestGrows(added, t, op.tenant, op.id);
    }
  }

  predicate Mutates(op: Oidc.Op) {
    op.Authorize? || op.Complete? || op.StoreCode? || op.DropRequest? || op.Exchange? || op.Refresh? ||
    op.RevokeById? || op.Terminate? || op.EndSession? || op.Login?
  }

  lemma LoadsLeaveState(c: Config, t: State, op: Oidc.Op)
    requires !Mutates(op)
    ensures Oidc.Step(c, t, op).state == t
  {
    hide Oidc.ExchangeCode, Oidc.RefreshGrant, Oidc.RevokeToken, Oidc.Logout, Oidc.SignIn, Oidc.CreateAuthRequest;
  }

  lemma MintingGrows(c: Config, t: State, op: Oidc.Op)
    requires op.Exchange? || op.Refresh? || op.Login?
    ensures Grown(Using({}, OnOidc(op)), t, Oidc.Step(c, t, op).state)
  {
    var list := MintsOf(OnOidc(op));
    var added := Using({}, OnOidc(op));
    assert forall i :: 0 <= i < |list| ==> list[i] in added;
    GrownReflexive(added, t);
    hide Grown, Oidc.ExchangeCode, Oidc.RefreshGrant, Oidc.SignIn;
    if op.Login? {
      assert list[0] == op.id && list[1] == op.cookie;
      SignInGrows(c, added, t, AccountKey(op.tenant, op.email), op.password, op.id, op.cookie);
    } else {
      assert list[0] == op.mints.refresh && list[1] == op.mints.secret && list[2] == op.mints.access;
      if op.Exchange? { ExchangeGrows(c, added, t, op.tenant, op.code, op.offline, op.mints); }
      else { RefreshGrows(c, added, t, op.tenant, op.token, op.narrowed, op.mints); }
    }
  }

  lemma EndingGrows(c: Config, t: State, op: Oidc.Op)
    requires op.RevokeById? || op.Terminate? || op.EndSession?
    ensures Grown({}, t, Oidc.Step(c, t, op).state)
  {
    GrownReflexive({}, t);
    hide Grown, Oidc.RevokeToken, DeleteGrants, Oidc.Logout;
    if op.RevokeById? { RevokeGrows(t, op.tenant, op.id); }
    else if op.Terminate? { DeleteGrantsGrows(t, op.tenant, op.subject, op.client); }
    else { LogoutGrows(t, op.tenant, op.cookie, op.client); }
  }

  lemma OidcGrows(c: Config, t: State, op: Oidc.Op)
    ensures Grown(Using({}, OnOidc(op)), t, Oidc.Step(c, t, op).state)
  {
    var added := Using({}, OnOidc(op));
    hide Grown, Oidc.Step;
    if op.Exchange? || op.Refresh? || op.Login? {
      MintingGrows(c, t, op);
    } else if op.RevokeById? || op.Terminate? || op.EndSession? {
      EndingGrows(c, t, op);
      GrownWidens({}, added, t, Oidc.Step(c, t, op).state);
    } else if Mutates(op) {
      RequestWritesOnly(c, t, op);
      RequestWritesGrow(c, t, op);
      RequestsOnlyGrow(added, t, Oidc.Step(c, t, op).state);
    } else {
      LoadsLeaveState(c, t, op);
      GrownReflexive(added, t);
    }
  }

  lemma SweepGrows(t: State, sweep: Sweep)
    ensures Grown({}, t, Swept(t, sweep))
  {
  }

  lemma StepGrows(c: Config, t: State, op: Op)
    ensures Grown(Using({}, op), t, Step(c, t, op).state)
  {
    var u := Step(c, t, op).state;
    if op.OnAccounts? { AccountsGrow(c, t, op.account); hide Accounts.Step; }
    else if op.OnAuthn? {
      AuthnLeavesSide(c, t, op.authn);
      AuthnGrows(c, t, op.authn);
      SameSideGrows(Using({}, op), t, u);
      hide Authn.Step;
    } else if op.OnCodes? {
      CodesLeaveSide(c, t, op.code);
      CodesGrow(c, t, op.code);
      SameSideGrows(Using({}, op), t, u);
      hide LogonCodes.Step;
    }
    else if op.OnOidc? { OidcGrows(c, t, op.oidc); hide Oidc.Step; }
    else if op.Janitor? { SweepGrows(t, op.sweep); GrownWidens({}, Using({}, op), t, u); hide Swept; }
    hide Grown;
    if op.Tick? || op.Reload? { ClockGrows(c, t, op); }
  }

  lemma ClockGrows(c: Config, t: State, op: Op)
    requires op.Tick? || op.Reload?
    ensures Grown(Using({}, op), t, Step(c, t, op).state)
  {
  }

  /** Over a run, everything new comes from the run's own mints. */
  lemma {:induction false} RunGrows(c: Config, t: State, ops: seq<Op>)
    ensures Grown(UsedBy({}, ops), t, Run(c, t, ops))
    decreases |ops|
  {
    hide Grown, Step;
    if ops == [] {
      GrownReflexive({}, t);
    } else {
      var u := Step(c, t, ops[0]).state;
      StepGrows(c, t, ops[0]);
      RunGrows(c, u, ops[1..]);
      UsedBySplits({}, ops[0], ops[1..]);
      GrownWidens(Using({}, ops[0]), UsedBy({}, ops), t, u);
      GrownWidens(UsedBy({}, ops[1..]), UsedBy({}, ops), u, Run(c, u, ops[1..]));
      GrownTransitive(UsedBy({}, ops), t, u, Run(c, t, ops));
    }
  }

  lemma {:induction false} UsedBySplits(used: set<Id>, op: Op, ops: seq<Op>)
    ensures UsedBy(used, [op] + ops) == UsedBy(Using(used, op), ops)
    ensures UsedBy(Using(used, op), ops) == Using(used, op) + UsedBy({}, ops)
    decreases |ops|
  {
    assert ([op] + ops)[1..] == ops;
    UsedBySum(Using(used, op), ops);
  }

  lemma {:induction false} UsedBySum(used: set<Id>, ops: seq<Op>)
    ensures UsedBy(used, ops) == used + UsedBy({}, ops)
    decreases |ops|
  {
    if ops != [] {
      UsedBySum(Using(used, ops[0]), ops[1..]);
      UsedBySum(Using({}, ops[0]), ops[1..]);
    }
  }

  /** A well-minted run never mints a value that is already known. */
  lemma {:induction false} MintsAreNew(used: set<Id>, ops: seq<Op>)
    requires WellMinted(used, ops)
    ensures UsedBy({}, ops) !! used
    decreases |ops|
  {
    if ops != [] {
      MintsAreNew(Using(used, ops[0]), ops[1..]);
      UsedBySum(Using({}, ops[0]), ops[1..]);
    }
  }

  lemma {:induction false} RunKeepsKnown(c: Config, used: set<Id>, t: State, ops: seq<Op>)
    requires Known(used, t)
    ensures Known(UsedBy(used, ops), Run(c, t, ops))
  {
    RunGrows(c, t, ops);
    UsedBySum(used, ops);
    GrownKeepsKnown(used, UsedBy({}, ops), t, Run(c, t, ops));
  }
}
