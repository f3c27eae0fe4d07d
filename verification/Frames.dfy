/** Which tables an operation leaves alone. */
module Frames {
  import opened Base
  import opened Schema
  import opened Sql
  import opened Tokens
  import opened Values
  import opened Service
  import opened Integrity
  import opened Growth
  import Accounts
  import Authn
  import LogonCodes
  import Oidc

  /** Everything but the OIDC tables. */
  datatype Core = Core(
    now: Time, ring: Keyring, accounts: map<AccountKey, Account>, sessions: map<SessionKey, Session>,
    attempts: map<AccountKey, Attempt>, codes: map<AccountKey, LogonCode>, resets: map<AccountKey, PasswordReset>)

  ghost function CoreOf(t: State): Core {
    Core(t.now, t.ring, t.accounts, t.sessions, t.attempts, t.codes, t.resets)
  }

  // ---- the logon gate writes attempts only ----

  ghost predicate AttemptsOnly(t: State, u: State) {
    u == t.(attempts := u.attempts)
  }

  lemma GateFrame(t: State, k: AccountKey)
    ensures AttemptsOnly(t, Authn.CheckLockout(t, k).state)
    ensures AttemptsOnly(t, Authn.GateLogon(t, k).state)
  {
    GateLeavesSide(t, k);
    assert AttemptsOnly(t, Authn.CheckLockout(t, k).state);
    hide Authn.CheckLockout, Authn.GateLogon;
  }

  lemma CountFrame(c: Config, t: State, k: AccountKey)
    ensures AttemptsOnly(t, Authn.CountFailure(c, t, k).0)
    ensures AttemptsOnly(t, ClearAttempts(t, k))
  {
  }

  lemma VerifyPasswordFrame(c: Config, t: State, k: AccountKey, password: string)
    ensures AttemptsOnly(t, Authn.VerifyPassword(c, t, k, password).state)
  {
    GateFrame(t, k);
    CountFrame(c, Authn.GateLogon(t, k).state, k);
    hide Authn.GateLogon, Authn.CountFailure, ClearAttempts;
  }

  // ---- sessions, codes ----

  lemma LogonFrame(c: Config, t: State, op: Authn.Op)
    requires op.Logon? || op.Check?
    ensures AttemptsOnly(t, Authn.Step(c, t, op).state)
  {
    if op.Logon? { VerifyPasswordFrame(c, t, op.k, op.password); }
    hide Authn.VerifyPassword, Authn.ValidateAccess, Authn.Issue;
  }

  ghost predicate SessionsOnly(t: State, u: State) {
    u == t.(sessions := u.sessions)
  }

  lemma SessionPutFrame(t: State, s: SessionKey, row: Session, current: Id)
    ensures SessionsOnly(t, UpsertSession(t, s, row)) && SessionsOnly(t, RotateSession(t, s, current, row).0)
  {
  }

  lemma SessionCutFrame(t: State, k: AccountKey, s: SessionKey)
    ensures SessionsOnly(t, DeleteSessions(t, k)) && SessionsOnly(t, DeleteSession(t, s).state)
  {
  }

  lemma AckFrame(c: Config, t: State, tenant: Tenant, access: Jwt, refresh: Jwt)
    ensures SessionsOnly(t, Authn.Acknowledge(c, t, tenant, access, refresh).state)
  {
    SessionPutFrame(t, Authn.SessionOf(refresh.claims), Session(refresh.claims.jti, refresh.claims.expires), 0);
    hide Verifies, UpsertSession, RotateSession;
  }

  lemma RenewFrame(c: Config, t: State, tenant: Tenant, refresh: Jwt, a: Id, r: Id)
    ensures SessionsOnly(t, Authn.Renew(c, t, tenant, refresh, a, r).state)
  {
    var next := Session(r,
      Authn.Issue(c, t, Authn.OwnerOf(refresh.claims), refresh.claims.client, a, r).refresh.claims.expires);
    SessionPutFrame(t, Authn.SessionOf(refresh.claims), next, refresh.claims.jti);
    hide Verifies, Authn.LiveAccount, Authn.Issue, UpsertSession, RotateSession;
  }

  lemma SessionsFrame(c: Config, t: State, op: Authn.Op)
    requires op.Ack? || op.Renewal? || op.Revocation?
    ensures SessionsOnly(t, Authn.Step(c, t, op).state)
  {
    if op.Ack? { AckFrame(c, t, op.tenant, op.access, op.refresh); }
    else if op.Renewal? { RenewFrame(c, t, op.tenant, op.refresh, op.accessJti, op.refreshJti); }
    else { SessionCutFrame(t, op.k, SessionKey(op.k.tenant, op.k.email, op.client)); }
    hide Authn.Acknowledge, Authn.Renew, DeleteSessions, DeleteSession, SessionsOnly;
  }

  /** A code operation writes attempts, codes and accounts; the request, codes alone. */
  ghost predicate CodesFrame(t: State, u: State) {
    u == t.(attempts := u.attempts, codes := u.codes, accounts := u.accounts)
  }

  lemma SpendFrame(t: State, k: AccountKey, account: Account)
    ensures CodesFrame(t, LogonCodes.Spend(t, k, account))
  {
  }

  lemma CodeLogonFrame(c: Config, t: State, k: AccountKey, client: ClientId, code: string, a: Id, r: Id)
    ensures CodesFrame(t, LogonCodes.Authenticate(c, t, k, client, code, a, r).state)
  {
    var gate := LogonCodes.Gate(t, k, code);
    GateFrame(t, k);
    assert gate.state == Authn.CheckLockout(t, k).state;
    CountFrame(c, gate.state, k);
    hide Authn.CheckLockout, LogonCodes.Gate, LogonCodes.Spend, Authn.Issue, Authn.CountFailure;
    if gate.result.Ok? { SpendFrame(gate.state, k, gate.result.value.0); }
  }

  lemma RequestCodeFrame(c: Config, t: State, k: AccountKey, code: string, salt: nat)
    ensures var u := LogonCodes.Request(c, t, k, code, salt).state; u == t.(codes := u.codes)
  {
    var row := LogonCode(Bcrypt(salt, code), t.now + c.codeExpiry);
    assert UpsertCode(t, k, row) == t.(codes := UpsertCode(t, k, row).codes);
    hide ReadAccount, UpsertCode;
  }

  // ---- the OIDC operations ----

  lemma InsertFrame(t: State, id: Id, row: RefreshToken)
    ensures CoreOf(InsertRefresh(t, id, row).state) == CoreOf(t)
  {
    hide RefreshWithHash;
  }

  lemma InsertAccessFrame(t: State, id: Id, row: AccessToken)
    ensures CoreOf(InsertAccess(t, id, row).state) == CoreOf(t)
  {
  }

  lemma CreateAccessFrame(c: Config, t: State, tenant: Tenant, r: Oidc.TokenRequest, m: Oidc.Mints)
    ensures CoreOf(Oidc.CreateAccessToken(c, t, tenant, r, m).state) == CoreOf(t)
  {
    InsertAccessFrame(t, m.access, Oidc.AccessRow(c, t.now, tenant, r, None));
    hide InsertAccess, Oidc.AccessRow, CoreOf;
  }

  lemma CreatePairFrame(c: Config, t: State, tenant: Tenant, r: Oidc.TokenRequest, m: Oidc.Mints)
    ensures CoreOf(Oidc.CreatePair(c, t, tenant, r, m).state) == CoreOf(t)
  {
    var row, under :=
      Oidc.RefreshRow(c, t.now, tenant, r, m.secret), Oidc.AccessRow(c, t.now, tenant, r, Some(m.refresh));
    InsertFrame(t, m.refresh, row);
    InsertAccessFrame(InsertRefresh(t, m.refresh, row).state, m.access, under);
    hide InsertRefresh, InsertAccess, Oidc.RefreshRow, Oidc.AccessRow, CoreOf;
  }

  lemma DeleteTokenFrame(t: State, tenant: Tenant, id: Id)
    ensures CoreOf(DeleteRefresh(t, tenant, id).state) == CoreOf(t)
    ensures CoreOf(DeleteAccess(t, tenant, id).state) == CoreOf(t)
  {
    assert CoreOf(DropRefresh(t, {id})) == CoreOf(t);
    hide DropRefresh;
  }

  lemma CreationFrame(c: Config, t: State, tenant: Tenant, r: Oidc.TokenRequest, current: Option<Secret>, m: Oidc.Mints)
    ensures CoreOf(Oidc.CreateAccessAndRefreshTokens(c, t, tenant, r, current, m).state) == CoreOf(t)
  {
    hide Oidc.CreatePair, DeleteRefresh, ReadRefresh, CoreOf;
    if current.Some? {
      DeleteTokenFrame(t, tenant, r.id);
      var read := ReadRefresh(t, tenant, current.value);
      if read.Ok? { DeleteTokenFrame(t, tenant, read.value.0); }
      CreatePairFrame(c, Oidc.SpendGrant(t, tenant, r, current.value).state, tenant, r, m);
    } else {
      CreatePairFrame(c, t, tenant, r, m);
    }
  }

  lemma DeleteRequestFrame(t: State, tenant: Tenant, id: Id)
    ensures CoreOf(DeleteRequest(t, tenant, id).state) == CoreOf(t)
  {
  }

  lemma MintingFrame(c: Config, t: State, op: Oidc.Op)
    requires op.Exchange? || op.Refresh?
    ensures CoreOf(Oidc.Step(c, t, op).state) == CoreOf(t)
  {
    hide CoreOf, Oidc.CreateAccessAndRefreshTokens, Oidc.CreateAccessToken, ReadRequestByCode, ReadRefresh,
         DeleteRequest;
    if op.Exchange? {
      var read := ReadRequestByCode(t, op.tenant, op.code);
      if read.Ok? {
        var r := Oidc.ForRequest(read.value.0, read.value.1);
        CreationFrame(c, t, op.tenant, r, None, op.mints);
        CreateAccessFrame(c, t, op.tenant, r, op.mints);
        var minted := if op.offline then Oidc.CreateAccessAndRefreshTokens(c, t, op.tenant, r, None, op.mints)
                      else Oidc.CreateAccessToken(c, t, op.tenant, r, op.mints);
        DeleteRequestFrame(minted.state, op.tenant, r.id);
      }
    } else {
      var read := ReadRefresh(t, op.tenant, op.token);
      if read.Ok? {
        var (id, row) := read.value;
        var r := Oidc.ForRenewal(id, if op.narrowed.Some? then row.(grant := row.grant.(scopes := op.narrowed.value))
                                 else row);
        CreationFrame(c, t, op.tenant, r, Some(op.token), op.mints);
      }
    }
  }

  lemma DeleteBrowserFrame(t: State, tenant: Tenant, cookie: Secret)
    ensures CoreOf(DeleteBrowser(t, tenant, cookie).state) == CoreOf(t)
  {
    hide BrowserWithHash;
  }

  lemma DeleteGrantsFrame(t: State, tenant: Tenant, subject: Subject, client: ClientId)
    ensures CoreOf(DeleteGrants(t, tenant, subject, client)) == CoreOf(t)
  {
    assert CoreOf(DropRefreshOf(t, tenant, {subject}, Some(client))) == CoreOf(t);
    hide DropRefreshOf;
  }

  lemma EndingFrame(c: Config, t: State, op: Oidc.Op)
    requires op.RevokeById? || op.Terminate? || op.EndSession?
    ensures CoreOf(Oidc.Step(c, t, op).state) == CoreOf(t)
  {
    hide CoreOf, DeleteRefresh, DeleteAccess, DeleteBrowser, DeleteGrants, ReadBrowser, ReadRefreshById;
    if op.RevokeById? {
      DeleteTokenFrame(t, op.tenant, op.id);
    } else if op.Terminate? {
      DeleteGrantsFrame(t, op.tenant, op.subject, op.client);
    } else {
      var read := ReadBrowser(t, op.tenant, op.cookie);
      DeleteBrowserFrame(t, op.tenant, op.cookie);
      if read.Ok? {
        DeleteGrantsFrame(DeleteBrowser(t, op.tenant, op.cookie).state, op.tenant, User(read.value.1.account),
                          op.client);
      }
    }
  }

  lemma OidcFrame(c: Config, t: State, op: Oidc.Op)
    requires !op.Login?
    ensures CoreOf(Oidc.Step(c, t, op).state) == CoreOf(t)
  {
    hide Oidc.Step;
    if op.Exchange? || op.Refresh? { MintingFrame(c, t, op); }
    else if op.RevokeById? || op.Terminate? || op.EndSession? { EndingFrame(c, t, op); }
    else if Mutates(op) { RequestWritesOnly(c, t, op); }
    else { LoadsLeaveState(c, t, op); }
  }

  lemma InsertBrowserFrame(t: State, id: Id, row: BrowserSession)
    ensures CoreOf(InsertBrowser(t, id, row).state) == CoreOf(t)
  {
    hide BrowserWithHash, AccountWithId;
  }

  /** Signing in leaves the core as checking the password does. */
  lemma LoginFrame(c: Config, t: State, op: Oidc.Op)
    requires op.Login? && op.tenant != ""
    ensures CoreOf(Oidc.Step(c, t, op).state) ==
              CoreOf(Authn.VerifyPassword(c, t, AccountKey(op.tenant, op.email), op.password).state)
  {
    var k := AccountKey(op.tenant, op.email);
    var logon := Authn.VerifyPassword(c, t, k, op.password);
    hide CoreOf, Authn.VerifyPassword, InsertBrowser;
    if logon.result.Ok? {
      InsertBrowserFrame(logon.state, op.id,
                         BrowserSession(k.tenant, Sha256(op.cookie), logon.result.value.id, t.now,
                                        t.now + c.cookieExpiry));
      assert logon.state.now == t.now by { VerifyPasswordFrame(c, t, k, op.password); }
    }
  }

  lemma LoginWritesAttempts(c: Config, t: State, op: Oidc.Op)
    requires op.Login?
    ensures CoreOf(Oidc.Step(c, t, op).state) == CoreOf(t).(attempts := Oidc.Step(c, t, op).state.attempts)
  {
    if op.tenant == "" { assert Oidc.Step(c, t, op).state == t; }
    hide Oidc.Step;
    if op.tenant != "" {
      LoginFrame(c, t, op);
      VerifyPasswordFrame(c, t, AccountKey(op.tenant, op.email), op.password);
    }
    hide Authn.VerifyPassword;
  }

  // ---- accounts ----

  lemma UpdateFrame(t: State, k: AccountKey, sha: Sha)
    ensures SetVerified(t, k).state == t.(accounts := SetVerified(t, k).state.accounts)
    ensures SetVerificationHash(t, k, sha).state == t.(accounts := SetVerificationHash(t, k, sha).state.accounts)
  {
  }

  lemma TokenOpsFrame(c: Config, t: State, k: AccountKey, token: Secret)
    ensures var u := Accounts.Verify(t, k, token).state; u == t.(accounts := u.accounts)
    ensures var u := Accounts.Resend(t, k, token).state; u == t.(accounts := u.accounts)
    ensures var u := Accounts.Forgot(c, t, k, token).state; u == t.(resets := u.resets)
  {
    UpdateFrame(t, k, Sha256(token));
    hide SetVerified, SetVerificationHash, Accounts.ReadLive;
  }

  lemma PlainAccountsFrame(c: Config, t: State, op: Accounts.Op)
    requires !Accounts.Credential(op)
    ensures var u := Accounts.Step(c, t, op).state; u == t.(accounts := u.accounts, resets := u.resets)
    ensures !op.Forgetting? ==> Accounts.Step(c, t, op).state.resets == t.resets
  {
    hide Accounts.Register, Accounts.Verify, Accounts.Resend, Accounts.Forgot;
    if op.Registration? { RegisterOnlyAccounts(t, op); } else { TokenOpsFrame(c, t, op.k, op.token); }
  }

  // ---- the janitor ----

  lemma SweepFrame(t: State, sweep: Sweep)
    ensures var u := Swept(t, sweep); u.now == t.now && u.accounts == t.accounts
    ensures !sweep.ExpiredSessions? ==> Swept(t, sweep).sessions == t.sessions
    ensures !sweep.StaleAttempts? ==> Swept(t, sweep).attempts == t.attempts
    ensures !sweep.ExpiredCodes? ==> Swept(t, sweep).codes == t.codes
    ensures !sweep.ExpiredResets? ==> Swept(t, sweep).resets == t.resets
  {
    if sweep.ExpiredTokens? { assert CoreOf(SweepTokens(t)) == CoreOf(t); hide SweepTokens; }
  }

  // ---- by table ----

  predicate TouchesSessions(op: Op) {
    || (op.OnAuthn? && (op.authn.Ack? || op.authn.Renewal? || op.authn.Revocation?))
    || (op.OnAccounts? && Accounts.Credential(op.account))
    || op == Janitor(ExpiredSessions)
  }

  predicate TouchesAttempts(op: Op) {
    || (op.OnAuthn? && op.authn.Logon?)
    || (op.OnCodes? && op.code.CodeLogon?)
    || (op.OnOidc? && op.oidc.Login?)
    || (op.OnAccounts? && Accounts.Credential(op.account))
    || (op.Janitor? && op.sweep.StaleAttempts?)
  }

  predicate TouchesCodes(op: Op) {
    op.OnCodes? || op == Janitor(ExpiredCodes)
  }

  predicate TouchesResets(op: Op) {
    || (op.OnAccounts? && (op.account.Forgetting? || Accounts.Credential(op.account)))
    || op == Janitor(ExpiredResets)
  }

  lemma CredentialFrame(c: Config, t: State, op: Accounts.Op)
    requires Accounts.Credential(op)
    ensures Accounts.Step(c, t, op).state.codes == t.codes && Accounts.Step(c, t, op).state.now == t.now
  {
    Accounts.CredentialChangeIsAllOrNothing(c, t, op);
    hide Accounts.Step;
  }

  /** An operation that does not touch a table leaves it as it was. */
  lemma StepFrame(c: Config, t: State, op: Op)
    ensures !TouchesSessions(op) ==> Step(c, t, op).state.sessions == t.sessions
    ensures !TouchesAttempts(op) ==> Step(c, t, op).state.attempts == t.attempts
    ensures !TouchesCodes(op) ==> Step(c, t, op).state.codes == t.codes
    ensures !TouchesResets(op) ==> Step(c, t, op).state.resets == t.resets
  {
    if op.OnAccounts? { AccountsFrame(c, t, op); }
    else if op.OnAuthn? { AuthnFrame(c, t, op); }
    else if op.OnCodes? { CodesStepFrame(c, t, op); }
    else if op.OnOidc? { OidcStepFrame(c, t, op); }
    else if op.Janitor? { SweepFrame(t, op.sweep); }
    hide Swept, Accounts.Step, Authn.Step, LogonCodes.Step, Oidc.Step;
  }

  lemma AccountsFrame(c: Config, t: State, op: Op)
    requires op.OnAccounts?
    ensures !TouchesSessions(op) ==> Step(c, t, op).state.sessions == t.sessions
    ensures !TouchesAttempts(op) ==> Step(c, t, op).state.attempts == t.attempts
    ensures Step(c, t, op).state.codes == t.codes
    ensures !TouchesResets(op) ==> Step(c, t, op).state.resets == t.resets
  {
    hide Accounts.Step;
    if Accounts.Credential(op.account) {
      CredentialFrame(c, t, op.account);
    } else {
      PlainAccountsFrame(c, t, op.account);
    }
  }

  lemma AuthnFrame(c: Config, t: State, op: Op)
    requires op.OnAuthn?
    ensures !TouchesSessions(op) ==> Step(c, t, op).state.sessions == t.sessions
    ensures !TouchesAttempts(op) ==> Step(c, t, op).state.attempts == t.attempts
    ensures Step(c, t, op).state.codes == t.codes && Step(c, t, op).state.resets == t.resets
  {
    hide Authn.ValidateAccess;
    if op.authn.Logon? || op.authn.Check? { LogonFrame(c, t, op.authn); } else { SessionsFrame(c, t, op.authn); }
    if op.authn.Check? { assert Authn.Step(c, t, op.authn).state == t; }
    hide Authn.Step;
  }

  lemma CodesStepFrame(c: Config, t: State, op: Op)
    requires op.OnCodes?
    ensures Step(c, t, op).state.sessions == t.sessions && Step(c, t, op).state.resets == t.resets
    ensures !TouchesAttempts(op) ==> Step(c, t, op).state.attempts == t.attempts
  {
    var o := op.code;
    hide LogonCodes.Request, LogonCodes.Authenticate;
    if o.CodeLogon? { CodeLogonFrame(c, t, o.k, o.client, o.code, o.accessJti, o.refreshJti); }
    else { RequestCodeFrame(c, t, o.k, o.code, o.salt); }
  }

  lemma OidcStepFrame(c: Config, t: State, op: Op)
    requires op.OnOidc?
    ensures Step(c, t, op).state.sessions == t.sessions && Step(c, t, op).state.resets == t.resets
    ensures Step(c, t, op).state.codes == t.codes
    ensures !TouchesAttempts(op) ==> Step(c, t, op).state.attempts == t.attempts
  {
    hide Oidc.Step;
    if op.oidc.Login? { LoginWritesAttempts(c, t, op.oidc); } else { OidcFrame(c, t, op.oidc); }
  }
}
