/** The OIDC janitor is invisible: sweeps may be put anywhere in a run, or left out of it. */
module Invisible {
  import opened Base
  import opened Schema
  import opened Sql
  import opened Tokens
  import opened Values
  import opened Service
  import opened Integrity
  import opened Growth
  import opened Expiries
  import Accounts
  import Authn
  import LogonCodes
  import Noninterference
  import Oidc

  // ---- operations that never look at the OIDC tables ----

  datatype Tables = Tables(
    requests: map<Id, AuthRequest>, refresh: map<Id, RefreshToken>, access: map<Id, AccessToken>,
    browsers: map<Id, BrowserSession>)

  ghost function With(t: State, x: Tables): State {
    t.(requests := x.requests, refresh := x.refresh, access := x.access, browsers := x.browsers)
  }

  function TablesOf(t: State): Tables {
    Tables(t.requests, t.refresh, t.access, t.browsers)
  }

  /** The operation does the same whatever the OIDC tables hold, and leaves them alone. */
  ghost predicate Passes<R>(t: State, x: Tables, r: Reply<R>, s: Reply<R>) {
    s.result == r.result && PassesOver(t, x, r.state, s.state)
  }

  /** A write the OIDC tables have no part in. */
  ghost predicate PassesOver(t: State, x: Tables, u: State, w: State) {
    w == With(u, x) && TablesOf(u) == TablesOf(t) && u.now == t.now
  }

  lemma WithKeeps(t: State, x: Tables, k: AccountKey)
    ensures With(t, x).now == t.now && With(t, x).ring == t.ring
    ensures GetAttempt(With(t, x), k) == GetAttempt(t, k)
    ensures ReadAccount(With(t, x), k) == ReadAccount(t, k)
    ensures ReadCode(With(t, x), k) == ReadCode(t, k)
    ensures PassesOver(t, x, t, With(t, x))
  {
  }

  lemma LiveAccountCarries(t: State, x: Tables, k: AccountKey)
    ensures Authn.LiveAccount(With(t, x), k) == Authn.LiveAccount(t, k)
    ensures Accounts.ReadLive(With(t, x), k) == Accounts.ReadLive(t, k)
  {
  }

  lemma ClearAttemptsCarries(t: State, x: Tables, k: AccountKey)
    ensures PassesOver(t, x, ClearAttempts(t, k), ClearAttempts(With(t, x), k))
  {
  }

  lemma CheckLockoutCarries(t: State, x: Tables, k: AccountKey)
    ensures Passes(t, x, Authn.CheckLockout(t, k), Authn.CheckLockout(With(t, x), k))
  {
    WithKeeps(t, x, k);
    ClearAttemptsCarries(t, x, k);
    hide With, GetAttempt, ClearAttempts, ReadAccount, ReadCode;
  }

  lemma GateLogonCarries(t: State, x: Tables, k: AccountKey)
    ensures Passes(t, x, Authn.GateLogon(t, k), Authn.GateLogon(With(t, x), k))
  {
    CheckLockoutCarries(t, x, k);
    WithKeeps(Authn.CheckLockout(t, k).state, x, k);
    hide With, Authn.CheckLockout, ReadAccount, GetAttempt, ReadCode;
  }

  lemma CountFailureCarries(c: Config, t: State, x: Tables, k: AccountKey)
    ensures PassesOver(t, x, Authn.CountFailure(c, t, k).0, Authn.CountFailure(c, With(t, x), k).0)
    ensures Authn.CountFailure(c, With(t, x), k).1 == Authn.CountFailure(c, t, k).1
  {
  }

  lemma VerifyPasswordCarries(c: Config, t: State, x: Tables, k: AccountKey, password: string)
    ensures Passes(t, x, Authn.VerifyPassword(c, t, k, password), Authn.VerifyPassword(c, With(t, x), k, password))
  {
    GateLogonCarries(t, x, k);
    var u := Authn.GateLogon(t, k).state;
    CountFailureCarries(c, u, x, k);
    ClearAttemptsCarries(u, x, k);
    hide With, Authn.GateLogon, Authn.CountFailure, ClearAttempts;
  }

  lemma IssueCarries(c: Config, t: State, x: Tables, k: AccountKey, client: ClientId, a: Id, r: Id)
    ensures Authn.Issue(c, With(t, x), k, client, a, r) == Authn.Issue(c, t, k, client, a, r)
  {
  }

  lemma LogonCarries(c: Config, t: State, x: Tables, k: AccountKey, client: ClientId, password: string, a: Id, r: Id)
    ensures Passes(t, x, Authn.Authenticate(c, t, k, client, password, a, r),
                    Authn.Authenticate(c, With(t, x), k, client, password, a, r))
  {
    VerifyPasswordCarries(c, t, x, k, password);
    IssueCarries(c, Authn.VerifyPassword(c, t, k, password).state, x, k, client, a, r);
    hide With, Authn.VerifyPassword, Authn.Issue;
  }

  lemma SessionWritesCarry(t: State, x: Tables, s: SessionKey, row: Session, current: Id)
    ensures PassesOver(t, x, UpsertSession(t, s, row), UpsertSession(With(t, x), s, row))
    ensures PassesOver(t, x, RotateSession(t, s, current, row).0, RotateSession(With(t, x), s, current, row).0)
    ensures RotateSession(With(t, x), s, current, row).1 == RotateSession(t, s, current, row).1
    ensures ReadSession(With(t, x), s) == ReadSession(t, s)
  {
  }

  lemma AckCarries(c: Config, t: State, x: Tables, tenant: Tenant, access: Jwt, refresh: Jwt)
    ensures Passes(t, x, Authn.Acknowledge(c, t, tenant, access, refresh),
                    Authn.Acknowledge(c, With(t, x), tenant, access, refresh))
  {
    WithKeeps(t, x, Authn.OwnerOf(refresh.claims));
    SessionWritesCarry(t, x, Authn.SessionOf(refresh.claims), Session(refresh.claims.jti, refresh.claims.expires), 0);
    hide With, Verifies, UpsertSession, RotateSession, ReadSession, GetAttempt, ReadAccount, ReadCode;
  }

  lemma CheckCarries(c: Config, t: State, x: Tables, tenant: Tenant, access: Jwt)
    ensures Authn.ValidateAccess(c, With(t, x), tenant, access) == Authn.ValidateAccess(c, t, tenant, access)
  {
    LiveAccountCarries(t, x, Authn.OwnerOf(access.claims));
    hide Verifies, Authn.LiveAccount;
  }

  lemma RenewCarries(c: Config, t: State, x: Tables, tenant: Tenant, refresh: Jwt, a: Id, r: Id)
    ensures Passes(t, x, Authn.Renew(c, t, tenant, refresh, a, r), Authn.Renew(c, With(t, x), tenant, refresh, a, r))
  {
    var k := Authn.OwnerOf(refresh.claims);
    WithKeeps(t, x, k);
    LiveAccountCarries(t, x, k);
    IssueCarries(c, t, x, k, refresh.claims.client, a, r);
    var next := Session(r, Authn.Issue(c, t, k, refresh.claims.client, a, r).refresh.claims.expires);
    SessionWritesCarry(t, x, Authn.SessionOf(refresh.claims), next, refresh.claims.jti);
    hide With, Verifies, Authn.LiveAccount, Authn.Issue, UpsertSession, RotateSession, ReadSession, GetAttempt,
         ReadAccount, ReadCode;
  }

  lemma DeleteSessionsCarries(t: State, x: Tables, k: AccountKey)
    ensures PassesOver(t, x, DeleteSessions(t, k), DeleteSessions(With(t, x), k))
  {
    assert DeleteSessions(With(t, x), k).sessions == DeleteSessions(t, k).sessions;
  }

  lemma DeleteSessionCarries(t: State, x: Tables, s: SessionKey)
    ensures Passes(t, x, DeleteSession(t, s), DeleteSession(With(t, x), s))
  {
    assert s in With(t, x).sessions <==> s in t.sessions;
  }

  lemma RevokeCarries(t: State, x: Tables, k: AccountKey, client: ClientId)
    ensures Passes(t, x, Authn.Revoke(t, k, client), Authn.Revoke(With(t, x), k, client))
  {
    DeleteSessionsCarries(t, x, k);
    DeleteSessionCarries(t, x, SessionKey(k.tenant, k.email, client));
    hide With, DeleteSessions, DeleteSession;
  }

  lemma AuthnCarries(c: Config, t: State, x: Tables, op: Authn.Op)
    ensures Passes(t, x, Authn.Step(c, t, op), Authn.Step(c, With(t, x), op))
  {
    assert PassesOver(t, x, t, With(t, x));
    hide With, Authn.Authenticate, Authn.Acknowledge, Authn.ValidateAccess, Authn.Renew, Authn.Revoke;
    match op
    case Logon(k, client, password, a, r) => LogonCarries(c, t, x, k, client, password, a, r);
    case Ack(tenant, access, refresh) => AckCarries(c, t, x, tenant, access, refresh);
    case Check(tenant, access) => CheckCarries(c, t, x, tenant, access);
    case Renewal(tenant, refresh, a, r) => RenewCarries(c, t, x, tenant, refresh, a, r);
    case Revocation(k, client) => RevokeCarries(t, x, k, client);
  }

  lemma CodeGateCarries(t: State, x: Tables, k: AccountKey, code: string)
    ensures Passes(t, x, LogonCodes.Gate(t, k, code), LogonCodes.Gate(With(t, x), k, code))
  {
    CheckLockoutCarries(t, x, k);
    WithKeeps(Authn.CheckLockout(t, k).state, x, k);
    hide With, Authn.CheckLockout, ValidCode, ReadAccount, ReadCode, GetAttempt;
  }

  lemma UpdateCarries(t: State, x: Tables, k: AccountKey, a: Account)
    requires k in t.accounts ==> a.id == t.accounts[k].id
    ensures Passes(t, x, UpdateAccount(t, k, a), UpdateAccount(With(t, x), k, a))
  {
  }

  lemma AccountWritesCarry(t: State, x: Tables, k: AccountKey, sha: Sha, hash: Bcrypt)
    ensures Passes(t, x, SetVerified(t, k), SetVerified(With(t, x), k))
    ensures Passes(t, x, SetVerificationHash(t, k, sha), SetVerificationHash(With(t, x), k, sha))
    ensures Passes(t, x, SetPasswordHash(t, k, hash), SetPasswordHash(With(t, x), k, hash))
    ensures Passes(t, x, SoftDelete(t, k), SoftDelete(With(t, x), k))
  {
    WithKeeps(t, x, k);
    assert With(t, x).accounts == t.accounts;
    if k in t.accounts {
      var a := t.accounts[k];
      UpdateCarries(t, x, k, a.(verified := true, verification := None));
      UpdateCarries(t, x, k, a.(verification := Some(sha)));
      UpdateCarries(t, x, k, a.(password := hash));
      UpdateCarries(t, x, k, a.(deleted := true));
    }
    hide With, UpdateAccount, PassesOver, ReadAccount, GetAttempt, ReadCode;
  }

  lemma SlotWritesCarry(t: State, x: Tables, k: AccountKey, code: LogonCode, reset: PasswordReset)
    ensures PassesOver(t, x, UpsertCode(t, k, code), UpsertCode(With(t, x), k, code))
    ensures PassesOver(t, x, DeleteCode(t, k), DeleteCode(With(t, x), k))
    ensures PassesOver(t, x, UpsertReset(t, k, reset), UpsertReset(With(t, x), k, reset))
    ensures PassesOver(t, x, DeleteReset(t, k), DeleteReset(With(t, x), k))
  {
  }

  lemma SpendCarries(t: State, x: Tables, k: AccountKey, account: Account)
    ensures PassesOver(t, x, LogonCodes.Spend(t, k, account), LogonCodes.Spend(With(t, x), k, account))
  {
    SlotWritesCarry(t, x, k, LogonCode(Bcrypt(0, ""), 0), PasswordReset(Sha256(0), 0));
    ClearAttemptsCarries(DeleteCode(t, k), x, k);
    AccountWritesCarry(ClearAttempts(DeleteCode(t, k), k), x, k, Sha256(0), Bcrypt(0, ""));
    hide With, DeleteCode, ClearAttempts, SetVerified, UpsertCode, UpsertReset, DeleteReset, SetVerificationHash,
         SetPasswordHash, SoftDelete;
  }

  lemma CodeLogonCarries(c: Config, t: State, x: Tables, k: AccountKey, client: ClientId, code: string, a: Id, r: Id)
    ensures Passes(t, x, LogonCodes.Authenticate(c, t, k, client, code, a, r),
                    LogonCodes.Authenticate(c, With(t, x), k, client, code, a, r))
  {
    hide With, LogonCodes.Gate, LogonCodes.Spend, Authn.CountFailure, Authn.Issue, BcryptVerify;
    CodeGateCarries(t, x, k, code);
    var gate := LogonCodes.Gate(t, k, code);
    if gate.result.Ok? {
      if BcryptVerify(gate.result.value.1, code) {
        SpendCarries(gate.state, x, k, gate.result.value.0);
        IssueCarries(c, LogonCodes.Spend(gate.state, k, gate.result.value.0), x, k, client, a, r);
      } else {
        CountFailureCarries(c, gate.state, x, k);
      }
    }
  }

  lemma UpsertCodeCarries(t: State, x: Tables, k: AccountKey, row: LogonCode)
    ensures PassesOver(t, x, UpsertCode(t, k, row), UpsertCode(With(t, x), k, row))
  {
  }

  lemma RequestCodeCarries(c: Config, t: State, x: Tables, k: AccountKey, code: string, salt: nat)
    ensures Passes(t, x, LogonCodes.Request(c, t, k, code, salt), LogonCodes.Request(c, With(t, x), k, code, salt))
  {
    hide ReadAccount, GetAttempt, ReadCode, UpsertCode;
    WithKeeps(t, x, k);
    UpsertCodeCarries(t, x, k, LogonCode(Bcrypt(salt, code), t.now + c.codeExpiry));
    hide With, PassesOver;
  }

  lemma CodesCarry(c: Config, t: State, x: Tables, op: LogonCodes.Op)
    ensures Passes(t, x, LogonCodes.Step(c, t, op), LogonCodes.Step(c, With(t, x), op))
  {
    hide Passes, With, LogonCodes.Request, LogonCodes.Authenticate;
    match op
    case RequestCode(k, code, salt) => RequestCodeCarries(c, t, x, k, code, salt);
    case CodeLogon(k, client, code, a, r) => CodeLogonCarries(c, t, x, k, client, code, a, r);
  }

  lemma InsertAccountCarries(t: State, x: Tables, k: AccountKey, a: Account)
    ensures Passes(t, x, InsertAccount(t, k, a), InsertAccount(With(t, x), k, a))
  {
    assert AccountWithId(With(t, x), a.id).Some? == AccountWithId(t, a.id).Some?;
    hide AccountWithId;
  }

  lemma RegisterCarries(t: State, x: Tables, k: AccountKey, password: string, salt: nat, id: Id, token: Secret)
    ensures Passes(t, x, Accounts.Register(t, k, password, salt, id, token),
                    Accounts.Register(With(t, x), k, password, salt, id, token))
  {
    assert PassesOver(t, x, t, With(t, x));
    InsertAccountCarries(t, x, k, Account(id, Bcrypt(salt, password), false, Some(Sha256(token)), true, false));
    hide With, InsertAccount;
  }

  lemma VerifyCarries(t: State, x: Tables, k: AccountKey, token: Secret)
    ensures Passes(t, x, Accounts.Verify(t, k, token), Accounts.Verify(With(t, x), k, token))
    ensures Passes(t, x, Accounts.Resend(t, k, token), Accounts.Resend(With(t, x), k, token))
  {
    WithKeeps(t, x, k);
    LiveAccountCarries(t, x, k);
    AccountWritesCarry(t, x, k, Sha256(token), Bcrypt(0, ""));
    hide With, Accounts.ReadLive, Authn.LiveAccount, SetVerified, SetVerificationHash, SetPasswordHash, SoftDelete,
         ReadAccount,
         GetAttempt, ReadCode, PassesOver;
  }

  lemma UpsertResetCarries(t: State, x: Tables, k: AccountKey, row: PasswordReset)
    ensures PassesOver(t, x, UpsertReset(t, k, row), UpsertReset(With(t, x), k, row))
  {
  }

  lemma ForgotCarries(c: Config, t: State, x: Tables, k: AccountKey, token: Secret)
    ensures Passes(t, x, Accounts.Forgot(c, t, k, token), Accounts.Forgot(c, With(t, x), k, token))
  {
    hide Accounts.ReadLive, Authn.LiveAccount, ReadAccount, GetAttempt, ReadCode, UpsertReset;
    WithKeeps(t, x, k);
    LiveAccountCarries(t, x, k);
    UpsertResetCarries(t, x, k, PasswordReset(Sha256(token), t.now + c.resetExpiry));
    hide With, PassesOver;
  }

  lemma PlainAccountsCarry(c: Config, t: State, x: Tables, op: Accounts.Op)
    requires !Accounts.Credential(op)
    ensures Passes(t, x, Accounts.Step(c, t, op), Accounts.Step(c, With(t, x), op))
  {
    hide Passes, With, Accounts.Register, Accounts.Verify, Accounts.Resend, Accounts.Forgot;
    if op.Registration? { RegisterCarries(t, x, op.k, op.password, op.salt, op.id, op.token); }
    else if op.Forgetting? { ForgotCarries(c, t, x, op.k, op.token); }
    else { VerifyCarries(t, x, op.k, op.token); }
  }

  /** Two agreeing databases stay agreeing under whatever carries over, with the same result. */
  ghost predicate InStep<R>(r: Reply<R>, s: Reply<R>) {
    Agree(r.state, s.state) && Similar(r.result, s.result)
  }

  lemma CarriedInStep<R>(t: State, u: State, r: Reply<R>, s: Reply<R>)
    requires Agree(t, u) && Passes(t, TablesOf(u), r, s)
    ensures InStep(r, s)
  {
    hide AgreeRequests, AgreeRefresh, AgreeAccess, AgreeBrowsers;
  }

  lemma RestIsWith(t: State, u: State)
    requires Agree(t, u)
    ensures u == With(t, TablesOf(u))
  {
  }

  // ---- credential changes ----

  lemma ExecInStep(t: State, u: State, k: AccountKey, change: Accounts.Change)
    requires Agree(t, u) && Anchored(t)
    ensures InStep(Accounts.Exec(t, k, change), Accounts.Exec(u, k, change))
  {
    RestIsWith(t, u);
    assert SubjectsOf(t, k) == SubjectsOf(u, k);
    hide Agree, Anchored, Passes;
    if Accounts.OnOidc(change) {
      OidcExecInStep(t, u, k, change);
    } else {
      AccountExecCarries(t, TablesOf(u), k, change);
      CarriedInStep(t, u, Accounts.Exec(t, k, change), Accounts.Exec(u, k, change));
    }
    hide Accounts.Exec, InStep;
  }

  lemma OidcExecInStep(t: State, u: State, k: AccountKey, change: Accounts.Change)
    requires Accounts.OnOidc(change) && Agree(t, u) && Anchored(t) && SubjectsOf(t, k) == SubjectsOf(u, k)
    ensures InStep(Accounts.Exec(t, k, change), Accounts.Exec(u, k, change))
  {
    hide Agree, Anchored, SubjectsOf, DropRefreshOf, DropAccessOf, DropRequestsOf, DeleteBrowsersForEmail;
    var subjects := SubjectsOf(t, k);
    if change.DropBrowsers? { DeleteBrowsersForEmailAgrees(t, u, k); }
    else if change.DropRefreshTokens? { DropRefreshOfAgrees(t, u, k.tenant, subjects, None); }
    else if change.DropAccessTokens? { DropAccessOfAgrees(t, u, k.tenant, subjects, None); }
    else { DropRequestsOfAgrees(t, u, k.tenant, subjects); }
  }

  lemma AccountExecCarries(t: State, x: Tables, k: AccountKey, change: Accounts.Change)
    requires !Accounts.OnOidc(change)
    ensures Passes(t, x, Accounts.Exec(t, k, change), Accounts.Exec(With(t, x), k, change))
  {
    hide With, PassesOver, SetPasswordHash, SoftDelete, DeleteReset, DeleteSessions, ClearAttempts, SetVerified,
         SetVerificationHash,
         UpsertCode, DeleteCode, UpsertReset;
    if change.SetPassword? { AccountWritesCarry(t, x, k, Sha256(0), change.hash); }
    else if change.MarkDeleted? { AccountWritesCarry(t, x, k, Sha256(0), Bcrypt(0, "")); }
    else if change.DropReset? { SlotWritesCarry(t, x, k, LogonCode(Bcrypt(0, ""), 0), PasswordReset(Sha256(0), 0)); }
    else if change.DropSessions? { DeleteSessionsCarries(t, x, k); }
    else { ClearAttemptsCarries(t, x, k); }
  }

  lemma ValidAnchors(t: State)
    requires Valid(t) && Nested(t)
    ensures Anchored(t)
  {
  }

  lemma {:induction false} RunBodyInStep(
    t: State, u: State, k: AccountKey, body: seq<Accounts.Change>, fault: Accounts.Fault, i: nat)
    requires i <= |body| && Agree(t, u) && Valid(t) && Nested(t)
    ensures InStep(Accounts.RunBody(t, k, body, fault, i), Accounts.RunBody(u, k, body, fault, i))
    ensures Accounts.RunBody(t, k, body, fault, i).result == Accounts.RunBody(u, k, body, fault, i).result
  {
    hide Agree, Valid, Nested, Anchored, Accounts.Exec;
    if i > 0 {
      RunBodyInStep(t, u, k, body, fault, i - 1);
      RunBodyKeepsValid(t, k, body, fault, i - 1);
      var v, w := Accounts.RunBody(t, k, body, fault, i - 1).state, Accounts.RunBody(u, k, body, fault, i - 1).state;
      ValidAnchors(v);
      ExecInStep(v, w, k, body[i - 1]);
      ExecErrors(v, k, body[i - 1]);
      ExecErrors(w, k, body[i - 1]);
    }
  }

  lemma ExecErrors(t: State, k: AccountKey, change: Accounts.Change)
    ensures Accounts.Exec(t, k, change).result in {Ok(()), Err(AccountNotFound)}
  {
  }

  lemma CredentialInStep(c: Config, t: State, u: State, op: Accounts.Op)
    requires Accounts.Credential(op) && Agree(t, u) && Valid(t) && Nested(t)
    ensures InStep(Accounts.Step(c, t, op), Accounts.Step(c, u, op))
  {
    var body := Accounts.BodyOf(c, op);
    Noninterference.PrecheckThenTransaction(c, t, op);
    Noninterference.PrecheckThenTransaction(c, u, op);
    assert Noninterference.Precheck(t, op) == Noninterference.Precheck(u, op) by { PrecheckCarries(t, u, op); }
    RunBodyInStep(t, u, op.k, body, op.fault, |body|);
    hide Agree, Valid, Nested, Accounts.RunBody, Accounts.Step, Noninterference.Precheck, Accounts.BodyOf;
  }

  lemma PrecheckCarries(t: State, u: State, op: Accounts.Op)
    requires Accounts.Credential(op) && Agree(t, u)
    ensures Noninterference.Precheck(t, op) == Noninterference.Precheck(u, op)
  {
    assert t.accounts == u.accounts && t.resets == u.resets && t.now == u.now;
    hide Agree;
  }

  // ---- the OIDC operations ----

  ghost predicate Sound(t: State) {
    Valid(t) && Nested(t)
  }

  lemma SoundParts(t: State)
    requires Sound(t)
    ensures Anchored(t) && UniqueAccountIds(t.accounts) && UniqueCodes(t.requests)
    ensures UniqueRefreshHashes(t.refresh) && UniqueCookies(t.browsers)
  {
  }

  lemma CreateAccessInStep(c: Config, t: State, u: State, tenant: Tenant, r: Oidc.TokenRequest, m: Oidc.Mints)
    requires Agree(t, u) && m.access !in t.access && m.access !in u.access
    ensures InStep(Oidc.CreateAccessToken(c, t, tenant, r, m), Oidc.CreateAccessToken(c, u, tenant, r, m))
  {
    assert t.now == u.now;
    InsertAccessAgrees(t, u, m.access, Oidc.AccessRow(c, t.now, tenant, r, None));
    hide Agree, InsertAccess;
  }

  lemma CreatePairInStep(c: Config, t: State, u: State, tenant: Tenant, r: Oidc.TokenRequest, m: Oidc.Mints)
    requires Agree(t, u) && Unminted(t, m) && Unminted(u, m)
    ensures InStep(Oidc.CreatePair(c, t, tenant, r, m), Oidc.CreatePair(c, u, tenant, r, m))
  {
    assert t.now == u.now;
    var row := Oidc.RefreshRow(c, t.now, tenant, r, m.secret);
    InsertRefreshAgrees(t, u, m.refresh, row);
    InsertedRefresh(t, m.refresh, row);
    InsertedRefresh(u, m.refresh, row);
    InsertAccessAgrees(InsertRefresh(t, m.refresh, row).state, InsertRefresh(u, m.refresh, row).state, m.access,
                       Oidc.AccessRow(c, t.now, tenant, r, Some(m.refresh)));
    hide Agree, InsertAccess, InsertRefresh;
  }

  /** The row a renewal presents is one that it has just read. */
  lemma SpendInStep(t: State, u: State, tenant: Tenant, r: Oidc.TokenRequest, current: Secret)
    requires Agree(t, u) && Sound(t) && Sound(u) && (r.ForRenewal? ==> LiveRefresh(t, r.id))
    ensures InStep(Oidc.SpendGrant(t, tenant, r, current), Oidc.SpendGrant(u, tenant, r, current))
  {
    SoundParts(t);
    SoundParts(u);
    DeleteRefreshAgrees(t, u, tenant, r.id);
    ReadRefreshAgrees(t, u, tenant, current);
    var read := ReadRefresh(t, tenant, current);
    if read.Ok? { DeleteRefreshAgrees(t, u, tenant, read.value.0); }
    hide Agree, Sound, Anchored, LiveRefresh, ReadRefresh, DeleteRefresh;
  }

  lemma CreationInStep(
    c: Config, t: State, u: State, tenant: Tenant, r: Oidc.TokenRequest, current: Option<Secret>, m: Oidc.Mints)
    requires Agree(t, u) && Sound(t) && Sound(u) && Unminted(t, m) && Unminted(u, m)
    requires r.ForRenewal? ==> LiveRefresh(t, r.id)
    ensures InStep(Oidc.CreateAccessAndRefreshTokens(c, t, tenant, r, current, m),
                   Oidc.CreateAccessAndRefreshTokens(c, u, tenant, r, current, m))
  {
    hide Agree, Sound, Unminted, Oidc.SpendGrant, Oidc.CreatePair, LiveRefresh, Similar;
    var v := if current.Some? then Oidc.SpendGrant(t, tenant, r, current.value) else Reply(t, Ok(()));
    var w := if current.Some? then Oidc.SpendGrant(u, tenant, r, current.value) else Reply(u, Ok(()));
    if current.Some? {
      SpendInStep(t, u, tenant, r, current.value);
      SpendGrows(t, tenant, r, current.value);
      SpendGrows(u, tenant, r, current.value);
      Noninterference.SpentStaysUnminted(t, v.state, m);
      Noninterference.SpentStaysUnminted(u, w.state, m);
      SimilarParts(v.result, w.result);
    }
    var x, y := Oidc.CreateAccessAndRefreshTokens(c, t, tenant, r, current, m),
    Oidc.CreateAccessAndRefreshTokens(c, u, tenant, r, current, m);
    if v.result.Err? {
      SimilarErrors(v.result, w.result, x.result, y.result);
    } else {
      CreatePairInStep(c, v.state, w.state, tenant, r, m);
    }
  }

  lemma ExchangeInStep(c: Config, t: State, u: State, tenant: Tenant, code: Secret, offline: bool, m: Oidc.Mints)
    requires Agree(t, u) && Sound(t) && Sound(u) && Unminted(t, m) && Unminted(u, m)
    ensures InStep(Oidc.ExchangeCode(c, t, tenant, code, offline, m), Oidc.ExchangeCode(c, u, tenant, code, offline, m))
  {
    SoundParts(t);
    SoundParts(u);
    ReadRequestByCodeAgrees(t, u, tenant, code);
    var read, other := ReadRequestByCode(t, tenant, code), ReadRequestByCode(u, tenant, code);
    var x, y := Oidc.ExchangeCode(c, t, tenant, code, offline, m), Oidc.ExchangeCode(c, u, tenant, code, offline, m);
    SimilarParts(read, other);
    hide Agree, Sound, Anchored, Unminted, Similar;
    hide ReadRequestByCode, Oidc.CreateAccessAndRefreshTokens, Oidc.CreateAccessToken, DeleteRequest;
    if read.Ok? {
      var r := Oidc.ForRequest(read.value.0, read.value.1);
      CreationInStep(c, t, u, tenant, r, None, m);
      CreateAccessInStep(c, t, u, tenant, r, m);
      var v := if offline then Oidc.CreateAccessAndRefreshTokens(c, t, tenant, r, None, m)
               else Oidc.CreateAccessToken(c, t, tenant, r, m);
      var w := if offline then Oidc.CreateAccessAndRefreshTokens(c, u, tenant, r, None, m)
               else Oidc.CreateAccessToken(c, u, tenant, r, m);
      SimilarParts(v.result, w.result);
      DeleteRequestAgrees(v.state, w.state, tenant, r.id);
    } else {
      SimilarErrors(read, other, x.result, y.result);
    }
  }

  lemma RefreshInStep(
    c: Config, t: State, u: State, tenant: Tenant, token: Secret, narrowed: Option<seq<string>>, m: Oidc.Mints)
    requires Agree(t, u) && Sound(t) && Sound(u) && Unminted(t, m) && Unminted(u, m)
    ensures InStep(Oidc.RefreshGrant(c, t, tenant, token, narrowed, m),
                   Oidc.RefreshGrant(c, u, tenant, token, narrowed, m))
  {
    SoundParts(t);
    SoundParts(u);
    ReadRefreshAgrees(t, u, tenant, token);
    var read := ReadRefresh(t, tenant, token);
    hide Agree, Sound, Anchored, ReadRefresh, Oidc.CreateAccessAndRefreshTokens, LiveRefresh, Unminted;
    if read.Ok? {
      var (id, row) := read.value;
      var r := Oidc.ForRenewal(id, if narrowed.Some? then row.(grant := row.grant.(scopes := narrowed.value)) else row);
      CreationInStep(c, t, u, tenant, r, Some(token), m);
    }
  }

  lemma RevokeInStep(t: State, u: State, tenant: Tenant, id: Id)
    requires Agree(t, u) && Sound(t) && Sound(u)
    ensures InStep(Oidc.RevokeToken(t, tenant, id), Oidc.RevokeToken(u, tenant, id))
  {
    SoundParts(t);
    SoundParts(u);
    ReadRefreshByIdAgrees(t, u, tenant, id);
    DeleteRefreshAgrees(t, u, tenant, id);
    DeleteAccessAgrees(t, u, tenant, id);
    hide Agree, Sound, Anchored, ReadRefreshById, DeleteRefresh, DeleteAccess, LiveRefresh;
  }

  lemma DeleteGrantsAgrees(t: State, u: State, tenant: Tenant, subject: Subject, client: ClientId)
    requires Agree(t, u) && Sound(t) && Sound(u)
    ensures Agree(DeleteGrants(t, tenant, subject, client), DeleteGrants(u, tenant, subject, client))
  {
    SoundParts(t);
    SoundParts(u);
    DropRefreshOfAgrees(t, u, tenant, {subject}, Some(client));
    DropAccessOfAgrees(DropRefreshOf(t, tenant, {subject}, Some(client)),
                       DropRefreshOf(u, tenant, {subject}, Some(client)),
                       tenant, {subject}, Some(client));
    hide Agree, Sound, Anchored, DropRefreshOf, DropAccessOf;
  }

  lemma LogoutInStep(t: State, u: State, tenant: Tenant, cookie: Secret, client: ClientId)
    requires Agree(t, u) && Sound(t) && Sound(u)
    ensures InStep(Oidc.Logout(t, tenant, cookie, client), Oidc.Logout(u, tenant, cookie, client))
  {
    SoundParts(t);
    SoundParts(u);
    ReadBrowserAgrees(t, u, tenant, cookie);
    SimilarParts(ReadBrowser(t, tenant, cookie), ReadBrowser(u, tenant, cookie));
    DeleteBrowserAgrees(t, u, tenant, cookie);
    DeleteBrowserKeepsValid(t, tenant, cookie);
    DeleteBrowserKeepsValid(u, tenant, cookie);
    var v, w := DeleteBrowser(t, tenant, cookie).state, DeleteBrowser(u, tenant, cookie).state;
    assert Sound(v) && Sound(w);
    hide Agree, Sound, Valid, Nested, Anchored, ReadBrowser, DeleteBrowser, DeleteGrants, Similar;
    var read := ReadBrowser(t, tenant, cookie);
    if read.Ok? { DeleteGrantsAgrees(v, w, tenant, User(read.value.1.account), client); }
    SameIsSimilar(Oidc.Logout(t, tenant, cookie, client).result, Oidc.Logout(u, tenant, cookie, client).result);
  }

  ghost predicate NewCookie(t: State, id: Id, cookie: Secret) {
    id !in t.browsers && forall j :: j in t.browsers ==> t.browsers[j].hash != Sha256(cookie)
  }

  lemma SignInInStep(c: Config, t: State, u: State, k: AccountKey, password: string, id: Id, cookie: Secret)
    requires Agree(t, u) && NewCookie(t, id, cookie) && NewCookie(u, id, cookie)
    ensures InStep(Oidc.SignIn(c, t, k, password, id, cookie), Oidc.SignIn(c, u, k, password, id, cookie))
  {
    hide Authn.VerifyPassword, InsertBrowser, AgreeRequests, AgreeRefresh, AgreeAccess, AgreeBrowsers;
    RestIsWith(t, u);
    VerifyPasswordCarries(c, t, TablesOf(u), k, password);
    var v, w := Authn.VerifyPassword(c, t, k, password), Authn.VerifyPassword(c, u, k, password);
    CarriedInStep(t, u, v, w);
    assert v.state.browsers == t.browsers && w.state.browsers == u.browsers && v.state.now == t.now;
    hide Agree, With, Passes;
    if v.result.Ok? {
      InsertBrowserAgrees(v.state, w.state, id,
                          BrowserSession(k.tenant, Sha256(cookie), v.result.value.id, t.now, t.now + c.cookieExpiry));
    }
  }

  lemma AuthorizeInStep(c: Config, t: State, u: State, tenant: Tenant, id: Id, client: ClientId, scopes: seq<string>)
    requires Agree(t, u) && id !in t.requests && id !in u.requests
    ensures InStep(Oidc.CreateAuthRequest(c, t, tenant, id, client, scopes),
                   Oidc.CreateAuthRequest(c, u, tenant, id, client, scopes))
  {
    assert t.now == u.now;
    var row := Oidc.PendingRequest(c, t.now, tenant, client, scopes);
    InsertRequestAgrees(t, u, id, row);
    hide Agree, InsertRequest, Oidc.PendingRequest;
    assert Oidc.CreateAuthRequest(c, t, tenant, id, client, scopes).state == InsertRequest(t, id, row).state;
    assert Oidc.CreateAuthRequest(c, u, tenant, id, client, scopes).state == InsertRequest(u, id, row).state;
    assert Oidc.CreateAuthRequest(c, t, tenant, id, client, scopes).result ==
      Oidc.CreateAuthRequest(c, u, tenant, id, client, scopes).result;
    hide Oidc.CreateAuthRequest;
  }

  lemma UserinfoAgrees(t: State, u: State, tenant: Tenant, subject: Subject, scopes: seq<string>)
    requires Agree(t, u) && UniqueAccountIds(t.accounts)
    ensures Oidc.SetUserinfo(t, tenant, subject, scopes) == Oidc.SetUserinfo(u, tenant, subject, scopes)
  {
    if subject != Nobody { ReadAccountByIdAgrees(t, u, tenant, subject.id); }
    hide Agree, ReadAccountById;
  }

  lemma UserinfoReadsAgree(t: State, u: State, tenant: Tenant, id: Id)
    requires Agree(t, u) && UniqueAccountIds(t.accounts)
    ensures Similar(Oidc.UserinfoFromToken(t, tenant, id), Oidc.UserinfoFromToken(u, tenant, id))
  {
    var read, other := ReadAccess(t, tenant, id), ReadAccess(u, tenant, id);
    ReadAccessAgrees(t, u, tenant, id);
    SimilarParts(read, other);
    hide Agree, ReadAccess, Oidc.SetUserinfo, Similar, UniqueAccountIds;
    if read.Ok? {
      UserinfoAgrees(t, u, tenant, read.value.1.grant.subject, read.value.1.grant.scopes);
      SameIsSimilar(Oidc.UserinfoFromToken(t, tenant, id), Oidc.UserinfoFromToken(u, tenant, id));
    } else {
      SimilarErrors(read, other, Oidc.UserinfoFromToken(t, tenant, id), Oidc.UserinfoFromToken(u, tenant, id));
    }
  }

  lemma TokenReadsAgree(t: State, u: State, tenant: Tenant, client: ClientId, token: Secret, id: Id)
    requires Agree(t, u) && Sound(t) && Sound(u)
    ensures Similar(Oidc.GetRefreshTokenInfo(t, tenant, client, token),
                    Oidc.GetRefreshTokenInfo(u, tenant, client, token))
    ensures Similar(Oidc.UserinfoFromToken(t, tenant, id), Oidc.UserinfoFromToken(u, tenant, id))
  {
    SoundParts(t);
    SoundParts(u);
    ReadRefreshAgrees(t, u, tenant, token);
    SimilarParts(ReadRefresh(t, tenant, token), ReadRefresh(u, tenant, token));
    UserinfoReadsAgree(t, u, tenant, id);
    hide Agree, Sound, Anchored, ReadRefresh, Oidc.UserinfoFromToken, Similar, LiveRefresh;
    SameIsSimilar(Oidc.GetRefreshTokenInfo(t, tenant, client, token),
                  Oidc.GetRefreshTokenInfo(u, tenant, client, token));
  }

  lemma RequestLoadsSimilar(t: State, u: State, tenant: Tenant, id: Id, code: Secret)
    requires Agree(t, u) && Sound(t) && Sound(u)
    ensures Similar(Oidc.Loaded(t, ReadRequest(t, tenant, id)).result,
                    Oidc.Loaded(u, ReadRequest(u, tenant, id)).result)
    ensures Similar(Oidc.Loaded(t, ReadRequestByCode(t, tenant, code)).result,
                    Oidc.Loaded(u, ReadRequestByCode(u, tenant, code)).result)
  {
    SoundParts(t);
    SoundParts(u);
    ReadRequestAgrees(t, u, tenant, id);
    ReadRequestByCodeAgrees(t, u, tenant, code);
    hide Agree, Sound, Anchored, ReadRequest, ReadRequestByCode;
  }

  lemma GrantLoadsSimilar(t: State, u: State, r: Result<(Id, RefreshToken)>, s: Result<(Id, RefreshToken)>)
    requires Similar(r, s)
    ensures Similar(Oidc.Granted(t, r).result, Oidc.Granted(u, s).result)
  {
    SimilarParts(r, s);
    if r.Err? { SimilarErrors(r, s, Oidc.Granted(t, r).result, Oidc.Granted(u, s).result); }
    else { SameIsSimilar(Oidc.Granted(t, r).result, Oidc.Granted(u, s).result); }
    hide Similar;
  }

  lemma CookieLoadsSimilar(
    t: State, u: State, r: Result<(Id, BrowserSession)>, s: Result<(Id, BrowserSession)>, cookie: Secret)
    requires Similar(r, s)
    ensures Similar(Oidc.Browsed(t, r, cookie).result, Oidc.Browsed(u, s, cookie).result)
  {
    SimilarParts(r, s);
    if r.Err? { SimilarErrors(r, s, Oidc.Browsed(t, r, cookie).result, Oidc.Browsed(u, s, cookie).result); }
    else { SameIsSimilar(Oidc.Browsed(t, r, cookie).result, Oidc.Browsed(u, s, cookie).result); }
    hide Similar;
  }

  lemma SecretLoadsSimilar(t: State, u: State, tenant: Tenant, token: Secret)
    requires Agree(t, u) && Sound(t) && Sound(u)
    ensures Similar(Oidc.Granted(t, ReadRefresh(t, tenant, token)).result,
                    Oidc.Granted(u, ReadRefresh(u, tenant, token)).result)
    ensures Similar(Oidc.Browsed(t, ReadBrowser(t, tenant, token), token).result,
                    Oidc.Browsed(u, ReadBrowser(u, tenant, token), token).result)
  {
    hide Agree, Sound, Anchored, ReadRefresh, ReadBrowser, LiveRefresh, Similar, Oidc.Granted, Oidc.Browsed;
    SoundParts(t);
    SoundParts(u);
    ReadRefreshAgrees(t, u, tenant, token);
    ReadBrowserAgrees(t, u, tenant, token);
    GrantLoadsSimilar(t, u, ReadRefresh(t, tenant, token), ReadRefresh(u, tenant, token));
    CookieLoadsSimilar(t, u, ReadBrowser(t, tenant, token), ReadBrowser(u, tenant, token), token);
  }

  lemma LoadsSimilar(c: Config, t: State, u: State, op: Oidc.Op)
    requires Agree(t, u) && Sound(t) && Sound(u) && op.tenant != "" && !Mutates(op)
    ensures Similar(Oidc.Step(c, t, op).result, Oidc.Step(c, u, op).result)
  {
    assert UniqueAccountIds(t.accounts);
    hide Agree, Sound, ReadRequest, ReadRequestByCode, ReadRefresh, ReadBrowser, Oidc.Loaded, Oidc.Granted,
         Oidc.Browsed,
         Oidc.GetRefreshTokenInfo, Oidc.UserinfoFromToken, Oidc.SetUserinfo, UniqueAccountIds;
    if op.LoadRequest? { RequestLoadsSimilar(t, u, op.tenant, op.id, 0); }
    else if op.LoadByCode? { RequestLoadsSimilar(t, u, op.tenant, 0, op.code); }
    else if op.LoadGrant? { SecretLoadsSimilar(t, u, op.tenant, op.token); }
    else if op.Inspect? { TokenReadsAgree(t, u, op.tenant, op.client, op.token, 0); }
    else if op.LoadCookie? { SecretLoadsSimilar(t, u, op.tenant, op.cookie); }
    else if op.Userinfo? { TokenReadsAgree(t, u, op.tenant, "", 0, op.access); }
    else { UserinfoAgrees(t, u, op.tenant, op.subject, op.scopes); }
  }

  /** The two UPDATEs on requests, which do not look at expires. */
  predicate Blind(op: Op) {
    op.OnOidc? && (op.oidc.Complete? || op.oidc.StoreCode?)
  }

  /** The operation is one of them, on a request of its tenant that has expired and is still there. */
  ghost predicate OnStale(t: State, op: Op) {
    Blind(op) && op.oidc.tenant != "" && Stale(t, op.oidc.tenant, op.oidc.id)
  }

  /**
   * Two results of one operation on agreeing databases: similar, and for a blind update equal
   * exactly when the request is stale on both sides or on neither.
   */
  ghost predicate Answered(op: Op, stale: bool, r: Result<Value>, other: bool, s: Result<Value>) {
    if Blind(op) then r == s <==> stale == other else Similar(r, s)
  }

  ghost predicate Follows(op: Op, t: State, r: Reply<Value>, u: State, s: Reply<Value>) {
    Agree(r.state, s.state) && Answered(op, OnStale(t, op), r.result, OnStale(u, op), s.result)
  }

  lemma CompleteFollows(t: State, u: State, tenant: Tenant, id: Id, subject: Subject, authTime: Time, amr: seq<string>)
    requires Agree(t, u)
    ensures
      Oidc.Done(AuthenticateRequest(t, tenant, id, subject, authTime, amr)).result ==
      Oidc.Done(AuthenticateRequest(u, tenant, id, subject, authTime, amr)).result
      <==> Stale(t, tenant, id) == Stale(u, tenant, id)
  {
    OwnersAgree(t, u, tenant, id);
    hide Agree, Stale, OwnsRequest;
  }

  lemma StoreCodeFollows(t: State, u: State, tenant: Tenant, id: Id, code: Secret)
    requires Agree(t, u)
    requires forall j :: j in t.requests ==> t.requests[j].code != Some(Sha256(code))
    requires forall j :: j in u.requests ==> u.requests[j].code != Some(Sha256(code))
    ensures
      Oidc.Done(SaveCode(t, tenant, id, code)).result == Oidc.Done(SaveCode(u, tenant, id, code)).result
      <==> Stale(t, tenant, id) == Stale(u, tenant, id)
  {
    OwnersAgree(t, u, tenant, id);
    hide Agree, Stale, OwnsRequest;
  }

  lemma RequestWritesFollow(c: Config, t: State, u: State, op: Oidc.Op)
    requires Agree(t, u) && op.tenant != "" && (op.Authorize? || op.Complete? || op.StoreCode? || op.DropRequest?)
    requires op.Authorize? ==> op.id !in t.requests && op.id !in u.requests
    requires op.StoreCode? ==> forall j :: j in t.requests ==> t.requests[j].code != Some(Sha256(op.code))
    requires op.StoreCode? ==> forall j :: j in u.requests ==> u.requests[j].code != Some(Sha256(op.code))
    ensures Follows(OnOidc(op), t, Oidc.Step(c, t, op), u, Oidc.Step(c, u, op))
  {
    hide Agree, Stale, Oidc.CreateAuthRequest, AuthenticateRequest, SaveCode, DeleteRequest;
    if op.Authorize? { AuthorizeInStep(c, t, u, op.tenant, op.id, op.client, op.scopes); }
    else if op.Complete? {
      AuthenticateRequestAgrees(t, u, op.tenant, op.id, op.subject, op.authTime, op.amr);
      CompleteFollows(t, u, op.tenant, op.id, op.subject, op.authTime, op.amr);
    } else if op.StoreCode? {
      SaveCodeAgrees(t, u, op.tenant, op.id, op.code);
      StoreCodeFollows(t, u, op.tenant, op.id, op.code);
    } else { DeleteRequestAgrees(t, u, op.tenant, op.id); }
  }

  lemma EndingInStep(c: Config, t: State, u: State, op: Oidc.Op)
    requires Agree(t, u) && Sound(t) && Sound(u) && op.tenant != "" &&
               (op.RevokeById? || op.Terminate? || op.EndSession?)
    ensures InStep(Oidc.Step(c, t, op), Oidc.Step(c, u, op))
  {
    hide Agree, Sound, Oidc.RevokeToken, Oidc.Logout, DeleteGrants;
    if op.RevokeById? { RevokeInStep(t, u, op.tenant, op.id); }
    else if op.Terminate? { DeleteGrantsAgrees(t, u, op.tenant, op.subject, op.client); }
    else { LogoutInStep(t, u, op.tenant, op.cookie, op.client); }
  }

  lemma MintingInStep(c: Config, t: State, u: State, op: Oidc.Op)
    requires Agree(t, u) && Sound(t) && Sound(u) && op.tenant != "" && (op.Exchange? || op.Refresh? || op.Login?)
    requires op.Exchange? || op.Refresh? ==> Unminted(t, op.mints) && Unminted(u, op.mints)
    requires op.Login? ==> NewCookie(t, op.id, op.cookie) && NewCookie(u, op.id, op.cookie)
    ensures InStep(Oidc.Step(c, t, op), Oidc.Step(c, u, op))
  {
    hide Agree, Sound, Unminted, NewCookie, Oidc.ExchangeCode, Oidc.RefreshGrant, Oidc.SignIn;
    if op.Exchange? { ExchangeInStep(c, t, u, op.tenant, op.code, op.offline, op.mints); }
    else if op.Refresh? { RefreshInStep(c, t, u, op.tenant, op.token, op.narrowed, op.mints); }
    else { SignInInStep(c, t, u, AccountKey(op.tenant, op.email), op.password, op.id, op.cookie); }
  }

  lemma OidcFollows(c: Config, t: State, u: State, used: set<Id>, op: Oidc.Op)
    requires Agree(t, u) && Sound(t) && Sound(u) && Known(used, t) && Known(used, u) && Fresh(used, OnOidc(op))
    ensures Follows(OnOidc(op), t, Oidc.Step(c, t, op), u, Oidc.Step(c, u, op))
  {
    Noninterference.FreshPieces(used, t, op);
    Noninterference.FreshPieces(used, u, op);
    if op.tenant == "" {
      Noninterference.NoTenantNoStep(c, t, op);
      Noninterference.NoTenantNoStep(c, u, op);
    }
    hide Agree, Sound, Oidc.Step, Known, Fresh, Unminted;
    if op.tenant != "" {
      if op.Exchange? || op.Refresh? || op.Login? { MintingInStep(c, t, u, op); }
      else if op.RevokeById? || op.Terminate? || op.EndSession? { EndingInStep(c, t, u, op); }
      else if Mutates(op) { RequestWritesFollow(c, t, u, op); }
      else {
        LoadsLeaveState(c, t, op);
        LoadsLeaveState(c, u, op);
        LoadsSimilar(c, t, u, op);
      }
    }
  }

  // ---- every operation, and runs ----

  lemma AccountsInStep(c: Config, t: State, u: State, op: Accounts.Op)
    requires Agree(t, u) && Sound(t) && Sound(u)
    ensures InStep(Accounts.Step(c, t, op), Accounts.Step(c, u, op))
  {
    if Accounts.Credential(op) {
      CredentialInStep(c, t, u, op);
    } else {
      RestIsWith(t, u);
      PlainAccountsCarry(c, t, TablesOf(u), op);
      CarriedInStep(t, u, Accounts.Step(c, t, op), Accounts.Step(c, u, op));
    }
    hide Agree, Valid, Nested, Passes, With, Accounts.Step, InStep;
  }

  lemma ApiKeysInStep(c: Config, t: State, u: State, op: Op)
    requires Agree(t, u) && (op.OnAuthn? || op.OnCodes?)
    ensures InStep(Step(c, t, op), Step(c, u, op))
  {
    RestIsWith(t, u);
    if op.OnAuthn? { AuthnCarries(c, t, TablesOf(u), op.authn); } else { CodesCarry(c, t, TablesOf(u), op.code); }
    CarriedInStep(t, u, Step(c, t, op), Step(c, u, op));
    hide Agree, Passes, With, Authn.Step, LogonCodes.Step, InStep;
  }

  /** What the janitor does to the OIDC tables. */
  predicate OidcSweep(op: Op) {
    op.Janitor? && (op.sweep.ExpiredRequests? || op.sweep.ExpiredTokens? || op.sweep.ExpiredBrowsers?)
  }

  lemma SweepAgrees(t: State, op: Op, c: Config)
    requires OidcSweep(op) && Sound(t)
    ensures Agree(t, Step(c, t, op).state)
  {
    SoundParts(t);
    hide Sound, Anchored, Agree, SweepTokens, SweepRequests, SweepBrowsers;
    if op.sweep.ExpiredTokens? { SweepTokensAgrees(t); }
    else if op.sweep.ExpiredRequests? { SweepRequestsAgrees(t); }
    else { SweepBrowsersAgrees(t); }
  }

  lemma OtherSweepInStep(t: State, u: State, sweep: Sweep)
    requires Agree(t, u) && !(sweep.ExpiredRequests? || sweep.ExpiredTokens? || sweep.ExpiredBrowsers?)
    ensures Agree(Swept(t, sweep), Swept(u, sweep))
  {
  }

  lemma GlobalInStep(c: Config, t: State, u: State, op: Op)
    requires Agree(t, u) && (op.Janitor? || op.Tick? || op.Reload?) && !OidcSweep(op)
    ensures InStep(Step(c, t, op), Step(c, u, op))
  {
    hide Agree, Swept, Accounts.Step, Authn.Step, LogonCodes.Step, Oidc.Step;
    if op.Janitor? { OtherSweepInStep(t, u, op.sweep); }
    else if op.Tick? { AgreeLater(t, u, op.delay); }
    else { AgreeReloaded(t, u, op.ring); }
  }

  lemma AgreeReloaded(t: State, u: State, ring: Keyring)
    requires Agree(t, u)
    ensures Agree(t.(ring := ring), u.(ring := ring))
  {
  }

  lemma StepFollows(c: Config, t: State, u: State, used: set<Id>, op: Op)
    requires Agree(t, u) && Sound(t) && Sound(u) && Known(used, t) && Known(used, u) && Fresh(used, op) &&
               !OidcSweep(op)
    ensures Follows(op, t, Step(c, t, op), u, Step(c, u, op))
  {
    if op.OnAccounts? { AccountsInStep(c, t, u, op.account); }
    else if op.OnAuthn? || op.OnCodes? { ApiKeysInStep(c, t, u, op); }
    else if op.OnOidc? { OidcFollows(c, t, u, used, op.oidc); }
    else { GlobalInStep(c, t, u, op); }
    hide Agree, Sound, Known, Fresh, Authn.Step, LogonCodes.Step, Oidc.Step, Accounts.Step, Swept;
  }

  /** The run with every OIDC sweep left out. */
  function Unswept(ops: seq<Op>): seq<Op> {
    if ops == [] then []
    else if OidcSweep(ops[0]) then Unswept(ops[1..])
    else [ops[0]] + Unswept(ops[1..])
  }

  /** What an operation reported, and whether it was a blind update of a stale request. */
  datatype Answer = Answer(op: Op, result: Result<Value>, stale: bool)

  /** What every operation but the sweeps reports, along a run. */
  ghost function Answers(c: Config, t: State, ops: seq<Op>): seq<Answer>
    decreases |ops|
  {
    if ops == [] then []
    else
      var r := Step(c, t, ops[0]);
      var rest := Answers(c, r.state, ops[1..]);
      if OidcSweep(ops[0]) then rest else [Answer(ops[0], r.result, OnStale(t, ops[0]))] + rest
  }

  ghost predicate Matches(r: Answer, s: Answer) {
    r.op == s.op && Answered(r.op, r.stale, r.result, s.stale, s.result)
  }

  ghost predicate SameAnswers(rs: seq<Answer>, ss: seq<Answer>) {
    |rs| == |ss| && forall i :: 0 <= i < |rs| ==> Matches(rs[i], ss[i])
  }

  lemma AnswersPrepend(r: Answer, s: Answer, rs: seq<Answer>, ss: seq<Answer>)
    requires Matches(r, s) && SameAnswers(rs, ss)
    ensures SameAnswers([r] + rs, [s] + ss)
  {
    hide Matches;
  }

  lemma StepKeepsSound(c: Config, t: State, op: Op)
    requires Sound(t) && c.issuance.accessExpiry <= c.issuance.refreshExpiry
    ensures Sound(Step(c, t, op).state)
  {
    StepKeepsValid(c, t, op);
    hide Valid, Nested, Step;
  }

  lemma SweepKeepsKnown(c: Config, used: set<Id>, t: State, op: Op)
    requires Known(used, t) && OidcSweep(op)
    ensures Known(used, Step(c, t, op).state) && Using(used, op) == used
  {
    assert MintsOf(op) == [];
    Noninterference.StepKeepsKnown(c, used, t, op);
    hide Step, Known;
  }

  /**
   * The OIDC janitor is invisible. Two databases that agree on the unexpired rows keep agreeing,
   * with the sweeps in one run and none in the other, and every operation reports the same; the
   * two expiry-blind UPDATEs report the same exactly when their request is stale in both or in
   * neither.
   */
  lemma {:induction false} SweepsAreInvisible(c: Config, used: set<Id>, t: State, u: State, ops: seq<Op>)
    requires c.issuance.accessExpiry <= c.issuance.refreshExpiry
    requires Agree(t, u) && Sound(t) && Sound(u) && Known(used, t) && Known(used, u) && WellMinted(used, ops)
    ensures Agree(Run(c, t, ops), Run(c, u, Unswept(ops)))
    ensures SameAnswers(Answers(c, t, ops), Answers(c, u, Unswept(ops)))
    decreases |ops|
  {
    hide Agree, Step, Sound, Known, Fresh, OidcSweep, OnStale, Answered, SameAnswers;
    if ops == [] {
      NoAnswers();
    } else {
      var op, rest := ops[0], ops[1..];
      var v := Step(c, t, op);
      StepKeepsSound(c, t, op);
      if OidcSweep(op) {
        SweepAgrees(t, op, c);
        AgreeSymmetric(t, v.state);
        AgreeTransitive(v.state, t, u);
        SweepKeepsKnown(c, used, t, op);
        SweepsAreInvisible(c, used, v.state, u, rest);
      } else {
        var w := Step(c, u, op);
        StepFollows(c, t, u, used, op);
        StepKeepsSound(c, u, op);
        Noninterference.StepKeepsKnown(c, used, t, op);
        Noninterference.StepKeepsKnown(c, used, u, op);
        SweepsAreInvisible(c, Using(used, op), v.state, w.state, rest);
        var kept := Unswept(rest);
        assert ([op] + kept)[1..] == kept;
        AnswersPrepend(Answer(op, v.result, OnStale(t, op)), Answer(op, w.result, OnStale(u, op)),
                       Answers(c, v.state, rest), Answers(c, w.state, kept));
      }
    }
  }

  lemma NoAnswers()
    ensures SameAnswers([], [])
  {
  }

  /** The exact case in which a sweep shows: the request is the tenant's own, and has expired. */
  lemma BlindUpdatesSeeTheSweep(
    t: State, tenant: Tenant, id: Id, subject: Subject, authTime: Time, amr: seq<string>, code: Secret)
    requires forall j :: j in t.requests && j != id ==> t.requests[j].code != Some(Sha256(code))
    ensures
      AuthenticateRequest(t, tenant, id, subject, authTime, amr).result !=
      AuthenticateRequest(SweepRequests(t), tenant, id, subject, authTime, amr).result
      <==> OwnsRequest(t, tenant, id) && t.requests[id].expires < t.now
    ensures
      SaveCode(t, tenant, id, code).result != SaveCode(SweepRequests(t), tenant, id, code).result
      <==> OwnsRequest(t, tenant, id) && t.requests[id].expires < t.now
  {
  }

  /** Authorize, and let the request expire. */
  function AuthorizeAndWait(tenant: Tenant, id: Id, client: ClientId, scopes: seq<string>, wait: nat): seq<Op> {
    [OnOidc(Oidc.Authorize(tenant, id, client, scopes)), Tick(wait)]
  }

  lemma RunTwo(c: Config, t: State, ops: seq<Op>, u: State, v: State)
    requires |ops| == 2 && Step(c, t, ops[0]).state == u && Step(c, u, ops[1]).state == v
    ensures Run(c, t, ops) == v
  {
    hide Step;
    assert ops[1..][0] == ops[1] && ops[1..][1..] == [];
    assert Run(c, u, ops[1..]) == v;
  }

  lemma AuthorizeStores(c: Config, t: State, tenant: Tenant, id: Id, client: ClientId, scopes: seq<string>)
    requires tenant != "" && id !in t.requests
    ensures Step(c, t, OnOidc(Oidc.Authorize(tenant, id, client, scopes))).state ==
            t.(requests := t.requests[id := Oidc.PendingRequest(c, t.now, tenant, client, scopes)])
  {
  }

  /**
   * Any state and any fresh request lead to one where completing the login depends on the janitor:
   * it succeeds on the expired request, and reports it missing once that is swept.
   */
  lemma ExpiredRequestCompletesUntilSwept(
    c: Config, t: State, tenant: Tenant, id: Id, client: ClientId, scopes: seq<string>, wait: nat,
    subject: Subject, authTime: Time, amr: seq<string>)
    requires tenant != "" && id !in t.requests && wait > c.requestExpiry
    ensures
      var u := Run(c, t, AuthorizeAndWait(tenant, id, client, scopes, wait));
      var complete := OnOidc(Oidc.Complete(tenant, id, subject, authTime, amr));
      && ReadRequest(u, tenant, id).Err?
      && Step(c, u, complete).result == Ok(Nothing)
      && Step(c, Step(c, u, Janitor(ExpiredRequests)).state, complete).result == Err(AuthRequestNotFound)
  {
    var ops := AuthorizeAndWait(tenant, id, client, scopes, wait);
    var row := Oidc.PendingRequest(c, t.now, tenant, client, scopes);
    var u := t.(requests := t.requests[id := row]);
    var v := u.(now := u.now + wait);
    AuthorizeStores(c, t, tenant, id, client, scopes);
    assert Step(c, u, ops[1]).state == v;
    RunTwo(c, t, ops, u, v);
    CompletesUntilSwept(c, v, tenant, id, subject, authTime, amr);
    hide Run, Step, Oidc.PendingRequest;
  }

  lemma CompletesUntilSwept(
    c: Config, t: State, tenant: Tenant, id: Id, subject: Subject, authTime: Time, amr: seq<string>)
    requires tenant != "" && OwnsRequest(t, tenant, id) && t.requests[id].expires < t.now
    ensures
      var complete := OnOidc(Oidc.Complete(tenant, id, subject, authTime, amr));
      && ReadRequest(t, tenant, id).Err?
      && Step(c, t, complete).result == Ok(Nothing)
      && Step(c, Step(c, t, Janitor(ExpiredRequests)).state, complete).result == Err(AuthRequestNotFound)
  {
  }
}
