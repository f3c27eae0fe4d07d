/** Tenants do not interfere: erasing the others from a run leaves a tenant's rows and answers as they were. */
module Noninterference {
  import opened Base
  import opened Schema
  import opened Sql
  import opened Tokens
  import opened Values
  import opened Service
  import opened Integrity
  import opened Growth
  import opened Tenancy
  import Accounts
  import Authn
  import LogonCodes
  import Oidc

  // ---- composing writes ----

  lemma ShowsNothing(view: Tenant, actor: Tenant, t: State)
    ensures Shows(view, actor, t, t, Project(t, view))
  {
  }

  // ---- the api-key surface ----

  lemma CheckLockoutShows(t: State, view: Tenant, k: AccountKey)
    ensures Isolated(view, k.tenant, t, Authn.CheckLockout(t, k), Authn.CheckLockout(Project(t, view), k))
  {
    if k.tenant == view { ReadsOwnKeys(t, view, k); }
    ClearAttemptsShows(t, view, k);
    hide Project, ClearAttempts, GetAttempt;
  }

  lemma GateLogonShows(t: State, view: Tenant, k: AccountKey)
    ensures Isolated(view, k.tenant, t, Authn.GateLogon(t, k), Authn.GateLogon(Project(t, view), k))
  {
    CheckLockoutShows(t, view, k);
    var gate := Authn.CheckLockout(t, k);
    if k.tenant == view { ReadsOwnKeys(gate.state, view, k); }
    hide Project, Authn.CheckLockout, ReadAccount;
  }

  lemma CountFailureShows(c: Config, t: State, view: Tenant, k: AccountKey)
    ensures Shows(view, k.tenant, t, Authn.CountFailure(c, t, k).0, Authn.CountFailure(c, Project(t, view), k).0)
    ensures k.tenant == view ==> Authn.CountFailure(c, Project(t, view), k).1 == Authn.CountFailure(c, t, k).1
  {
    IncrementAndLockShows(t, view, k, c.maxAttempts, c.lockFor);
    if k.tenant == view { ReadsOwnKeys(t, view, k); }
    var u := IncrementAndLock(t, k, c.maxAttempts, c.lockFor).0;
    assert u.now == t.now && IncrementAndLock(Project(t, view), k, c.maxAttempts, c.lockFor).0.now == t.now;
    hide Project, IncrementAndLock;
  }

  lemma VerifyPasswordShows(c: Config, t: State, view: Tenant, k: AccountKey, password: string)
    ensures Isolated(view, k.tenant, t, Authn.VerifyPassword(c, t, k, password),
                     Authn.VerifyPassword(c, Project(t, view), k, password))
  {
    GateLogonShows(t, view, k);
    var gate := Authn.GateLogon(t, k);
    CountFailureShows(c, gate.state, view, k);
    ClearAttemptsShows(gate.state, view, k);
    hide Project, Authn.GateLogon, Authn.CountFailure, ClearAttempts;
  }

  lemma IssueShows(c: Config, t: State, view: Tenant, k: AccountKey, client: ClientId, a: Id, r: Id)
    ensures Authn.Issue(c, Project(t, view), k, client, a, r) == Authn.Issue(c, t, k, client, a, r)
  {
  }

  lemma LogonShows(c: Config, t: State, view: Tenant, k: AccountKey, client: ClientId, password: string, a: Id, r: Id)
    ensures Isolated(view, k.tenant, t, Authn.Authenticate(c, t, k, client, password, a, r),
                     Authn.Authenticate(c, Project(t, view), k, client, password, a, r))
  {
    VerifyPasswordShows(c, t, view, k, password);
    IssueShows(c, Authn.VerifyPassword(c, t, k, password).state, view, k, client, a, r);
    hide Project, Authn.VerifyPassword, Authn.Issue;
  }

  lemma AckShows(c: Config, t: State, view: Tenant, actor: Tenant, access: Jwt, refresh: Jwt)
    ensures Isolated(view, actor, t, Authn.Acknowledge(c, t, actor, access, refresh),
                     Authn.Acknowledge(c, Project(t, view), actor, access, refresh))
  {
    ShowsNothing(view, actor, t);
    assert Project(t, view).ring == t.ring && Project(t, view).now == t.now;
    UpsertSessionShows(t, view, Authn.SessionOf(refresh.claims), Session(refresh.claims.jti, refresh.claims.expires));
    hide Project, UpsertSession, Verifies;
  }

  lemma LiveAccountShows(t: State, view: Tenant, k: AccountKey)
    requires k.tenant == view
    ensures Authn.LiveAccount(Project(t, view), k) == Authn.LiveAccount(t, k)
    ensures Accounts.ReadLive(Project(t, view), k) == Accounts.ReadLive(t, k)
  {
  }

  lemma ValidateShows(c: Config, t: State, view: Tenant, access: Jwt)
    ensures Authn.ValidateAccess(c, Project(t, view), view, access) == Authn.ValidateAccess(c, t, view, access)
  {
    assert Project(t, view).ring == t.ring && Project(t, view).now == t.now;
    if access.claims.tenant == view {
      LiveAccountShows(t, view, Authn.OwnerOf(access.claims));
      ReadsOwnSession(t, view, Authn.SessionOf(access.claims), 0);
    }
    hide Project, Verifies, Authn.LiveAccount, ReadSession;
  }

  lemma RenewShows(c: Config, t: State, view: Tenant, actor: Tenant, refresh: Jwt, a: Id, r: Id)
    ensures Isolated(view, actor, t, Authn.Renew(c, t, actor, refresh, a, r),
                     Authn.Renew(c, Project(t, view), actor, refresh, a, r))
  {
    var k := Authn.OwnerOf(refresh.claims);
    ShowsNothing(view, actor, t);
    assert Project(t, view).ring == t.ring && Project(t, view).now == t.now;
    if k.tenant == view { LiveAccountShows(t, view, k); }
    IssueShows(c, t, view, k, refresh.claims.client, a, r);
    var next := Session(r, Authn.Issue(c, t, k, refresh.claims.client, a, r).refresh.claims.expires);
    RotateSessionShows(t, view, Authn.SessionOf(refresh.claims), refresh.claims.jti, next);
    hide Project, RotateSession, Verifies, Authn.Issue, Authn.LiveAccount;
  }

  lemma RevokeShows(t: State, view: Tenant, k: AccountKey, client: ClientId)
    ensures Isolated(view, k.tenant, t, Authn.Revoke(t, k, client), Authn.Revoke(Project(t, view), k, client))
  {
    DeleteSessionsShows(t, view, k);
    DeleteSessionShows(t, view, SessionKey(k.tenant, k.email, client));
    hide Project, DeleteSessions, DeleteSession;
  }

  function AuthnActor(op: Authn.Op): Tenant {
    if op.Logon? || op.Revocation? then op.k.tenant else op.tenant
  }

  lemma AuthnShows(c: Config, t: State, view: Tenant, op: Authn.Op)
    ensures Isolated(view, AuthnActor(op), t, Authn.Step(c, t, op), Authn.Step(c, Project(t, view), op))
  {
    hide Project, Authn.Authenticate, Authn.Acknowledge, Authn.ValidateAccess, Authn.Renew, Authn.Revoke;
    if op.Logon? { LogonShows(c, t, view, op.k, op.client, op.password, op.accessJti, op.refreshJti); }
    else if op.Ack? { AckShows(c, t, view, op.tenant, op.access, op.refresh); }
    else if op.Check? { ShowsNothing(view, op.tenant, t); ValidateShows(c, t, view, op.access); }
    else if op.Renewal? { RenewShows(c, t, view, op.tenant, op.refresh, op.accessJti, op.refreshJti); }
    else { RevokeShows(t, view, op.k, op.client); }
  }

  // ---- logon codes ----

  lemma CodeGateShows(t: State, view: Tenant, k: AccountKey, code: string)
    ensures Isolated(view, k.tenant, t, LogonCodes.Gate(t, k, code), LogonCodes.Gate(Project(t, view), k, code))
  {
    CheckLockoutShows(t, view, k);
    if k.tenant == view { ReadsOwnKeys(Authn.CheckLockout(t, k).state, view, k); }
    hide Project, Authn.CheckLockout, ReadAccount, ReadCode, ValidCode;
  }

  lemma SpendCodeShows(t: State, view: Tenant, k: AccountKey, account: Account)
    ensures Shows(view, k.tenant, t, LogonCodes.Spend(t, k, account), LogonCodes.Spend(Project(t, view), k, account))
  {
    DeleteCodeShows(t, view, k);
    ClearAttemptsShows(DeleteCode(t, k), view, k);
    AccountWritesShow(ClearAttempts(DeleteCode(t, k), k), view, k, Sha256(0), Bcrypt(0, ""));
    hide Project, ClearAttempts, DeleteCode, SetVerified, SetVerificationHash, SetPasswordHash, SoftDelete;
  }

  lemma CodeLogonShows(c: Config, t: State, view: Tenant, k: AccountKey, client: ClientId, code: string, a: Id, r: Id)
    ensures Isolated(view, k.tenant, t, LogonCodes.Authenticate(c, t, k, client, code, a, r),
                     LogonCodes.Authenticate(c, Project(t, view), k, client, code, a, r))
  {
    hide Project, LogonCodes.Gate, LogonCodes.Spend, Authn.CountFailure, Authn.Issue, BcryptVerify;
    CodeGateShows(t, view, k, code);
    var gate := LogonCodes.Gate(t, k, code);
    if gate.result.Ok? {
      if BcryptVerify(gate.result.value.1, code) {
        SpendCodeShows(gate.state, view, k, gate.result.value.0);
        IssueShows(c, LogonCodes.Spend(gate.state, k, gate.result.value.0), view, k, client, a, r);
      } else {
        CountFailureShows(c, gate.state, view, k);
      }
    }
  }

  lemma RequestCodeShows(c: Config, t: State, view: Tenant, k: AccountKey, code: string, salt: nat)
    ensures Isolated(view, k.tenant, t, LogonCodes.Request(c, t, k, code, salt),
                     LogonCodes.Request(c, Project(t, view), k, code, salt))
  {
    var p := Project(t, view);
    var row := LogonCode(Bcrypt(salt, code), t.now + c.codeExpiry);
    ShowsNothing(view, k.tenant, t);
    assert p.now == t.now;
    assert k.tenant == view ==> ReadAccount(p, k) == ReadAccount(t, k);
    UpsertCodeShows(t, view, k, row);
    hide Project, UpsertCode, ReadAccount, Shows;
    if k.tenant != view {
      WriteElsewhereShows(view, k.tenant, t, LogonCodes.Request(c, t, k, code, salt),
                          LogonCodes.Request(c, p, k, code, salt),
                          UpsertCode(t, k, row), UpsertCode(p, k, row));
    }
  }

  /** Under another tenant it is enough that the state is the old one or a write that does not show. */
  lemma WriteElsewhereShows<R>(view: Tenant, actor: Tenant, t: State, r: Reply<R>, p: Reply<R>, u: State, q: State)
    requires actor != view && Shows(view, actor, t, u, q) && (r.state == t || r.state == u)
    ensures Isolated(view, actor, t, r, p)
  {
    hide Project;
  }

  lemma CodesShow(c: Config, t: State, view: Tenant, op: LogonCodes.Op)
    ensures Isolated(view, op.k.tenant, t, LogonCodes.Step(c, t, op), LogonCodes.Step(c, Project(t, view), op))
  {
    hide Project, LogonCodes.Request, LogonCodes.Authenticate;
    if op.RequestCode? { RequestCodeShows(c, t, view, op.k, op.code, op.salt); }
    else { CodeLogonShows(c, t, view, op.k, op.client, op.code, op.accessJti, op.refreshJti); }
  }

  // ---- accounts ----

  lemma RegisterShows(t: State, view: Tenant, k: AccountKey, password: string, salt: nat, id: Id, token: Secret)
    requires forall l :: l in t.accounts ==> t.accounts[l].id != id
    ensures Isolated(view, k.tenant, t, Accounts.Register(t, k, password, salt, id, token),
                     Accounts.Register(Project(t, view), k, password, salt, id, token))
  {
    ShowsNothing(view, k.tenant, t);
    InsertAccountShows(t, view, k, Account(id, Bcrypt(salt, password), false, Some(Sha256(token)), true, false));
    hide Project, InsertAccount;
  }

  lemma VerifyShows(t: State, view: Tenant, k: AccountKey, token: Secret)
    ensures Isolated(view, k.tenant, t, Accounts.Verify(t, k, token), Accounts.Verify(Project(t, view), k, token))
  {
    ShowsNothing(view, k.tenant, t);
    if k.tenant == view { LiveAccountShows(t, view, k); }
    AccountWritesShow(t, view, k, Sha256(token), Bcrypt(0, ""));
    hide Project, SetVerified, SetVerificationHash, SetPasswordHash, SoftDelete, Accounts.ReadLive, Authn.LiveAccount;
  }

  lemma ResendShows(t: State, view: Tenant, k: AccountKey, token: Secret)
    ensures Isolated(view, k.tenant, t, Accounts.Resend(t, k, token), Accounts.Resend(Project(t, view), k, token))
  {
    ShowsNothing(view, k.tenant, t);
    if k.tenant == view { LiveAccountShows(t, view, k); }
    AccountWritesShow(t, view, k, Sha256(token), Bcrypt(0, ""));
    hide Project, SetVerified, SetVerificationHash, SetPasswordHash, SoftDelete, Accounts.ReadLive, Authn.LiveAccount;
  }

  lemma ForgotShows(c: Config, t: State, view: Tenant, k: AccountKey, token: Secret)
    ensures Isolated(view, k.tenant, t, Accounts.Forgot(c, t, k, token), Accounts.Forgot(c, Project(t, view), k, token))
  {
    ShowsNothing(view, k.tenant, t);
    assert Project(t, view).now == t.now;
    if k.tenant == view { LiveAccountShows(t, view, k); }
    UpsertResetShows(t, view, k, PasswordReset(Sha256(token), t.now + c.resetExpiry));
    hide Project, UpsertReset, Accounts.ReadLive, Authn.LiveAccount;
  }

  lemma PlainAccountsShow(c: Config, t: State, view: Tenant, op: Accounts.Op)
    requires op.Verification? || op.Resending? || op.Forgetting?
    ensures Isolated(view, op.k.tenant, t, Accounts.Step(c, t, op), Accounts.Step(c, Project(t, view), op))
  {
    if op.Verification? { VerifyShows(t, view, op.k, op.token); }
    else if op.Resending? { ResendShows(t, view, op.k, op.token); }
    else { ForgotShows(c, t, view, op.k, op.token); }
    hide Project, Isolated, Accounts.Verify, Accounts.Resend, Accounts.Forgot;
  }

  lemma ExecShows(t: State, view: Tenant, k: AccountKey, change: Accounts.Change)
    requires Rooted(t.refresh, t.access)
    ensures Isolated(view, k.tenant, t, Accounts.Exec(t, k, change), Accounts.Exec(Project(t, view), k, change))
  {
    if k.tenant == view { ReadsOwnKeys(t, view, k); }
    if change.SetPassword? { AccountWritesShow(t, view, k, Sha256(0), change.hash); }
    else if change.MarkDeleted? { AccountWritesShow(t, view, k, Sha256(0), Bcrypt(0, "")); }
    else if change.DropReset? { DeleteResetShows(t, view, k); }
    else if change.DropSessions? { DeleteSessionsShows(t, view, k); }
    else if change.DropBrowsers? { DeleteBrowsersForEmailShows(t, view, k); }
    else if change.DropRefreshTokens? { DropRefreshOfShows(t, view, k.tenant, SubjectsOf(t, k), None); }
    else if change.DropAccessTokens? { DropAccessOfShows(t, view, k.tenant, SubjectsOf(t, k), None); }
    else if change.DropAuthRequests? { DropRequestsOfShows(t, view, k.tenant, SubjectsOf(t, k)); }
    else { ClearAttemptsShows(t, view, k); }
    hide Project, SetPasswordHash, SoftDelete, DeleteReset, DeleteSessions, DeleteBrowsersForEmail, DropRefreshOf,
         DropAccessOf, DropRequestsOf, ClearAttempts, SetVerified, SetVerificationHash, SubjectsOf;
  }

  lemma {:induction false} RunBodyShows(
    t: State, view: Tenant, k: AccountKey, body: seq<Accounts.Change>, fault: Accounts.Fault, i: nat)
    requires i <= |body| && Valid(t)
    ensures Isolated(view, k.tenant, t, Accounts.RunBody(t, k, body, fault, i),
                     Accounts.RunBody(Project(t, view), k, body, fault, i))
  {
    hide Project, Accounts.Exec, Valid;
    if i > 0 {
      RunBodyShows(t, view, k, body, fault, i - 1);
      RunBodyKeepsValid(t, k, body, fault, i - 1);
      var u := Accounts.RunBody(t, k, body, fault, i - 1).state;
      assert Rooted(u.refresh, u.access) by { ValidRoots(u); }
      ExecShows(u, view, k, body[i - 1]);
    } else {
      ShowsNothing(view, k.tenant, t);
    }
  }

  lemma ValidRoots(t: State)
    requires Valid(t)
    ensures Rooted(t.refresh, t.access)
  {
  }

  lemma TransactionShows(t: State, view: Tenant, k: AccountKey, body: seq<Accounts.Change>, fault: Accounts.Fault)
    requires Valid(t)
    ensures Isolated(view, k.tenant, t, Accounts.WithTransaction(t, k, body, fault),
                     Accounts.WithTransaction(Project(t, view), k, body, fault))
  {
    ShowsNothing(view, k.tenant, t);
    RunBodyShows(t, view, k, body, fault, |body|);
    hide Project, Accounts.RunBody, Valid;
  }

  lemma ChangedShows(view: Tenant, actor: Tenant, t: State, r: Reply<()>, p: Reply<()>)
    requires Isolated(view, actor, t, r, p)
    ensures Isolated(view, actor, t, Accounts.Changed(r), Accounts.Changed(p))
  {
    hide Project;
  }

  /** The checks before the transaction of a credential change; they only read. */
  ghost function Precheck(t: State, op: Accounts.Op): Option<Error>
    requires Accounts.Credential(op)
  {
    var account := Accounts.ReadLive(t, op.k);
    if !op.Deletion? && !ValidPassword(op.password) then Some(InvalidAccount)
    else if account.Err? then Some(account.error)
    else if op.Deletion? then None
    else if op.Updating? then
      if BcryptVerify(account.value.password, op.current) then None else Some(InvalidAccount)
    else
      var hash := ReadReset(t, op.k);
      if hash.Err? then Some(hash.error) else if hash.value != Sha256(op.token) then Some(ResetTokenInvalid) else None
  }

  lemma PrecheckThenTransaction(c: Config, t: State, op: Accounts.Op)
    requires Accounts.Credential(op)
    ensures
      Accounts.Step(c, t, op) ==
      if Precheck(t, op).Some? then Reply(t, Err(Precheck(t, op).value))
      else Accounts.Changed(Accounts.WithTransaction(t, op.k, Accounts.BodyOf(c, op), op.fault))
  {
    hide Accounts.WithTransaction, Accounts.ReadLive, ReadReset, Accounts.Changed, Accounts.ResetBody,
         Accounts.UpdateBody,
         Accounts.DeleteBody, BcryptVerify, ValidPassword;
  }

  lemma PrecheckShows(t: State, view: Tenant, op: Accounts.Op)
    requires Accounts.Credential(op) && op.k.tenant == view
    ensures Precheck(Project(t, view), op) == Precheck(t, op)
  {
    LiveAccountShows(t, view, op.k);
    ReadsOwnKeys(t, view, op.k);
    hide Project, Accounts.ReadLive, ReadReset;
  }

  lemma CredentialShows(c: Config, t: State, view: Tenant, op: Accounts.Op)
    requires Accounts.Credential(op) && Valid(t)
    ensures Isolated(view, op.k.tenant, t, Accounts.Step(c, t, op), Accounts.Step(c, Project(t, view), op))
  {
    var p, body := Project(t, view), Accounts.BodyOf(c, op);
    PrecheckThenTransaction(c, t, op);
    PrecheckThenTransaction(c, p, op);
    if op.k.tenant == view { PrecheckShows(t, view, op); }
    TransactionShows(t, view, op.k, body, op.fault);
    ChangedShows(view, op.k.tenant, t, Accounts.WithTransaction(t, op.k, body, op.fault),
                 Accounts.WithTransaction(p, op.k, body, op.fault));
    ShowsNothing(view, op.k.tenant, t);
    hide Project, Accounts.WithTransaction, Accounts.Step, Precheck, Accounts.BodyOf, Valid, Accounts.Changed;
  }

  lemma AccountsShow(c: Config, t: State, view: Tenant, used: set<Id>, op: Accounts.Op)
    requires Valid(t) && Known(used, t) && Fresh(used, OnAccounts(op))
    ensures Isolated(view, op.k.tenant, t, Accounts.Step(c, t, op), Accounts.Step(c, Project(t, view), op))
  {
    if op.Registration? {
      assert MintsOf(OnAccounts(op))[0] == op.id;
      assert op.id !in used;
      RegisterShows(t, view, op.k, op.password, op.salt, op.id, op.token);
      hide Accounts.Register;
    } else if Accounts.Credential(op) {
      CredentialShows(c, t, view, op);
      hide Accounts.Step;
    } else {
      PlainAccountsShow(c, t, view, op);
      hide Accounts.Step;
    }
    hide Project, Valid;
  }

  // ---- the OIDC surface ----

  lemma CreateAccessShows(c: Config, t: State, view: Tenant, actor: Tenant, r: Oidc.TokenRequest, m: Oidc.Mints)
    requires m.access !in t.access
    ensures Isolated(view, actor, t, Oidc.CreateAccessToken(c, t, actor, r, m),
                     Oidc.CreateAccessToken(c, Project(t, view), actor, r, m))
  {
    ShowsNothing(view, actor, t);
    assert Project(t, view).now == t.now;
    InsertAccessShows(t, view, m.access, Oidc.AccessRow(c, t.now, actor, r, None));
    hide Project, InsertAccess;
  }

  lemma CreatePairShows(c: Config, t: State, view: Tenant, actor: Tenant, r: Oidc.TokenRequest, m: Oidc.Mints)
    requires Unminted(t, m)
    ensures Isolated(view, actor, t, Oidc.CreatePair(c, t, actor, r, m),
                     Oidc.CreatePair(c, Project(t, view), actor, r, m))
  {
    var row := Oidc.RefreshRow(c, t.now, actor, r, m.secret);
    assert Project(t, view).now == t.now;
    InsertRefreshShows(t, view, m.refresh, row);
    InsertedRefresh(t, m.refresh, row);
    var u := InsertRefresh(t, m.refresh, row).state;
    InsertAccessShows(u, view, m.access, Oidc.AccessRow(c, t.now, actor, r, Some(m.refresh)));
    hide Project, InsertRefresh, InsertAccess;
  }

  lemma SpendShows(t: State, view: Tenant, actor: Tenant, r: Oidc.TokenRequest, current: Secret)
    requires Valid(t)
    ensures Isolated(view, actor, t, Oidc.SpendGrant(t, actor, r, current),
                     Oidc.SpendGrant(Project(t, view), actor, r, current))
  {
    ShowsNothing(view, actor, t);
    DeleteRefreshShows(t, view, actor, r.id);
    var read := ReadRefresh(t, actor, current);
    if actor == view { ReadsOwnRefresh(t, view, current); }
    if read.Ok? { DeleteRefreshShows(t, view, actor, read.value.0); }
    hide Project, DeleteRefresh, ReadRefresh;
  }

  lemma SpentStaysUnminted(t: State, u: State, m: Oidc.Mints)
    requires Unminted(t, m) && Grown({}, t, u)
    ensures Unminted(u, m)
  {
  }

  lemma CreationShows(
    c: Config, t: State, view: Tenant, actor: Tenant, r: Oidc.TokenRequest, current: Option<Secret>, m: Oidc.Mints)
    requires Valid(t) && Unminted(t, m)
    ensures Isolated(view, actor, t, Oidc.CreateAccessAndRefreshTokens(c, t, actor, r, current, m),
                     Oidc.CreateAccessAndRefreshTokens(c, Project(t, view), actor, r, current, m))
  {
    var spent := if current.Some? then Oidc.SpendGrant(t, actor, r, current.value) else Reply(t, Ok(()));
    ShowsNothing(view, actor, t);
    if current.Some? {
      SpendShows(t, view, actor, r, current.value);
      SpendGrows(t, actor, r, current.value);
      SpentStaysUnminted(t, spent.state, m);
    }
    CreatePairShows(c, spent.state, view, actor, r, m);
    hide Project, Oidc.SpendGrant, Oidc.CreatePair, Unminted, Valid;
  }

  lemma ExchangeShows(
    c: Config, t: State, view: Tenant, actor: Tenant, code: Secret, offline: bool, m: Oidc.Mints)
    requires Valid(t) && Unminted(t, m)
    ensures Isolated(view, actor, t, Oidc.ExchangeCode(c, t, actor, code, offline, m),
                     Oidc.ExchangeCode(c, Project(t, view), actor, code, offline, m))
  {
    ShowsNothing(view, actor, t);
    if actor == view { ReadsOwnCode(t, view, code); }
    var read := ReadRequestByCode(t, actor, code);
    hide Project, Valid, ReadRequestByCode, Oidc.CreateAccessAndRefreshTokens, Oidc.CreateAccessToken, DeleteRequest;
    if read.Ok? {
      var r := Oidc.ForRequest(read.value.0, read.value.1);
      CreationShows(c, t, view, actor, r, None, m);
      CreateAccessShows(c, t, view, actor, r, m);
      var minted := if offline then Oidc.CreateAccessAndRefreshTokens(c, t, actor, r, None, m)
                    else Oidc.CreateAccessToken(c, t, actor, r, m);
      DeleteRequestShows(minted.state, view, actor, r.id);
    }
  }

  lemma RefreshShows(
    c: Config, t: State, view: Tenant, actor: Tenant, token: Secret, narrowed: Option<seq<string>>, m: Oidc.Mints)
    requires Valid(t) && Unminted(t, m)
    ensures Isolated(view, actor, t, Oidc.RefreshGrant(c, t, actor, token, narrowed, m),
                     Oidc.RefreshGrant(c, Project(t, view), actor, token, narrowed, m))
  {
    ShowsNothing(view, actor, t);
    if actor == view { ReadsOwnRefresh(t, view, token); }
    var read := ReadRefresh(t, actor, token);
    hide Project, Valid, ReadRefresh, Oidc.CreateAccessAndRefreshTokens;
    if read.Ok? {
      var (id, row) := read.value;
      var r := Oidc.ForRenewal(id, if narrowed.Some? then row.(grant := row.grant.(scopes := narrowed.value)) else row);
      CreationShows(c, t, view, actor, r, Some(token), m);
    }
  }

  lemma RevokeTokenShows(t: State, view: Tenant, actor: Tenant, id: Id)
    requires Valid(t)
    ensures Isolated(view, actor, t, Oidc.RevokeToken(t, actor, id), Oidc.RevokeToken(Project(t, view), actor, id))
  {
    if actor == view { ReadsOwnRefreshById(t, view, id); }
    DeleteRefreshShows(t, view, actor, id);
    DeleteAccessShows(t, view, actor, id);
    hide Project, Valid, ReadRefreshById, DeleteRefresh, DeleteAccess;
  }

  lemma DeleteGrantsShows(t: State, view: Tenant, actor: Tenant, subject: Subject, client: ClientId)
    requires Valid(t)
    ensures Shows(view, actor, t, DeleteGrants(t, actor, subject, client),
                  DeleteGrants(Project(t, view), actor, subject, client))
  {
    DropRefreshOfShows(t, view, actor, {subject}, Some(client));
    DropAccessOfShows(DropRefreshOf(t, actor, {subject}, Some(client)), view, actor, {subject}, Some(client));
    hide Project, Valid, DropRefreshOf, DropAccessOf;
  }

  lemma LogoutShows(t: State, view: Tenant, actor: Tenant, cookie: Secret, client: ClientId)
    requires Valid(t)
    ensures Isolated(view, actor, t, Oidc.Logout(t, actor, cookie, client),
                     Oidc.Logout(Project(t, view), actor, cookie, client))
  {
    if actor == view { ReadsOwnBrowser(t, view, cookie); }
    DeleteBrowserShows(t, view, actor, cookie);
    DeleteBrowserKeepsValid(t, actor, cookie);
    var read := ReadBrowser(t, actor, cookie);
    if read.Ok? {
      DeleteGrantsShows(DeleteBrowser(t, actor, cookie).state, view, actor, User(read.value.1.account), client);
    }
    hide Project, Valid, ReadBrowser, DeleteBrowser, DeleteGrants;
  }

  lemma GateReadsAccount(c: Config, t: State, k: AccountKey, password: string)
    requires Authn.VerifyPassword(c, t, k, password).result.Ok?
    ensures
      var r := Authn.VerifyPassword(c, t, k, password);
      && k in r.state.accounts && r.state.accounts[k] == r.result.value
      && r.state.browsers == t.browsers && r.state.now == t.now
  {
    var gate := Authn.GateLogon(t, k);
    assert gate.state.accounts == t.accounts && gate.state.browsers == t.browsers && gate.state.now == t.now;
    assert gate.result.Ok? ==> k in t.accounts && t.accounts[k] == gate.result.value;
    hide Authn.GateLogon, Authn.CountFailure;
  }

  lemma SignInShows(c: Config, t: State, view: Tenant, k: AccountKey, password: string, id: Id, cookie: Secret)
    requires id !in t.browsers && forall j :: j in t.browsers ==> t.browsers[j].hash != Sha256(cookie)
    ensures Isolated(view, k.tenant, t, Oidc.SignIn(c, t, k, password, id, cookie),
                     Oidc.SignIn(c, Project(t, view), k, password, id, cookie))
  {
    VerifyPasswordShows(c, t, view, k, password);
    var logon := Authn.VerifyPassword(c, t, k, password);
    hide Authn.VerifyPassword, InsertBrowser;
    if logon.result.Ok? {
      GateReadsAccount(c, t, k, password);
      assert Project(t, view).now == t.now;
      hide Project;
      var row := BrowserSession(k.tenant, Sha256(cookie), logon.result.value.id, t.now, t.now + c.cookieExpiry);
      InsertBrowserShows(logon.state, view, id, row, k);
    }
    hide Project;
  }

  lemma AuthorizeShows(c: Config, t: State, view: Tenant, actor: Tenant, id: Id, client: ClientId, scopes: seq<string>)
    requires id !in t.requests
    ensures Isolated(view, actor, t, Oidc.CreateAuthRequest(c, t, actor, id, client, scopes),
                     Oidc.CreateAuthRequest(c, Project(t, view), actor, id, client, scopes))
  {
    var p := Project(t, view);
    assert p.now == t.now;
    var row := Oidc.PendingRequest(c, t.now, actor, client, scopes);
    InsertRequestShows(t, view, id, row);
    hide Project, InsertRequest, Oidc.PendingRequest;
  }

  lemma DoneShows(view: Tenant, actor: Tenant, t: State, r: Reply<()>, p: Reply<()>)
    requires Isolated(view, actor, t, r, p)
    ensures Isolated(view, actor, t, Oidc.Done(r), Oidc.Done(p))
  {
    hide Project;
  }

  lemma RequestWritesShow(c: Config, t: State, view: Tenant, op: Oidc.Op)
    requires op.tenant != "" && (op.Authorize? || op.Complete? || op.StoreCode? || op.DropRequest?)
    requires op.Authorize? ==> op.id !in t.requests
    requires op.StoreCode? ==> forall j :: j in t.requests ==> t.requests[j].code != Some(Sha256(op.code))
    ensures Isolated(view, op.tenant, t, Oidc.Step(c, t, op), Oidc.Step(c, Project(t, view), op))
  {
    var p := Project(t, view);
    hide Project, Oidc.CreateAuthRequest, AuthenticateRequest, SaveCode, DeleteRequest, Oidc.Done, Isolated;
    if op.Authorize? {
      AuthorizeShows(c, t, view, op.tenant, op.id, op.client, op.scopes);
    } else if op.Complete? {
      AuthenticateRequestShows(t, view, op.tenant, op.id, op.subject, op.authTime, op.amr);
      DoneShows(view, op.tenant, t, AuthenticateRequest(t, op.tenant, op.id, op.subject, op.authTime, op.amr),
                AuthenticateRequest(p, op.tenant, op.id, op.subject, op.authTime, op.amr));
    } else if op.StoreCode? {
      SaveCodeShows(t, view, op.tenant, op.id, op.code);
      DoneShows(view, op.tenant, t, SaveCode(t, op.tenant, op.id, op.code), SaveCode(p, op.tenant, op.id, op.code));
    } else {
      DropRequestShows(t, view, op.tenant, op.id);
    }
  }

  lemma DropRequestShows(t: State, view: Tenant, actor: Tenant, id: Id)
    ensures Isolated(view, actor, t, Oidc.DeleteAuthRequest(t, actor, id),
                     Oidc.DeleteAuthRequest(Project(t, view), actor, id))
  {
    DeleteRequestShows(t, view, actor, id);
    hide Project, DeleteRequest;
  }

  lemma UserinfoShows(t: State, view: Tenant, subject: Subject, scopes: seq<string>)
    requires UniqueAccountIds(t.accounts)
    ensures Oidc.SetUserinfo(Project(t, view), view, subject, scopes) == Oidc.SetUserinfo(t, view, subject, scopes)
  {
    if subject != Nobody { ReadsOwnAccountById(t, view, subject.id); }
    hide Project, ReadAccountById;
  }

  lemma TokenReadsShow(t: State, view: Tenant, client: ClientId, token: Secret, id: Id)
    requires Valid(t)
    ensures Oidc.GetRefreshTokenInfo(Project(t, view), view, client, token) ==
              Oidc.GetRefreshTokenInfo(t, view, client, token)
    ensures Alike(Oidc.UserinfoFromToken(t, view, id), Oidc.UserinfoFromToken(Project(t, view), view, id))
  {
    ReadsOwnRefresh(t, view, token);
    ReadsOwnAccess(t, view, id);
    var read := ReadAccess(t, view, id);
    if read.Ok? { UserinfoShows(t, view, read.value.1.grant.subject, read.value.1.grant.scopes); }
    hide Project, ReadRefresh, ReadAccess, Oidc.SetUserinfo, Valid;
  }

  lemma LoadsShow(c: Config, t: State, view: Tenant, op: Oidc.Op)
    requires Valid(t) && op.tenant == view && op.tenant != "" && !Mutates(op)
    ensures Alike(Oidc.Step(c, t, op).result, Oidc.Step(c, Project(t, view), op).result)
  {
    hide Project, Valid, ReadRequest, ReadRequestByCode, ReadRefresh, ReadBrowser, Oidc.GetRefreshTokenInfo,
         Oidc.UserinfoFromToken, Oidc.SetUserinfo;
    if op.LoadRequest? { ReadsOwnRequest(t, view, op.id); }
    else if op.LoadByCode? { UniqueParts(t); ReadsOwnCode(t, view, op.code); }
    else if op.LoadGrant? { UniqueParts(t); ReadsOwnRefresh(t, view, op.token); }
    else if op.Inspect? { TokenReadsShow(t, view, op.client, op.token, 0); }
    else if op.LoadCookie? { UniqueParts(t); ReadsOwnBrowser(t, view, op.cookie); }
    else if op.Userinfo? { TokenReadsShow(t, view, "", 0, op.access); }
    else { UniqueParts(t); UserinfoShows(t, view, op.subject, op.scopes); }
  }

  lemma UniqueParts(t: State)
    requires Valid(t)
    ensures UniqueAccountIds(t.accounts) && UniqueCodes(t.requests) && UniqueRefreshHashes(t.refresh) &&
              UniqueCookies(t.browsers)
  {
  }

  lemma FreshPieces(used: set<Id>, t: State, op: Oidc.Op)
    requires Known(used, t) && Fresh(used, OnOidc(op))
    ensures op.Authorize? ==> op.id !in t.requests
    ensures op.StoreCode? ==> forall j :: j in t.requests ==> t.requests[j].code != Some(Sha256(op.code))
    ensures op.Exchange? || op.Refresh? ==> Unminted(t, op.mints)
    ensures op.Login? ==> op.id !in t.browsers && forall j :: j in t.browsers ==>
              t.browsers[j].hash != Sha256(op.cookie)
  {
    var list := MintsOf(OnOidc(op));
    assert forall i :: 0 <= i < |list| ==> list[i] !in used;
    if op.Authorize? { assert list[0] == op.id; }
    else if op.StoreCode? { assert list[0] == op.code; }
    else if op.Exchange? || op.Refresh? {
      assert list[0] == op.mints.refresh && list[1] == op.mints.secret && list[2] == op.mints.access;
    } else if op.Login? { assert list[0] == op.id && list[1] == op.cookie; }
  }

  lemma EndingShows(c: Config, t: State, view: Tenant, op: Oidc.Op)
    requires Valid(t) && op.tenant != "" && (op.RevokeById? || op.Terminate? || op.EndSession?)
    ensures Isolated(view, op.tenant, t, Oidc.Step(c, t, op), Oidc.Step(c, Project(t, view), op))
  {
    hide Project, Valid, Oidc.RevokeToken, Oidc.Logout, DeleteGrants;
    if op.RevokeById? { RevokeTokenShows(t, view, op.tenant, op.id); }
    else if op.Terminate? { DeleteGrantsShows(t, view, op.tenant, op.subject, op.client); }
    else { LogoutShows(t, view, op.tenant, op.cookie, op.client); }
  }

  lemma MintingShows(c: Config, t: State, view: Tenant, op: Oidc.Op)
    requires Valid(t) && op.tenant != "" && (op.Exchange? || op.Refresh? || op.Login?)
    requires op.Exchange? || op.Refresh? ==> Unminted(t, op.mints)
    requires op.Login? ==> op.id !in t.browsers && forall j :: j in t.browsers ==>
               t.browsers[j].hash != Sha256(op.cookie)
    ensures Isolated(view, op.tenant, t, Oidc.Step(c, t, op), Oidc.Step(c, Project(t, view), op))
  {
    hide Project, Valid, Unminted, Oidc.ExchangeCode, Oidc.RefreshGrant, Oidc.SignIn;
    if op.Exchange? { ExchangeShows(c, t, view, op.tenant, op.code, op.offline, op.mints); }
    else if op.Refresh? { RefreshShows(c, t, view, op.tenant, op.token, op.narrowed, op.mints); }
    else { SignInShows(c, t, view, AccountKey(op.tenant, op.email), op.password, op.id, op.cookie); }
  }

  lemma OidcShows(c: Config, t: State, view: Tenant, used: set<Id>, op: Oidc.Op)
    requires Valid(t) && Known(used, t) && Fresh(used, OnOidc(op))
    ensures Isolated(view, op.tenant, t, Oidc.Step(c, t, op), Oidc.Step(c, Project(t, view), op))
  {
    FreshPieces(used, t, op);
    ShowsNothing(view, op.tenant, t);
    if op.tenant == "" { NoTenantNoStep(c, t, op); NoTenantNoStep(c, Project(t, view), op); }
    hide Project, Oidc.Step, Valid, Known, Fresh, Unminted;
    if op.tenant != "" {
      if op.Exchange? || op.Refresh? || op.Login? { MintingShows(c, t, view, op); }
      else if op.RevokeById? || op.Terminate? || op.EndSession? { EndingShows(c, t, view, op); }
      else if Mutates(op) { RequestWritesShow(c, t, view, op); }
      else {
        LoadsLeaveState(c, t, op);
        LoadsLeaveState(c, Project(t, view), op);
        if op.tenant == view { LoadsShow(c, t, view, op); }
      }
    }
  }

  lemma NoTenantNoStep(c: Config, t: State, op: Oidc.Op)
    requires op.tenant == ""
    ensures Oidc.Step(c, t, op) == Reply(t, Err(MissingTenant))
  {
  }

  // ---- operations, and runs ----

  /** The tenant an operation works under; the janitor, the clock and key reloads work under none. */
  function ActorOf(op: Op): Option<Tenant> {
    match op
    case OnAccounts(o) => Some(o.k.tenant)
    case OnAuthn(o) => Some(AuthnActor(o))
    case OnCodes(o) => Some(o.k.tenant)
    case OnOidc(o) => Some(o.tenant)
    case Janitor(_) => None
    case Tick(_) => None
    case Reload(_) => None
  }

  predicate Concerns(op: Op, tenant: Tenant) {
    ActorOf(op) == None || ActorOf(op) == Some(tenant)
  }

  lemma StepShows(c: Config, t: State, view: Tenant, used: set<Id>, op: Op)
    requires Valid(t) && Known(used, t) && Fresh(used, op) && ActorOf(op).Some?
    ensures Isolated(view, ActorOf(op).value, t, Step(c, t, op), Step(c, Project(t, view), op))
  {
    if op.OnAccounts? { AccountsShow(c, t, view, used, op.account); }
    else if op.OnAuthn? { AuthnShows(c, t, view, op.authn); }
    else if op.OnCodes? { CodesShow(c, t, view, op.code); }
    else { OidcShows(c, t, view, used, op.oidc); }
    hide Project, Valid, Known, Accounts.Step, Authn.Step, LogonCodes.Step, Oidc.Step;
  }

  lemma SweepShows(t: State, view: Tenant, sweep: Sweep)
    requires Valid(t)
    ensures Project(Swept(t, sweep), view) == Swept(Project(t, view), sweep)
  {
    hide Project, SweepTokens, SweepAttempts, SweepCodes, SweepResets, SweepSessions, SweepRequests, SweepBrowsers;
    if sweep.ExpiredTokens? { ValidRoots(t); SweepTokensShows(t, view); }
    else if sweep.StaleAttempts? { SweepAttemptsShows(t, view, sweep.olderThan); }
    else if sweep.ExpiredSessions? { SweepSessionsShows(t, view); }
    else if sweep.ExpiredCodes? { SweepCodesShows(t, view); }
    else if sweep.ExpiredResets? { SweepResetsShows(t, view); }
    else if sweep.ExpiredRequests? { SweepRequestsShows(t, view); }
    else { SweepBrowsersShows(t, view); }
  }

  lemma GlobalStepShows(c: Config, t: State, view: Tenant, op: Op)
    requires Valid(t) && ActorOf(op).None?
    ensures Project(Step(c, t, op).state, view) == Step(c, Project(t, view), op).state
    ensures Step(c, t, op).result == Step(c, Project(t, view), op).result
  {
    if op.Janitor? { SweepShows(t, view, op.sweep); hide Project; }
    hide Swept;
  }

  /** The run with every operation of the other tenants erased. */
  function Purge(ops: seq<Op>, tenant: Tenant): seq<Op> {
    if ops == [] then []
    else if Concerns(ops[0], tenant) then [ops[0]] + Purge(ops[1..], tenant)
    else Purge(ops[1..], tenant)
  }

  /** What the operations concerning a tenant report along a run. */
  ghost function Reports(c: Config, t: State, ops: seq<Op>, tenant: Tenant): seq<Result<Value>>
    decreases |ops|
  {
    if ops == [] then []
    else
      var r := Step(c, t, ops[0]);
      var rest := Reports(c, r.state, ops[1..], tenant);
      if Concerns(ops[0], tenant) then [r.result] + rest else rest
  }

  ghost predicate AllAlike(rs: seq<Result<Value>>, ps: seq<Result<Value>>) {
    |rs| == |ps| && forall i :: 0 <= i < |rs| ==> Alike(rs[i], ps[i])
  }

  lemma AlikePrepends(r: Result<Value>, p: Result<Value>, rs: seq<Result<Value>>, ps: seq<Result<Value>>)
    requires Alike(r, p) && AllAlike(rs, ps)
    ensures AllAlike([r] + rs, [p] + ps)
  {
    hide Alike;
  }

  lemma OneStepShows(c: Config, t: State, view: Tenant, used: set<Id>, op: Op)
    requires Valid(t) && Known(used, t) && Fresh(used, op)
    ensures !Concerns(op, view) ==> Project(Step(c, t, op).state, view) == Project(t, view)
    ensures Concerns(op, view) ==> Project(Step(c, t, op).state, view) == Step(c, Project(t, view), op).state
    ensures Concerns(op, view) ==> Alike(Step(c, t, op).result, Step(c, Project(t, view), op).result)
  {
    if ActorOf(op).Some? { StepShows(c, t, view, used, op); } else { GlobalStepShows(c, t, view, op); }
    hide Project, Step, Valid, Known, Fresh;
  }

  lemma StepKeepsKnown(c: Config, used: set<Id>, t: State, op: Op)
    requires Known(used, t)
    ensures Known(Using(used, op), Step(c, t, op).state)
  {
    StepGrows(c, t, op);
    GrownKeepsKnown(used, Using({}, op), t, Step(c, t, op).state);
    assert used + Using({}, op) == Using(used, op);
    hide Step, Known, Grown;
  }

  /**
   * Tenant noninterference. For every run, erasing the operations of all other tenants leaves the
   * tenant's rows exactly as they were, and every result the tenant was given, except that a row
   * of another tenant reported as a mismatch is then reported as not found.
   */
  lemma {:induction false} TenantsDoNotInterfere(c: Config, used: set<Id>, t: State, view: Tenant, ops: seq<Op>)
    requires Valid(t) && Known(used, t) && WellMinted(used, ops)
    ensures Project(Run(c, t, ops), view) == Run(c, Project(t, view), Purge(ops, view))
    ensures AllAlike(Reports(c, t, ops, view), Reports(c, Project(t, view), Purge(ops, view), view))
    decreases |ops|
  {
    hide Project, Step, Valid, Known, Fresh, Concerns, Alike, AllAlike;
    if ops == [] {
      EmptyAlike();
    } else {
      var op, rest := ops[0], ops[1..];
      var r := Step(c, t, op);
      var p := Project(t, view);
      OneStepShows(c, t, view, used, op);
      StepKeepsValid(c, t, op);
      StepKeepsKnown(c, used, t, op);
      TenantsDoNotInterfere(c, Using(used, op), r.state, view, rest);
      if Concerns(op, view) {
        var kept := Purge(rest, view);
        assert Purge(ops, view) == [op] + kept && ([op] + kept)[1..] == kept;
        AlikePrepends(r.result, Step(c, p, op).result, Reports(c, r.state, rest, view),
                      Reports(c, Step(c, p, op).state, kept, view));
      }
    }
  }

  lemma EmptyAlike()
    ensures AllAlike([], [])
  {
  }

  /** Two databases holding the same rows of a tenant, and two runs with the same operations of it, end alike for it. */
  lemma {:induction false} OthersAreUnobservable(
    c: Config, used: set<Id>, t: State, ops: seq<Op>, known: set<Id>, u: State, others: seq<Op>, view: Tenant)
    requires Valid(t) && Known(used, t) && WellMinted(used, ops)
    requires Valid(u) && Known(known, u) && WellMinted(known, others)
    requires Project(t, view) == Project(u, view) && Purge(ops, view) == Purge(others, view)
    ensures Project(Run(c, t, ops), view) == Project(Run(c, u, others), view)
    ensures
      var rs, qs := Reports(c, t, ops, view), Reports(c, u, others, view);
      |rs| == |qs| && forall i :: 0 <= i < |rs| ==> (rs[i].Ok? || qs[i].Ok? ==> rs[i] == qs[i])
  {
    TenantsDoNotInterfere(c, used, t, view, ops);
    TenantsDoNotInterfere(c, known, u, view, others);
    var rs, qs, ps :=
      Reports(c, t, ops, view), Reports(c, u, others, view), Reports(c, Project(t, view), Purge(ops, view), view);
    forall i | 0 <= i < |rs| ensures rs[i].Ok? || qs[i].Ok? ==> rs[i] == qs[i] {
      assert Alike(rs[i], ps[i]) && Alike(qs[i], ps[i]);
    }
    hide Project, Run, Reports, Purge, Valid, Known, WellMinted;
  }
}
