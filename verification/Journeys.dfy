/** Operations in a row: what a user who follows a flow to its end may count on. */
module Journeys {
  import opened Base
  import opened Schema
  import opened Sql
  import opened Values
  import opened Service
  import opened Integrity
  import opened Growth
  import opened Logons
  import opened AccountOutcomes
  import opened RequestOutcomes
  import opened TokenOutcomes
  import Accounts
  import Authn
  import Oidc

  // ---- registering ----

  /**
   * Register, verify, log on: the address is free, the password within bounds and no lock runs.
   * Before verification even the right password is refused; after it, exactly the right one logs on.
   */
  lemma RegisteringLogsOn(
    c: Config, t: State, k: AccountKey, password: string, salt: nat, id: Id, token: Secret,
    guess: string, client: ClientId, a: Id, r: Id)
    requires k !in t.accounts && !IdTaken(t, id) && Acceptable(password) && !LockRuns(t, k)
    ensures
      var registered := Step(c, t, OnAccounts(Accounts.Registration(k, password, salt, id, token)));
      var verified := Step(c, registered.state, OnAccounts(Accounts.Verification(k, token)));
      var logon := OnAuthn(Authn.Logon(k, client, guess, a, r));
      && registered.result == Ok(SecretOf(token)) && verified.result == Ok(Nothing)
      && Step(c, registered.state, logon).result == Err(AccountNotVerified)
      && (Step(c, verified.state, logon).result.Ok? <==> guess == password)
  {
    var register, verify := Accounts.Registration(k, password, salt, id, token), Accounts.Verification(k, token);
    var u := Step(c, t, OnAccounts(register)).state;
    var v := Step(c, u, OnAccounts(verify)).state;
    OutcomeIff(c, t, register);
    AccountFollows(c, t, OnAccounts(register), k);
    OutcomeIff(c, u, verify);
    AccountFollows(c, u, OnAccounts(verify), k);
    PasswordLogonIff(c, u, k, client, guess, a, r);
    PasswordLogonIff(c, v, k, client, guess, a, r);
    assert !LockRuns(u, k) && !LockRuns(v, k);
    hide Step, OnlyAttemptIs, AttemptAfter, WrongPassword, LockRuns, Missed;
  }

  // ---- a forgotten password ----

  /**
   * Forgot, reset, log on, whatever lock was running: within the reset's time exactly the new
   * password logs on, and the token does not reset again.
   */
  lemma ResettingLogsOn(
    c: Config, t: State, k: AccountKey, token: Secret, wait: nat, password: string, salt: nat,
    guess: string, client: ClientId, a: Id, r: Id)
    requires Live(t, k) && t.accounts[k].enabled && t.accounts[k].verified && Acceptable(password)
    requires wait <= c.resetExpiry
    ensures
      var forgot := Step(c, t, OnAccounts(Accounts.Forgetting(k, token)));
      var later := Step(c, forgot.state, Tick(wait)).state;
      var reset := Accounts.Resetting(k, token, password, salt, None);
      var done := Step(c, later, OnAccounts(reset));
      && forgot.result == Ok(SecretOf(token)) && done.result == Ok(Nothing)
      && (Step(c, done.state, OnAuthn(Authn.Logon(k, client, guess, a, r))).result.Ok? <==> guess == password)
      && Step(c, done.state, OnAccounts(reset)).result == Err(ResetTokenInvalid)
  {
    var reset := Accounts.Resetting(k, token, password, salt, None);
    var v := Step(c, Step(c, Step(c, t, OnAccounts(Accounts.Forgetting(k, token))).state, Tick(wait)).state,
                  OnAccounts(reset)).state;
    ForgottenIsReset(c, t, k, token, wait, password, salt);
    PasswordLogonIff(c, v, k, client, guess, a, r);
    OutcomeIff(c, v, reset);
    hide Step, OnlyAttemptIs, AttemptAfter, WrongPassword, Missed;
  }

  lemma ForgottenIsReset(
    c: Config, t: State, k: AccountKey, token: Secret, wait: nat, password: string, salt: nat)
    requires Live(t, k) && Acceptable(password) && wait <= c.resetExpiry
    ensures
      var forgot := Step(c, t, OnAccounts(Accounts.Forgetting(k, token)));
      var later := Step(c, forgot.state, Tick(wait)).state;
      var done := Step(c, later, OnAccounts(Accounts.Resetting(k, token, password, salt, None)));
      && forgot.result == Ok(SecretOf(token)) && done.result == Ok(Nothing)
      && k in done.state.accounts
      && done.state.accounts[k] == t.accounts[k].(password := Bcrypt(salt, password))
      && k !in done.state.resets && k !in done.state.attempts
  {
    var reset := Accounts.Resetting(k, token, password, salt, None);
    var later := Step(c, Step(c, t, OnAccounts(Accounts.Forgetting(k, token))).state, Tick(wait)).state;
    ForgottenWaits(c, t, k, token, wait);
    OutcomeIff(c, later, reset);
    AccountFollows(c, later, OnAccounts(reset), k);
    ResetLeaves(c, later, reset);
    hide Step;
  }

  lemma ForgottenWaits(c: Config, t: State, k: AccountKey, token: Secret, wait: nat)
    requires Live(t, k)
    ensures
      var forgot := Step(c, t, OnAccounts(Accounts.Forgetting(k, token)));
      var later := Step(c, forgot.state, Tick(wait)).state;
      && forgot.result == Ok(SecretOf(token)) && later.now == t.now + wait
      && k in later.accounts && later.accounts[k] == t.accounts[k]
      && k in later.resets && later.resets[k] == PasswordReset(Sha256(token), t.now + c.resetExpiry)
  {
    var u := Step(c, t, OnAccounts(Accounts.Forgetting(k, token))).state;
    OutcomeIff(c, t, Accounts.Forgetting(k, token));
    AccountFollows(c, t, OnAccounts(Accounts.Forgetting(k, token)), k);
    assert Step(c, u, Tick(wait)).state == u.(now := u.now + wait);
    hide Step;
  }

  lemma ResetLeaves(c: Config, t: State, op: Accounts.Op)
    requires op.Resetting? && Step(c, t, OnAccounts(op)).result.Ok?
    ensures
      var u := Step(c, t, OnAccounts(op)).state;
      op.k !in u.resets && op.k !in u.attempts && u.now == t.now
  {
    assert Step(c, t, OnAccounts(op)) == Accounts.Step(c, t, op);
    Accounts.CredentialChangeIsAllOrNothing(c, t, op);
    hide Step, Accounts.Step, Accounts.OidcConfined, Accounts.Revoked;
  }

  // ---- signing in at a client ----

  /** The minted values are new to the tables. */
  ghost predicate NewHere(t: State, id: Id, code: Secret, m: Oidc.Mints) {
    && id !in t.requests && (forall i :: i in t.requests ==> t.requests[i].code != Some(Sha256(code)))
    && Unminted(t, m)
  }

  /** The request as it stands when its code is exchanged. */
  function Completed(
    tenant: Tenant, client: ClientId, scopes: seq<string>, subject: Subject, authTime: Time, amr: seq<string>,
    code: Secret, expires: Time): AuthRequest
  {
    AuthRequest(tenant, client, subject, scopes, amr, authTime, true, Some(Sha256(code)), expires)
  }

  lemma CompletedIsStored(
    c: Config, t: State, tenant: Tenant, id: Id, client: ClientId, scopes: seq<string>, subject: Subject,
    authTime: Time, amr: seq<string>, code: Secret)
    requires tenant != "" && id !in t.requests
    requires forall i :: i in t.requests ==> t.requests[i].code != Some(Sha256(code))
    ensures
      var u := Step(c, t, OnOidc(Oidc.Authorize(tenant, id, client, scopes))).state;
      var v := Step(c, u, OnOidc(Oidc.Complete(tenant, id, subject, authTime, amr))).state;
      var w := Step(c, v, OnOidc(Oidc.StoreCode(tenant, id, code))).state;
      var row := Completed(tenant, client, scopes, subject, authTime, amr, code, t.now + c.requestExpiry);
      w == t.(requests := t.requests[id := row])
  {
    var u := Step(c, t, OnOidc(Oidc.Authorize(tenant, id, client, scopes))).state;
    var v := Step(c, u, OnOidc(Oidc.Complete(tenant, id, subject, authTime, amr))).state;
    var asked := AuthRequest(tenant, client, Nobody, scopes, [], 0, false, None, t.now + c.requestExpiry);
    var done := AuthRequest(tenant, client, subject, scopes, amr, authTime, true, None, t.now + c.requestExpiry);
    var row := Completed(tenant, client, scopes, subject, authTime, amr, code, t.now + c.requestExpiry);
    AuthorizeIff(c, t, tenant, id, client, scopes);
    assert u == WithRequest(t, id, asked);
    CompleteIff(c, u, tenant, id, subject, authTime, amr);
    PutAgain(t, id, asked, done);
    assert v == WithRequest(t, id, done);
    StoreCodeIff(c, v, tenant, id, code);
    PutAgain(t, id, done, row);
    OthersHaveNot(t, id, done, code);
    hide Step, HasCode;
  }

  ghost function WithRequest(t: State, id: Id, row: AuthRequest): State {
    t.(requests := t.requests[id := row])
  }

  lemma PutAgain(t: State, id: Id, first: AuthRequest, row: AuthRequest)
    ensures WithRequest(WithRequest(t, id, first), id, row) == WithRequest(t, id, row)
  {
    assert t.requests[id := first][id := row] == t.requests[id := row];
  }

  lemma OthersHaveNot(t: State, id: Id, row: AuthRequest, code: Secret)
    requires forall i :: i in t.requests ==> t.requests[i].code != Some(Sha256(code))
    ensures !exists j :: j != id && HasCode(WithRequest(t, id, row), j, code)
  {
  }

  /**
   * Authorize, complete, store the code, exchange it and ask for userinfo: the claims are those of
   * the account that logged in, under the scopes that were asked for at the start.
   */
  lemma SigningInTellsTheClaims(
    c: Config, t: State, k: AccountKey, id: Id, client: ClientId, scopes: seq<string>, authTime: Time,
    amr: seq<string>, code: Secret, offline: bool, m: Oidc.Mints)
    requires k.tenant != "" && Constrained(t) && k in t.accounts && NewHere(t, id, code, m)
    requires c.requestExpiry >= 0 && c.issuance.accessExpiry >= 0
    ensures
      var u := Step(c, t, OnOidc(Oidc.Authorize(k.tenant, id, client, scopes))).state;
      var v := Step(c, u, OnOidc(Oidc.Complete(k.tenant, id, User(t.accounts[k].id), authTime, amr))).state;
      var w := Step(c, v, OnOidc(Oidc.StoreCode(k.tenant, id, code))).state;
      var x := Step(c, w, OnOidc(Oidc.Exchange(k.tenant, code, offline, m)));
      && x.result.Ok?
      && Step(c, x.state, OnOidc(Oidc.Userinfo(k.tenant, m.access))).result == ClaimsUnder(t, k, scopes)
  {
    var subject := User(t.accounts[k].id);
    var row := Completed(k.tenant, client, scopes, subject, authTime, amr, code, t.now + c.requestExpiry);
    CompletedIsStored(c, t, k.tenant, id, client, scopes, subject, authTime, amr, code);
    StoredKeepsUnique(t, id, row, code);
    hide *;
    ExchangedTells(c, WithRequest(t, id, row), k, id, code, offline, m);
    ClaimsDependOnAccounts(t, id, row, k, scopes);
  }

  lemma StoredKeepsUnique(t: State, id: Id, row: AuthRequest, code: Secret)
    requires Constrained(t) && id !in t.requests && row.code == Some(Sha256(code))
    requires forall i :: i in t.requests ==> t.requests[i].code != Some(Sha256(code))
    ensures Constrained(WithRequest(t, id, row))
  {
  }

  lemma ClaimsDependOnAccounts(t: State, id: Id, row: AuthRequest, k: AccountKey, scopes: seq<string>)
    requires k in t.accounts
    ensures k in WithRequest(t, id, row).accounts
    ensures ClaimsUnder(WithRequest(t, id, row), k, scopes) == ClaimsUnder(t, k, scopes)
  {
  }

  /**
   * Exchanging a code that is in time tells the claims of the account that logged in, under the scopes
   * of its request.
   */
  lemma ExchangedTells(c: Config, t: State, k: AccountKey, id: Id, code: Secret, offline: bool, m: Oidc.Mints)
    requires k.tenant != "" && Constrained(t) && k in t.accounts && Unminted(t, m) && c.issuance.accessExpiry >= 0
    requires HasCode(t, id, code) && RowRefusal(t, k.tenant, t.requests[id]).None?
    requires t.requests[id].subject == User(t.accounts[k].id)
    ensures
      var x := Step(c, t, OnOidc(Oidc.Exchange(k.tenant, code, offline, m)));
      && x.result.Ok?
      && Step(c, x.state, OnOidc(Oidc.Userinfo(k.tenant, m.access))).result == ClaimsUnder(t, k, t.requests[id].scopes)
  {
    var x := Step(c, t, OnOidc(Oidc.Exchange(k.tenant, code, offline, m)));
    ExchangeMints(c, t, k.tenant, code, offline, m, id);
    UserinfoIff(c, x.state, k.tenant, m.access, k);
    hide Step, UniqueCodes, UniqueRefreshHashes, UniqueCookies, Unminted;
  }

  /** A refresh goes on with the claims of the same account, under the scopes it keeps; the old tokens tell nothing. */
  lemma RefreshingKeepsTheClaims(
    c: Config, t: State, k: AccountKey, token: Secret, narrowed: Option<seq<string>>, m: Oidc.Mints, i: Id, spent: Id)
    requires k.tenant != "" && Constrained(t) && k in t.accounts && HasToken(t, i, token) && Unminted(t, m)
    requires t.refresh[i].tenant == k.tenant && t.refresh[i].grant.subject == User(t.accounts[k].id)
    requires t.now <= t.refresh[i].expires && c.issuance.accessExpiry >= 0
    requires spent in t.access && t.access[spent].parent == Some(i) && m.secret != token
    ensures
      var x := Step(c, t, OnOidc(Oidc.Refresh(k.tenant, token, narrowed, m)));
      && x.result.Ok?
      && Step(c, x.state, OnOidc(Oidc.Userinfo(k.tenant, m.access))).result ==
         ClaimsUnder(t, k, if narrowed.Some? then narrowed.value else t.refresh[i].grant.scopes)
      && Step(c, x.state, OnOidc(Oidc.Userinfo(k.tenant, spent))).result == Err(TokenNotFound)
      && Step(c, x.state, OnOidc(Oidc.LoadGrant(k.tenant, token))).result == Err(TokenNotFound)
  {
    var x := Step(c, t, OnOidc(Oidc.Refresh(k.tenant, token, narrowed, m)));
    RefreshMints(c, t, k.tenant, token, narrowed, m, i);
    UserinfoIff(c, x.state, k.tenant, m.access, k);
    assert spent !in x.state.access;
    UserinfoIff(c, x.state, k.tenant, spent, k);
    assert forall j :: j in t.refresh && j != i ==> t.refresh[j].hash != Sha256(token);
    assert forall j :: !HasToken(x.state, j, token);
    assert UniqueRefreshHashes(x.state.refresh);
    LoadGrantIff(c, x.state, k.tenant, token);
    hide Step, UniqueCodes, UniqueCookies;
  }
}
