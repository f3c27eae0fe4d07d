/** The api-key surface: what its operations answer, and what a pair that it issued is good for. */
module Pairs {
  import opened Base
  import opened Schema
  import opened Sql
  import opened Tokens
  import opened Values
  import opened Service
  import opened Growth
  import opened Logons
  import Authn
  import LogonCodes

  // ---- tokens, claim by claim ----

  /** The instant in whole seconds. */
  predicate WholeSecond(date: Time, instant: Time) {
    date % 1_000_000 == 0 && date <= instant < date + 1_000_000
  }

  ghost predicate IssuedAs(
    token: Jwt, ring: Keyring, config: Issuance, now: Time, use: Use, lifetime: Time,
    k: AccountKey, client: ClientId, jti: Id)
  {
    && token.use == use && token.kid == ring.kid && token.key == ring.key
    && token.claims.tenant == k.tenant && token.claims.subject == k.email
    && token.claims.client == client && token.claims.jti == jti
    && token.claims.issuer == config.issuer && token.claims.audience == config.audience
    && WholeSecond(token.claims.expires, now + lifetime) && WholeSecond(token.claims.notBefore, now)
  }

  /** Both tokens are signed with the current key, for this account and client, each for its own use and time. */
  ghost predicate PairIssued(c: Config, t: State, k: AccountKey, client: ClientId, a: Id, r: Id, v: Value) {
    && v.Pair?
    && IssuedAs(v.access, t.ring, c.issuance, t.now, AccessUse, c.issuance.accessExpiry, k, client, a)
    && IssuedAs(v.refresh, t.ring, c.issuance, t.now, RefreshUse, c.issuance.refreshExpiry, k, client, r)
  }

  /** Signed with a published key for this use, by this issuer for this audience, begun and not expired. */
  ghost predicate Verifiable(c: Config, t: State, use: Use, token: Jwt) {
    && token.use == use
    && token.kid in t.ring.public && t.ring.public[token.kid] == token.key
    && token.claims.issuer == c.issuance.issuer && token.claims.audience == c.issuance.audience
    && token.claims.notBefore <= t.now && t.now < token.claims.expires
  }

  lemma SignIssues(
    ring: Keyring, config: Issuance, now: Time, use: Use, k: AccountKey, client: ClientId, jti: Id)
    ensures
      var lifetime := if use == AccessUse then config.accessExpiry else config.refreshExpiry;
      IssuedAs(Sign(ring, config, now, use, k.tenant, k.email, client, jti), ring, config, now, use, lifetime, k,
               client, jti)
  {
  }

  lemma IssueIssues(c: Config, t: State, k: AccountKey, client: ClientId, a: Id, r: Id)
    ensures PairIssued(c, t, k, client, a, r, Authn.Issue(c, t, k, client, a, r))
  {
    SignIssues(t.ring, c.issuance, t.now, AccessUse, k, client, a);
    SignIssues(t.ring, c.issuance, t.now, RefreshUse, k, client, r);
    hide IssuedAs, Sign;
  }

  lemma ValidateIff(c: Config, t: State, use: Use, token: Jwt)
    ensures Validate(t.ring, c.issuance, t.now, use, token) ==
            if Verifiable(c, t, use, token) then Ok(token.claims) else Err(TokenInvalid)
  {
  }

  // ---- who is issued a pair ----

  /** A password logon that succeeds answers a pair for its account and client, over the minted jtis. */
  lemma LogonIssues(c: Config, t: State, k: AccountKey, client: ClientId, password: string, a: Id, r: Id)
    requires Step(c, t, OnAuthn(Authn.Logon(k, client, password, a, r))).result.Ok?
    ensures
      var x := Step(c, t, OnAuthn(Authn.Logon(k, client, password, a, r)));
      PairIssued(c, t, k, client, a, r, x.result.value)
  {
    PasswordChecked(c, t, k, password);
    var logon := Authn.VerifyPassword(c, t, k, password);
    IssueIssues(c, logon.state, k, client, a, r);
    hide Authn.VerifyPassword, Authn.Issue, PasswordRefusal, AttemptAfter, WrongPassword;
  }

  /** ... and so does a code logon. */
  lemma CodeLogonIssues(c: Config, t: State, k: AccountKey, client: ClientId, code: string, a: Id, r: Id)
    requires Step(c, t, OnCodes(LogonCodes.CodeLogon(k, client, code, a, r))).result.Ok?
    ensures
      var x := Step(c, t, OnCodes(LogonCodes.CodeLogon(k, client, code, a, r)));
      PairIssued(c, t, k, client, a, r, x.result.value)
  {
    CodeLogonIff(c, t, k, client, code, a, r);
    var x := Step(c, t, OnCodes(LogonCodes.CodeLogon(k, client, code, a, r)));
    assert x.state.now == t.now && x.state.ring == t.ring;
    IssueIssues(c, x.state, k, client, a, r);
    hide LogonCodes.Gate, LogonCodes.Spend, Authn.Issue, Authn.CountFailure, CodeRefusal, AttemptAfter, WrongCode;
  }

  // ---- the operations on a pair ----

  function SessionFor(token: Jwt): SessionKey {
    SessionKey(token.claims.tenant, token.claims.subject, token.claims.client)
  }

  /** The account a token speaks for, as far as an operation is refused on its behalf. */
  ghost function OwnerRefusal(t: State, token: Jwt): Option<Error> {
    var k := AccountKey(token.claims.tenant, token.claims.subject);
    if k !in t.accounts then Some(AccountNotFound)
    else if t.accounts[k].deleted || !t.accounts[k].enabled then Some(AuthenticationFailed)
    else None
  }

  /** The first reason not to acknowledge two tokens. */
  ghost function AckRefusal(c: Config, t: State, tenant: Tenant, access: Jwt, refresh: Jwt): Option<Error> {
    if !Verifiable(c, t, AccessUse, access) || !Verifiable(c, t, RefreshUse, refresh) then Some(TokenInvalid)
    else if access.claims.tenant != tenant || refresh.claims.tenant != tenant then Some(TokenTenantMismatch)
    else if access.claims.client != refresh.claims.client || access.claims.subject != refresh.claims.subject
    then Some(TokenInvalid)
    else None
  }

  /** Acknowledging installs the refresh token's jti and exp as the session of its account and client. */
  lemma AckIff(c: Config, t: State, tenant: Tenant, access: Jwt, refresh: Jwt)
    ensures
      var refusal := AckRefusal(c, t, tenant, access, refresh);
      var row := Session(refresh.claims.jti, refresh.claims.expires);
      Step(c, t, OnAuthn(Authn.Ack(tenant, access, refresh))) ==
      if refusal.Some? then Reply(t, Err(refusal.value))
      else Reply(t.(sessions := t.sessions[SessionFor(refresh) := row]), Ok(Nothing))
  {
    ValidateIff(c, t, AccessUse, access);
    ValidateIff(c, t, RefreshUse, refresh);
    hide Validate, Verifiable;
  }

  ghost function CheckRefusal(c: Config, t: State, tenant: Tenant, access: Jwt): Option<Error> {
    if !Verifiable(c, t, AccessUse, access) then Some(TokenInvalid)
    else if access.claims.tenant != tenant then Some(TokenTenantMismatch)
    else if SessionFor(access) !in t.sessions then Some(TokenNotAcknowledged)
    else OwnerRefusal(t, access)
  }

  /** Validating answers the token's own claims, and changes nothing. */
  lemma CheckIff(c: Config, t: State, tenant: Tenant, access: Jwt)
    ensures
      var refusal := CheckRefusal(c, t, tenant, access);
      Step(c, t, OnAuthn(Authn.Check(tenant, access))) ==
      Reply(t, if refusal.Some? then Err(refusal.value) else Ok(ClaimsOf(access.claims)))
  {
    ValidateIff(c, t, AccessUse, access);
    hide Validate, Verifiable;
  }

  ghost function RenewRefusal(c: Config, t: State, tenant: Tenant, refresh: Jwt): Option<Error> {
    var s := SessionFor(refresh);
    if !Verifiable(c, t, RefreshUse, refresh) then Some(TokenInvalid)
    else if refresh.claims.tenant != tenant then Some(TokenTenantMismatch)
    else if OwnerRefusal(t, refresh).Some? then OwnerRefusal(t, refresh)
    else if s !in t.sessions || t.sessions[s].jti != refresh.claims.jti then Some(TokenNotAcknowledged)
    else None
  }

  /**
   * Renewing succeeds exactly when the token is good, of this tenant, its account live and its jti
   * the session's. It answers a pair for the same account and client, and makes the new refresh
   * token the session's; nothing else changes.
   */
  lemma RenewIff(c: Config, t: State, tenant: Tenant, refresh: Jwt, a: Id, r: Id)
    ensures
      var x := Step(c, t, OnAuthn(Authn.Renewal(tenant, refresh, a, r)));
      var refusal := RenewRefusal(c, t, tenant, refresh);
      var k := AccountKey(refresh.claims.tenant, refresh.claims.subject);
      if refusal.Some? then x == Reply(t, Err(refusal.value))
      else
        && x.result.Ok? && PairIssued(c, t, k, refresh.claims.client, a, r, x.result.value)
        && x.state ==
           t.(sessions := t.sessions[SessionFor(refresh) := Session(r, x.result.value.refresh.claims.expires)])
  {
    ValidateIff(c, t, RefreshUse, refresh);
    IssueIssues(c, t, AccountKey(refresh.claims.tenant, refresh.claims.subject), refresh.claims.client, a, r);
    assert Authn.Issue(c, t, AccountKey(refresh.claims.tenant, refresh.claims.subject), refresh.claims.client, a,
                       r).Pair?;
    hide Validate, Verifiable, Authn.Issue, PairIssued;
  }

  /** Revoking takes one client's session, or every one of the account when no client is named. */
  lemma RevokeIff(c: Config, t: State, k: AccountKey, client: ClientId)
    ensures
      var x := Step(c, t, OnAuthn(Authn.Revocation(k, client)));
      var s := SessionKey(k.tenant, k.email, client);
      && x.result == (if client == "" || s in t.sessions then Ok(Nothing) else Err(SessionNotFound))
      && x.state == t.(sessions := x.state.sessions)
      && (forall i :: i in x.state.sessions <==>
            i in t.sessions && if client == "" then i.tenant != k.tenant || i.email != k.email else i != s)
      && (forall i :: i in x.state.sessions ==> x.state.sessions[i] == t.sessions[i])
  {
  }

  // ---- what a pair is good for ----

  /** The key that signed is still published. */
  ghost predicate Published(t: State, w: State) {
    t.ring.kid in w.ring.public && w.ring.public[t.ring.kid] == t.ring.key
  }

  ghost predicate MayAct(t: State, k: AccountKey) {
    k in t.accounts && !t.accounts[k].deleted && t.accounts[k].enabled
  }

  lemma IssuedIsGood(
    c: Config, t: State, w: State, token: Jwt, use: Use, lifetime: Time, k: AccountKey, client: ClientId, jti: Id)
    requires IssuedAs(token, t.ring, c.issuance, t.now, use, lifetime, k, client, jti) && t.now <= w.now
    ensures Verifiable(c, w, use, token) <==> Published(t, w) && w.now < token.claims.expires
  {
  }

  /** At any later time the pair is acknowledged exactly while its key is published and neither token has expired. */
  lemma IssuedPairAcknowledges(c: Config, t: State, k: AccountKey, client: ClientId, a: Id, r: Id, v: Value, w: State)
    requires PairIssued(c, t, k, client, a, r, v) && t.now <= w.now
    ensures
      var x := Step(c, w, OnAuthn(Authn.Ack(k.tenant, v.access, v.refresh)));
      var s := SessionKey(k.tenant, k.email, client);
      && (x.result.Ok? <==> Published(t, w) && w.now < v.access.claims.expires && w.now < v.refresh.claims.expires)
      && (x.result.Ok? ==> x.state == w.(sessions := w.sessions[s := Session(r, v.refresh.claims.expires)]))
  {
    AckIff(c, w, k.tenant, v.access, v.refresh);
    IssuedIsGood(c, t, w, v.access, AccessUse, c.issuance.accessExpiry, k, client, a);
    IssuedIsGood(c, t, w, v.refresh, RefreshUse, c.issuance.refreshExpiry, k, client, r);
    hide Step, Verifiable, Published, WholeSecond;
  }

  /** The session of the account at the client is at this jti. */
  ghost predicate SessionAt(t: State, k: AccountKey, client: ClientId, jti: Id) {
    var s := SessionKey(k.tenant, k.email, client);
    s in t.sessions && t.sessions[s].jti == jti
  }

  /**
   * While its jti is the session's, the access token validates and the refresh token renews exactly
   * while key, exp and account allow, and no refresh token of another jti renews that session.
   */
  lemma CurrentPairAnswers(
    c: Config, t: State, k: AccountKey, client: ClientId, a: Id, r: Id, v: Value, w: State, other: Jwt, x: Id, y: Id)
    requires PairIssued(c, t, k, client, a, r, v) && t.now <= w.now && SessionAt(w, k, client, r)
    ensures
      Step(c, w, OnAuthn(Authn.Check(k.tenant, v.access))).result.Ok? <==>
      Published(t, w) && w.now < v.access.claims.expires && MayAct(w, k)
    ensures
      Step(c, w, OnAuthn(Authn.Renewal(k.tenant, v.refresh, x, y))).result.Ok? <==>
      Published(t, w) && w.now < v.refresh.claims.expires && MayAct(w, k)
    ensures
      SessionFor(other) == SessionKey(k.tenant, k.email, client) && other.claims.jti != r ==>
        Step(c, w, OnAuthn(Authn.Renewal(k.tenant, other, x, y))).result.Err?
  {
    CheckIff(c, w, k.tenant, v.access);
    RenewIff(c, w, k.tenant, v.refresh, x, y);
    RenewIff(c, w, k.tenant, other, x, y);
    IssuedIsGood(c, t, w, v.access, AccessUse, c.issuance.accessExpiry, k, client, a);
    IssuedIsGood(c, t, w, v.refresh, RefreshUse, c.issuance.refreshExpiry, k, client, r);
    hide Step, Verifiable, Published, WholeSecond;
  }

  /**
   * A renewal hands over: in any later state in which the session is where the renewal put it, the
   * returned tokens answer exactly while key, exp and account allow, for the account and client of
   * the presented token, and the presented one renews nothing.
   */
  lemma {:induction false} RenewalHandsOver(
    c: Config, t: State, tenant: Tenant, refresh: Jwt, a: Id, r: Id, ops: seq<Op>, x: Id, y: Id)
    requires Step(c, t, OnAuthn(Authn.Renewal(tenant, refresh, a, r))).result.Ok? && refresh.claims.jti != r
    ensures
      var renewed := Step(c, t, OnAuthn(Authn.Renewal(tenant, refresh, a, r)));
      var (pair, w) := (renewed.result.value, Run(c, renewed.state, ops));
      var (k, client) := (AccountKey(tenant, refresh.claims.subject), refresh.claims.client);
      && PairIssued(c, t, k, client, a, r, pair) && SessionAt(renewed.state, k, client, r)
      && (SessionAt(w, k, client, r) ==>
            && (Step(c, w, OnAuthn(Authn.Check(tenant, pair.access))).result.Ok? <==>
                Published(t, w) && w.now < pair.access.claims.expires && MayAct(w, k))
            && (Step(c, w, OnAuthn(Authn.Renewal(tenant, pair.refresh, x, y))).result.Ok? <==>
                Published(t, w) && w.now < pair.refresh.claims.expires && MayAct(w, k))
            && Step(c, w, OnAuthn(Authn.Renewal(tenant, refresh, x, y))).result.Err?)
  {
    RenewIff(c, t, tenant, refresh, a, r);
    var renewed := Step(c, t, OnAuthn(Authn.Renewal(tenant, refresh, a, r)));
    var k, client := AccountKey(tenant, refresh.claims.subject), refresh.claims.client;
    var w := Run(c, renewed.state, ops);
    RunGrows(c, renewed.state, ops);
    assert t.now <= w.now;
    hide Step, Run, Grown, PairIssued, Verifiable, OwnerRefusal, Published, MayAct;
    if SessionAt(w, k, client, r) {
      CurrentPairAnswers(c, t, k, client, a, r, renewed.result.value, w, refresh, x, y);
    }
  }

  /**
   * The pair a logon hands out, by password or by code: acknowledged in some later state, it answers
   * from then on exactly while key, exp and account allow, as long as its session is at its jti.
   */
  lemma {:induction false} AcknowledgedPairAnswers(
    c: Config, t: State, k: AccountKey, client: ClientId, a: Id, r: Id, v: Value, ops: seq<Op>, more: seq<Op>,
    x: Id, y: Id)
    requires PairIssued(c, t, k, client, a, r, v)
    requires Step(c, Run(c, t, ops), OnAuthn(Authn.Ack(k.tenant, v.access, v.refresh))).result.Ok?
    ensures
      var acked := Step(c, Run(c, t, ops), OnAuthn(Authn.Ack(k.tenant, v.access, v.refresh)));
      var w := Run(c, acked.state, more);
      && SessionAt(acked.state, k, client, r)
      && (SessionAt(w, k, client, r) ==>
            && (Step(c, w, OnAuthn(Authn.Check(k.tenant, v.access))).result.Ok? <==>
                Published(t, w) && w.now < v.access.claims.expires && MayAct(w, k))
            && (Step(c, w, OnAuthn(Authn.Renewal(k.tenant, v.refresh, x, y))).result.Ok? <==>
                Published(t, w) && w.now < v.refresh.claims.expires && MayAct(w, k)))
  {
    var u := Run(c, t, ops);
    var acked := Step(c, u, OnAuthn(Authn.Ack(k.tenant, v.access, v.refresh)));
    var w := Run(c, acked.state, more);
    hide *;
    TimePasses(c, t, ops);
    IssuedPairAcknowledges(c, t, k, client, a, r, v, u);
    AckedIsAt(u, k, client, Session(r, v.refresh.claims.expires));
    TimePasses(c, acked.state, more);
    if SessionAt(w, k, client, r) { CurrentPairAnswers(c, t, k, client, a, r, v, w, v.refresh, x, y); }
  }

  lemma TimePasses(c: Config, t: State, ops: seq<Op>)
    ensures t.now <= Run(c, t, ops).now
  {
    RunGrows(c, t, ops);
    hide Run;
  }

  lemma AckedIsAt(t: State, k: AccountKey, client: ClientId, row: Session)
    ensures
      SessionAt(t.(sessions := t.sessions[SessionKey(k.tenant, k.email, client) := row]), k, client, row.jti)
  {
  }
}
