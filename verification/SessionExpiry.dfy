/** A session row expires exactly when the refresh token it holds does, so the sweep is invisible to Renew. */
module SessionExpiry {
  import opened Base
  import opened Schema
  import opened Sql
  import opened Tokens
  import opened Values
  import opened Service
  import opened Integrity
  import opened Frames
  import opened Sessions
  import Accounts
  import Authn
  import LogonCodes
  import Oidc

  // ---- the tokens the service has signed ----

  /** The signature checks out under a published key. */
  predicate Signed(ring: Keyring, token: Jwt) {
    token.kid in ring.public && token.key == ring.public[token.kid]
  }

  function PairOf(r: Result<Value>): set<Jwt> {
    if r.Ok? && r.value.Pair? then {r.value.access, r.value.refresh} else {}
  }

  function Presented(op: Op): set<Jwt> {
    match op
    case OnAuthn(Ack(_, access, refresh)) => {access, refresh}
    case OnAuthn(Check(_, access)) => {access}
    case OnAuthn(Renewal(_, refresh, _, _)) => {refresh}
    case _ => {}
  }

  /** Nobody but the service signs: a presented token that verifies was issued. */
  ghost predicate Unforged(issued: set<Jwt>, t: State, op: Op) {
    forall token :: token in Presented(op) && Signed(t.ring, token) ==> token in issued
  }

  ghost predicate UnforgedRun(c: Config, issued: set<Jwt>, t: State, ops: seq<Op>)
    decreases |ops|
  {
    ops == [] ||
    (Unforged(issued, t, ops[0]) &&
     UnforgedRun(c, issued + PairOf(Step(c, t, ops[0]).result), Step(c, t, ops[0]).state, ops[1..]))
  }

  ghost function Issued(c: Config, issued: set<Jwt>, t: State, ops: seq<Op>): set<Jwt>
    decreases |ops|
  {
    if ops == [] then issued
    else Issued(c, issued + PairOf(Step(c, t, ops[0]).result), Step(c, t, ops[0]).state, ops[1..])
  }

  // ---- the invariant ----

  /** This refresh token is the one the row holds: same jti, same exp, same tenant, subject and client. */
  predicate Backs(token: Jwt, s: SessionKey, row: Session) {
    token.use == RefreshUse && Authn.SessionOf(token.claims) == s && token.claims.jti == row.jti &&
      token.claims.expires == row.expires
  }

  ghost predicate Backed(issued: set<Jwt>, sessions: map<SessionKey, Session>) {
    forall s :: s in sessions ==> exists token :: token in issued && Backs(token, s, sessions[s])
  }

  /** A jti names one refresh token. */
  ghost predicate JtisUnique(issued: set<Jwt>, used: set<Id>) {
    && (forall token :: token in issued ==> token.claims.jti in used)
    && (forall p, q :: p in issued && q in issued && p.use == RefreshUse && q.use == RefreshUse ==>
          p.claims.jti == q.claims.jti ==> p == q)
  }

  ghost predicate Subtable(n: map<SessionKey, Session>, m: map<SessionKey, Session>) {
    forall s :: s in n ==> s in m && n[s] == m[s]
  }

  lemma BackedWidens(issued: set<Jwt>, more: set<Jwt>, m: map<SessionKey, Session>, n: map<SessionKey, Session>)
    requires Backed(issued, m) && issued <= more && Subtable(n, m)
    ensures Backed(more, n)
  {
    forall s | s in n ensures exists token :: token in more && Backs(token, s, n[s]) {
      var token :| token in issued && Backs(token, s, m[s]);
      assert token in more;
    }
  }

  lemma BackedInstall(issued: set<Jwt>, m: map<SessionKey, Session>, s: SessionKey, row: Session, token: Jwt)
    requires Backed(issued, m) && token in issued && Backs(token, s, row)
    ensures Backed(issued, m[s := row])
  {
    var n := m[s := row];
    forall k | k in n ensures exists p :: p in issued && Backs(p, k, n[k]) {
      if k != s { assert k in m; }
    }
  }

  /** Only the session operations add a row, and what they add is the row of an issued token. */
  lemma AckKeepsBacked(c: Config, issued: set<Jwt>, t: State, op: Op)
    requires op.OnAuthn? && op.authn.Ack? && Backed(issued, t.sessions) && Unforged(issued, t, op)
    ensures Backed(issued, Step(c, t, op).state.sessions)
  {
    var (token, o) := (op.authn.refresh, op.authn);
    if Authn.Step(c, t, o).result.Ok? {
      assert token in Presented(op);
      BackedInstall(issued, t.sessions, Authn.SessionOf(token.claims), Session(token.claims.jti, token.claims.expires),
                    token);
    }
    hide Backed;
  }

  lemma RenewalKeepsBacked(c: Config, issued: set<Jwt>, t: State, op: Op)
    requires op.OnAuthn? && op.authn.Renewal? && Backed(issued, t.sessions)
    ensures Backed(issued + PairOf(Step(c, t, op).result), Step(c, t, op).state.sessions)
  {
    var o := op.authn;
    var r := Authn.Step(c, t, o);
    var more := issued + PairOf(r.result);
    BackedWidens(issued, more, t.sessions, t.sessions);
    hide Backed, Authn.LiveAccount, Tokens.Verifies;
    if r.result.Ok? {
      var next := r.result.value.refresh;
      BackedInstall(more, t.sessions, Authn.SessionOf(o.refresh.claims), Session(next.claims.jti, next.claims.expires),
                    next);
    }
  }

  lemma RemovalsKeepBacked(c: Config, issued: set<Jwt>, t: State, op: Op)
    requires Backed(issued, t.sessions)
    requires !(op.OnAuthn? && (op.authn.Ack? || op.authn.Renewal?))
    ensures Backed(issued, Step(c, t, op).state.sessions)
  {
    var u := Step(c, t, op).state;
    if !TouchesSessions(op) {
      StepFrame(c, t, op);
    } else if op.OnAccounts? {
      CredentialShrinksSessions(c, t, op.account);
      BackedWidens(issued, issued, t.sessions, u.sessions);
    } else {
      RevocationShrinksSessions(c, t, op);
      BackedWidens(issued, issued, t.sessions, u.sessions);
    }
    hide Step, Backed;
  }

  lemma DeleteShrinksSessions(t: State, k: AccountKey, s: SessionKey)
    ensures Subtable(DeleteSession(t, s).state.sessions, t.sessions)
    ensures Subtable(SweepSessions(t).sessions, t.sessions)
  {
  }

  lemma DeleteAllShrinksSessions(t: State, k: AccountKey)
    ensures Subtable(DeleteSessions(t, k).sessions, t.sessions)
  {
  }

  lemma DeletesShrinkSessions(t: State, k: AccountKey, s: SessionKey)
    ensures Subtable(DeleteSessions(t, k).sessions, t.sessions)
    ensures Subtable(DeleteSession(t, s).state.sessions, t.sessions)
    ensures Subtable(SweepSessions(t).sessions, t.sessions)
  {
    DeleteShrinksSessions(t, k, s);
    DeleteAllShrinksSessions(t, k);
    hide DeleteSessions, DeleteSession, SweepSessions, Subtable;
  }

  lemma RevocationShrinksSessions(c: Config, t: State, op: Op)
    requires op == Janitor(ExpiredSessions) || (op.OnAuthn? && op.authn.Revocation?)
    ensures Subtable(Step(c, t, op).state.sessions, t.sessions)
  {
    if op.OnAuthn? {
      DeletesShrinkSessions(t, op.authn.k, SessionKey(op.authn.k.tenant, op.authn.k.email, op.authn.client));
    } else {
      DeletesShrinkSessions(t, AccountKey("", ""), SessionKey("", "", ""));
    }
    hide DeleteSessions, DeleteSession, SweepSessions, Subtable;
  }

  lemma CredentialShrinksSessions(c: Config, t: State, op: Accounts.Op)
    requires Accounts.Credential(op)
    ensures Subtable(Accounts.Step(c, t, op).state.sessions, t.sessions)
  {
    Accounts.CredentialChangeIsAllOrNothing(c, t, op);
    hide Accounts.Step, Accounts.OidcConfined;
  }

  lemma StepKeepsBacked(c: Config, issued: set<Jwt>, t: State, op: Op)
    requires Backed(issued, t.sessions) && Unforged(issued, t, op)
    ensures Backed(issued + PairOf(Step(c, t, op).result), Step(c, t, op).state.sessions)
  {
    var u := Step(c, t, op).state;
    if op.OnAuthn? && op.authn.Renewal? {
      RenewalKeepsBacked(c, issued, t, op);
    } else {
      if op.OnAuthn? && op.authn.Ack? {
        AckKeepsBacked(c, issued, t, op);
      } else {
        RemovalsKeepBacked(c, issued, t, op);
      }
      BackedWidens(issued, issued + PairOf(Step(c, t, op).result), u.sessions, u.sessions);
    }
    hide Step, Backed, Unforged;
  }

  /** A pair is signed over the operation's own two jtis. */
  predicate PairMintedBy(v: Value, jtis: seq<Id>) {
    v.Pair? ==>
      |jtis| == 2 && v.access.use == AccessUse && v.refresh.use == RefreshUse &&
      v.access.claims.jti == jtis[0] && v.refresh.claims.jti == jtis[1]
  }

  lemma StepMintsPair(c: Config, t: State, op: Op)
    ensures Step(c, t, op).result.Ok? ==> PairMintedBy(Step(c, t, op).result.value, MintsOf(op))
  {
    if op.OnAuthn? { AuthnMintsPair(c, t, op); hide Step; }
    else if op.OnCodes? { CodesMintPair(c, t, op); hide Step; }
    else if op.OnAccounts? { AccountsMintNoPair(c, t, op.account); hide Accounts.Step; }
    else if op.OnOidc? { OidcMintsNoPair(c, t, op.oidc); hide Oidc.Step; }
    hide Swept;
  }

  lemma AuthnMintsPair(c: Config, t: State, op: Op)
    requires op.OnAuthn?
    ensures Step(c, t, op).result.Ok? ==> PairMintedBy(Step(c, t, op).result.value, MintsOf(op))
  {
    hide Authn.VerifyPassword, Authn.LiveAccount, Tokens.Validate;
  }

  lemma CodesMintPair(c: Config, t: State, op: Op)
    requires op.OnCodes?
    ensures Step(c, t, op).result.Ok? ==> PairMintedBy(Step(c, t, op).result.value, MintsOf(op))
  {
    hide LogonCodes.Gate, LogonCodes.Spend;
  }

  lemma AccountsMintNoPair(c: Config, t: State, op: Accounts.Op)
    ensures Accounts.Step(c, t, op).result.Ok? ==> !Accounts.Step(c, t, op).result.value.Pair?
  {
    hide Accounts.WithTransaction;
  }

  lemma OidcMintsNoPair(c: Config, t: State, op: Oidc.Op)
    ensures Oidc.Step(c, t, op).result.Ok? ==> !Oidc.Step(c, t, op).result.value.Pair?
  {
    hide Authn.VerifyPassword, ReadRequest, ReadRequestByCode, ReadRefresh, ReadBrowser, ReadRefreshById, DeleteGrants,
         InsertRefresh, InsertAccess, InsertRequest, InsertBrowser, SaveCode, AuthenticateRequest, DeleteRequest,
         Oidc.SpendGrant;
  }

  lemma StepKeepsJtisUnique(c: Config, issued: set<Jwt>, used: set<Id>, t: State, op: Op)
    requires JtisUnique(issued, used) && Fresh(used, op)
    ensures JtisUnique(issued + PairOf(Step(c, t, op).result), Using(used, op))
  {
    var r := Step(c, t, op).result;
    StepMintsPair(c, t, op);
    hide Step;
    if r.Ok? && r.value.Pair? {
      var jtis := MintsOf(op);
      assert jtis[0] in jtis && jtis[1] in jtis;
    }
  }

  lemma {:induction false} RunKeepsBacked(c: Config, issued: set<Jwt>, used: set<Id>, t: State, ops: seq<Op>)
    requires Backed(issued, t.sessions) && JtisUnique(issued, used)
    requires UnforgedRun(c, issued, t, ops) && WellMinted(used, ops)
    ensures Backed(Issued(c, issued, t, ops), Run(c, t, ops).sessions)
    ensures JtisUnique(Issued(c, issued, t, ops), UsedBy(used, ops))
    decreases |ops|
  {
    hide Step, Backed, JtisUnique, Unforged, Fresh;
    if ops != [] {
      StepKeepsBacked(c, issued, t, ops[0]);
      StepKeepsJtisUnique(c, issued, used, t, ops[0]);
      RunKeepsBacked(c, issued + PairOf(Step(c, t, ops[0]).result), Using(used, ops[0]), Step(c, t, ops[0]).state,
                     ops[1..]);
    }
  }

  // ---- the sweep ----

  /** A token that renews holds a row no sweep removes. */
  lemma RenewableRowIsUnexpired(c: Config, issued: set<Jwt>, used: set<Id>, t: State, token: Jwt)
    requires Backed(issued, t.sessions) && JtisUnique(issued, used)
    requires Signed(t.ring, token) ==> token in issued
    requires Verifies(t.ring, c.issuance, t.now, RefreshUse, token)
    requires Holds(t, Authn.SessionOf(token.claims), token.claims.jti)
    ensures t.sessions[Authn.SessionOf(token.claims)].expires == token.claims.expires > t.now
  {
    var s := Authn.SessionOf(token.claims);
    var behind :| behind in issued && Backs(behind, s, t.sessions[s]);
    assert behind == token;
  }

  lemma SweepSessionsOnly(t: State)
    ensures SweepSessions(t) == t.(sessions := SweepSessions(t).sessions)
    ensures SweepSessions(SweepSessions(t)) == SweepSessions(t)
  {
    assert SweepSessions(SweepSessions(t)).sessions == SweepSessions(t).sessions;
  }

  lemma SweepLeavesAccounts(t: State, k: AccountKey)
    ensures Authn.LiveAccount(SweepSessions(t), k) == Authn.LiveAccount(t, k)
  {
  }

  lemma RotateIgnoresSweep(t: State, s: SessionKey, current: Id, next: Session)
    requires Holds(t, s, current) ==> t.sessions[s].expires >= t.now
    ensures
      var plain, swept := RotateSession(t, s, current, next), RotateSession(SweepSessions(t), s, current, next);
      swept.1 == plain.1 && SweepSessions(swept.0) == SweepSessions(plain.0)
  {
    SweepSessionsOnly(t);
    assert SweepSessions(RotateSession(SweepSessions(t), s, current, next).0).sessions ==
           SweepSessions(RotateSession(t, s, current, next).0).sessions;
  }

  /** Sweeping expired sessions never changes an atomic Renew: not its result, and not what it leaves. */
  lemma RenewNeverSeesTheSweep(
    c: Config, issued: set<Jwt>, used: set<Id>, t: State, tenant: Tenant, token: Jwt, a: Id, r: Id)
    requires Backed(issued, t.sessions) && JtisUnique(issued, used)
    requires Signed(t.ring, token) ==> token in issued
    ensures
      var plain, swept := Authn.Renew(c, t, tenant, token, a, r), Authn.Renew(c, SweepSessions(t), tenant, token, a, r);
      swept.result == plain.result && SweepSessions(swept.state) == SweepSessions(plain.state)
  {
    var s := Authn.SessionOf(token.claims);
    SweepSessionsOnly(t);
    if Verifies(t.ring, c.issuance, t.now, RefreshUse, token) {
      if Holds(t, s, token.claims.jti) { RenewableRowIsUnexpired(c, issued, used, t, token); }
      var next := Session(r,
        Authn.Issue(c, t, Authn.OwnerOf(token.claims), token.claims.client, a, r).refresh.claims.expires);
      RotateIgnoresSweep(t, s, token.claims.jti, next);
    }
    SweepLeavesAccounts(t, Authn.OwnerOf(token.claims));
    assert Authn.Issue(c, SweepSessions(t), Authn.OwnerOf(token.claims), token.claims.client, a, r) ==
           Authn.Issue(c, t, Authn.OwnerOf(token.claims), token.claims.client, a, r);
    hide RotateSession, SweepSessions, Backed, JtisUnique, Verifies, Holds, Authn.LiveAccount, Authn.Issue;
  }

  /** ... in any state that runs reach from the empty table. */
  lemma {:induction false} RenewNeverSeesTheSweepInAnyRun(
    c: Config, used: set<Id>, t: State, ops: seq<Op>, tenant: Tenant, token: Jwt, a: Id, r: Id)
    requires t.sessions == map[] && WellMinted(used, ops) && UnforgedRun(c, {}, t, ops)
    requires Signed(Run(c, t, ops).ring, token) ==> token in Issued(c, {}, t, ops)
    ensures
      var u := Run(c, t, ops);
      && Authn.Renew(c, SweepSessions(u), tenant, token, a, r).result == Authn.Renew(c, u, tenant, token, a, r).result
      && SweepSessions(Authn.Renew(c, SweepSessions(u), tenant, token, a, r).state) ==
         SweepSessions(Authn.Renew(c, u, tenant, token, a, r).state)
  {
    assert Backed({}, t.sessions) && JtisUnique({}, used);
    RunKeepsBacked(c, {}, used, t, ops);
    RenewNeverSeesTheSweep(c, Issued(c, {}, t, ops), UsedBy(used, ops), Run(c, t, ops), tenant, token, a, r);
    hide Run, Issued, Authn.Renew, SweepSessions, Backed, JtisUnique;
  }

  /**
   * Validate does see it: readSession ignores expires, so an unacknowledged second pair rides on
   * the first one's expired row until the janitor comes by.
   */
  lemma ValidateSeesTheSweep(c: Config, t: State, tenant: Tenant, access: Jwt)
    ensures
      (Authn.ValidateAccess(c, SweepSessions(t), tenant, access) != Authn.ValidateAccess(c, t, tenant, access)) <==>
      (&& Verifies(t.ring, c.issuance, t.now, AccessUse, access)
       && access.claims.tenant == tenant
       && Authn.SessionOf(access.claims) in t.sessions
       && t.sessions[Authn.SessionOf(access.claims)].expires < t.now)
  {
    hide Tokens.Verifies;
  }

  // ---- reaching it ----

  /** The account may log on with this password right now. */
  ghost predicate MayLogOn(t: State, k: AccountKey, password: string) {
    && k in t.accounts && k !in t.attempts
    && !t.accounts[k].deleted && t.accounts[k].enabled && t.accounts[k].verified
    && BcryptVerify(t.accounts[k].password, password)
  }

  lemma LogonSucceeds(c: Config, t: State, k: AccountKey, client: ClientId, password: string, a: Id, r: Id)
    requires MayLogOn(t, k, password)
    ensures Step(c, t, OnAuthn(Authn.Logon(k, client, password, a, r))) ==
              Reply(t, Ok(Authn.Issue(c, t, k, client, a, r)))
  {
    assert t.attempts - {k} == t.attempts;
    hide Authn.Issue;
  }

  lemma FreshPairAcknowledges(c: Config, t: State, k: AccountKey, client: ClientId, a: Id, r: Id)
    requires Matched(t.ring) && c.issuance.accessExpiry >= SECOND && c.issuance.refreshExpiry >= SECOND
    ensures
      var pair := Authn.Issue(c, t, k, client, a, r);
      var s := SessionKey(k.tenant, k.email, client);
      Step(c, t, OnAuthn(Authn.Ack(k.tenant, pair.access, pair.refresh))) ==
      Reply(UpsertSession(t, s, Session(r, NumericDate(t.now + c.issuance.refreshExpiry))), Ok(Nothing))
  {
    FreshTokenValidates(t.ring, c.issuance, t.now, AccessUse, k.tenant, k.email, client, a);
    FreshTokenValidates(t.ring, c.issuance, t.now, RefreshUse, k.tenant, k.email, client, r);
    hide Verifies, UpsertSession;
  }

  /** Log on, acknowledge, and let time pass. */
  function LogOnAndWait(
    k: AccountKey, client: ClientId, password: string, a: Id, r: Id, access: Jwt, refresh: Jwt, wait: nat): seq<Op>
  {
    [OnAuthn(Authn.Logon(k, client, password, a, r)), OnAuthn(Authn.Ack(k.tenant, access, refresh)), Tick(wait)]
  }

  lemma RunThree(c: Config, t: State, ops: seq<Op>, u: State, v: State, w: State)
    requires |ops| == 3 && Step(c, t, ops[0]).state == u && Step(c, u, ops[1]).state == v &&
               Step(c, v, ops[2]).state == w
    ensures Run(c, t, ops) == w
  {
    hide Step;
    assert ops[1..][0] == ops[1] && ops[1..][1..] == ops[2..] && ops[2..][0] == ops[2] && ops[2..][1..] == [];
    assert Run(c, v, ops[2..]) == w;
    assert Run(c, u, ops[1..]) == w;
  }

  /**
   * From any state in which an account may log on, a run reaches one where Validate depends on the
   * janitor: a second pair, never acknowledged, validates on the expired session of the first,
   * and stops validating once that is swept.
   */
  lemma {:induction false} UnacknowledgedPairRidesOnExpiredSession(
    c: Config, t: State, k: AccountKey, client: ClientId, password: string, a: Id, r: Id, x: Id, y: Id)
    requires MayLogOn(t, k, password) && Matched(t.ring)
    requires c.issuance.accessExpiry >= SECOND && c.issuance.refreshExpiry >= SECOND
    ensures
      var first := Authn.Issue(c, t, k, client, a, r);
      var wait := c.issuance.refreshExpiry + 1;
      var u := Run(c, t, LogOnAndWait(k, client, password, a, r, first.access, first.refresh, wait));
      var second := Authn.Issue(c, u, k, client, x, y);
      && Step(c, u, OnAuthn(Authn.Logon(k, client, password, x, y))) == Reply(u, Ok(second))
      && Authn.ValidateAccess(c, u, k.tenant, second.access).Ok?
      && Authn.ValidateAccess(c, SweepSessions(u), k.tenant, second.access) == Err(TokenNotAcknowledged)
  {
    var first := Authn.Issue(c, t, k, client, a, r);
    var wait := c.issuance.refreshExpiry + 1;
    var ops := LogOnAndWait(k, client, password, a, r, first.access, first.refresh, wait);
    var s := SessionKey(k.tenant, k.email, client);
    var acked := UpsertSession(t, s, Session(r, NumericDate(t.now + c.issuance.refreshExpiry)));
    var later := acked.(now := acked.now + wait);
    LogonSucceeds(c, t, k, client, password, a, r);
    FreshPairAcknowledges(c, t, k, client, a, r);
    assert Step(c, acked, Tick(wait)).state == later;
    LogonSucceeds(c, later, k, client, password, x, y);
    RunThree(c, t, ops, t, acked, later);
    FreshTokenValidates(later.ring, c.issuance, later.now, AccessUse, k.tenant, k.email, client, x);
    SecondPairAnswers(c, later, s, Authn.Issue(c, later, k, client, x, y).access);
    hide Step, Run, Authn.ValidateAccess, SweepSessions, MayLogOn, Verifies, NumericDate;
  }

  lemma SecondPairAnswers(c: Config, t: State, s: SessionKey, access: Jwt)
    requires Validate(t.ring, c.issuance, t.now, AccessUse, access).Ok? && Authn.SessionOf(access.claims) == s
    requires s in t.sessions && t.sessions[s].expires < t.now
    requires AccountBehind(s) in t.accounts && !t.accounts[AccountBehind(s)].deleted &&
               t.accounts[AccountBehind(s)].enabled
    ensures Authn.ValidateAccess(c, t, s.tenant, access).Ok?
    ensures Authn.ValidateAccess(c, SweepSessions(t), s.tenant, access) == Err(TokenNotAcknowledged)
  {
    hide Verifies;
  }
}
