/** A credential change is final for what came before it, and deletion is terminal. */
module Finality {
  import opened Base
  import opened Schema
  import opened Sql
  import opened Tokens
  import opened Values
  import opened Service
  import opened Integrity
  import opened Growth
  import opened Sessions
  import opened Frames
  import Accounts
  import Authn
  import LogonCodes
  import Oidc

  // ---- what belonged to the account ----

  /** No table holds any of it any more: not the ids, not the secrets. */
  ghost predicate Ended(t: State, u: State, k: AccountKey) {
    && (forall i :: Accounts.OwnedRefresh(t, k, i) ==> i !in u.refresh && forall j :: j in u.refresh ==>
        u.refresh[j].hash != t.refresh[i].hash)
    && (forall i :: Accounts.OwnedAccess(t, k, i) ==> i !in u.access)
    && (forall i :: Accounts.OwnedBrowser(t, k, i) ==> i !in u.browsers && forall j :: j in u.browsers ==>
        u.browsers[j].hash != t.browsers[i].hash)
    && (forall i :: Accounts.OwnedRequest(t, k, i) ==>
          i !in u.requests &&
            (t.requests[i].code.Some? ==> forall j :: j in u.requests ==> u.requests[j].code != t.requests[i].code))
  }

  /** ... so nothing of it resolves, under any tenant. */
  lemma EndedResolvesNowhere(t: State, u: State, k: AccountKey, tenant: Tenant, i: Id)
    requires Ended(t, u, k)
    ensures Accounts.OwnedRefresh(t, k, i) ==>
              ReadRefreshById(u, tenant, i).Err? && ReadRefresh(u, tenant, t.refresh[i].hash.of).Err?
    ensures Accounts.OwnedAccess(t, k, i) ==> ReadAccess(u, tenant, i).Err?
    ensures Accounts.OwnedBrowser(t, k, i) ==> ReadBrowser(u, tenant, t.browsers[i].hash.of).Err?
    ensures Accounts.OwnedRequest(t, k, i) ==> ReadRequest(u, tenant, i).Err?
    ensures Accounts.OwnedRequest(t, k, i) && t.requests[i].code.Some? ==>
              ReadRequestByCode(u, tenant, t.requests[i].code.value.of).Err?
  {
    if Accounts.OwnedRefresh(t, k, i) { assert t.refresh[i].hash == Sha256(t.refresh[i].hash.of); }
    if Accounts.OwnedBrowser(t, k, i) { assert t.browsers[i].hash == Sha256(t.browsers[i].hash.of); }
    if Accounts.OwnedRequest(t, k, i) && t.requests[i].code.Some? {
      assert t.requests[i].code == Some(Sha256(t.requests[i].code.value.of));
    }
  }

  // ---- the change itself ----

  ghost predicate SubRequests(n: map<Id, AuthRequest>, m: map<Id, AuthRequest>) {
    forall i :: i in n ==> i in m && n[i] == m[i]
  }

  /** The four deletions of the OIDC revoker, read off the state a successful change leaves. */
  ghost predicate Emptied(t: State, k: AccountKey) {
    && (forall i :: !Accounts.OwnedRefresh(t, k, i))
    && (forall i :: !Accounts.OwnedAccess(t, k, i))
    && (forall i :: !Accounts.OwnedBrowser(t, k, i))
    && (forall i :: !Accounts.OwnedRequest(t, k, i))
  }

  lemma RevokedIsEmptied(t: State, k: AccountKey)
    requires Accounts.Revoked(t, k, OidcSessions)
    ensures Emptied(t, k)
  {
    var changes := Accounts.Revocation(OidcSessions);
    assert changes[0] in changes && changes[1] in changes && changes[2] in changes && changes[3] in changes;
    assert Accounts.Holds(t, k, Accounts.DropBrowsers) && Accounts.Holds(t, k, Accounts.DropRefreshTokens);
    assert Accounts.Holds(t, k, Accounts.DropAccessTokens) && Accounts.Holds(t, k, Accounts.DropAuthRequests);
  }

  lemma ChangeEmpties(c: Config, t: State, op: Accounts.Op)
    requires Accounts.Credential(op) && OidcSessions in c.revokers && Accounts.Step(c, t, op).result.Ok?
    ensures
      var v := Accounts.Step(c, t, op).state;
      && op.k in t.accounts && op.k in v.accounts && v.accounts[op.k].id == t.accounts[op.k].id
      && Grown({}, t, v) && SubRequests(v.requests, t.requests) && Emptied(v, op.k) && v.now == t.now
  {
    var v := Accounts.Step(c, t, op).state;
    var body := Accounts.BodyOf(c, op);
    Accounts.CredentialChangeIsAllOrNothing(c, t, op);
    Accounts.CommittedRanItsBody(c, t, op);
    assert v == Accounts.RunBody(t, op.k, body, op.fault, |body|).state;
    RunBodyGrows(t, op.k, body, op.fault, |body|);
    RevokedIsEmptied(v, op.k);
    hide Accounts.Step, Accounts.RunBody, Accounts.Revoked, Emptied, Grown, SubRequests;
  }

  // ---- exactly what a change removes ----

  lemma {:induction false} RevocationsOf(revokers: seq<Revoker>, change: Accounts.Change)
    requires change in Accounts.Revocations(revokers)
    ensures change == Accounts.DropSessions ==> ApiKeySessions in revokers
    ensures Accounts.OnOidc(change) ==> OidcSessions in revokers
  {
    var last := |revokers| - 1;
    if change in Accounts.Revocations(revokers[..last]) { RevocationsOf(revokers[..last], change); }
  }

  lemma BodyTouches(c: Config, op: Accounts.Op, change: Accounts.Change)
    requires Accounts.Credential(op) && change in Accounts.BodyOf(c, op)
    ensures change == Accounts.DropSessions ==> ApiKeySessions in c.revokers
    ensures Accounts.OnOidc(change) ==> OidcSessions in c.revokers
  {
    if change in Accounts.Revocations(c.revokers) { RevocationsOf(c.revokers, change); }
  }

  ghost predicate SameOidc(t: State, u: State) {
    u.requests == t.requests && u.refresh == t.refresh && u.access == t.access && u.browsers == t.browsers
  }

  lemma ExecLeavesSessions(t: State, k: AccountKey, change: Accounts.Change)
    requires change != Accounts.DropSessions
    ensures Accounts.Exec(t, k, change).state.sessions == t.sessions
  {
    hide DropRefresh;
    assert change.DropRefreshTokens? ==> CoreOf(Accounts.Exec(t, k, change).state) == CoreOf(t) by {
      DropRefreshFrame(t, k);
    }
  }

  lemma DropRefreshFrame(t: State, k: AccountKey)
    ensures CoreOf(DropRefreshOf(t, k.tenant, SubjectsOf(t, k), None)) == CoreOf(t)
  {
  }

  /** Without a revoker wired in, its tables stay as they are. */
  lemma {:induction false} BodyLeaves(c: Config, t: State, op: Accounts.Op, i: nat)
    requires Accounts.Credential(op) && i <= |Accounts.BodyOf(c, op)|
    ensures
      var u := Accounts.RunBody(t, op.k, Accounts.BodyOf(c, op), op.fault, i).state;
      && (OidcSessions !in c.revokers ==> SameOidc(t, u))
      && (ApiKeySessions !in c.revokers ==> u.sessions == t.sessions)
  {
    if i > 0 {
      var body := Accounts.BodyOf(c, op);
      var u := Accounts.RunBody(t, op.k, body, op.fault, i - 1).state;
      BodyLeaves(c, t, op, i - 1);
      BodyTouches(c, op, body[i - 1]);
      if !Accounts.OnOidc(body[i - 1]) { Accounts.AccountExecSameRows(u, op.k, body[i - 1]); }
      if body[i - 1] != Accounts.DropSessions { ExecLeavesSessions(u, op.k, body[i - 1]); }
      hide Accounts.Exec, Accounts.BodyOf;
    }
  }

  ghost predicate RequestsLess(t: State, u: State, k: AccountKey, gone: bool) {
    && (forall i :: i in u.requests <==> i in t.requests && !(gone && Accounts.OwnedRequest(t, k, i)))
    && (forall i :: i in u.requests ==> u.requests[i] == t.requests[i])
  }

  ghost predicate RefreshLess(t: State, u: State, k: AccountKey, gone: bool) {
    && (forall i :: i in u.refresh <==> i in t.refresh && !(gone && Accounts.OwnedRefresh(t, k, i)))
    && (forall i :: i in u.refresh ==> u.refresh[i] == t.refresh[i])
  }

  ghost predicate AccessLess(t: State, u: State, k: AccountKey, gone: bool) {
    && (forall a :: a in u.access <==> a in t.access && !(gone && Accounts.OwnedAccess(t, k, a)))
    && (forall a :: a in u.access ==> u.access[a] == t.access[a])
  }

  ghost predicate BrowsersLess(t: State, u: State, k: AccountKey, gone: bool) {
    && (forall i :: i in u.browsers <==> i in t.browsers && !(gone && Accounts.OwnedBrowser(t, k, i)))
    && (forall i :: i in u.browsers ==> u.browsers[i] == t.browsers[i])
  }

  ghost predicate SessionsLess(t: State, u: State, k: AccountKey, gone: bool) {
    && (forall s :: s in u.sessions <==> s in t.sessions && !(gone && AccountBehind(s) == k))
    && (forall s :: s in u.sessions ==> u.sessions[s] == t.sessions[s])
  }

  ghost predicate OidcLess(t: State, u: State, k: AccountKey, gone: bool) {
    RequestsLess(t, u, k, gone) && RefreshLess(t, u, k, gone) && AccessLess(t, u, k, gone) &&
      BrowsersLess(t, u, k, gone)
  }

  lemma SameOidcLess(t: State, u: State, k: AccountKey)
    requires SameOidc(t, u)
    ensures OidcLess(t, u, k, false)
  {
  }

  /** Empty of the account and confined to it: its rows are gone and no other, cascade included. */
  lemma EmptiedIsLess(t: State, u: State, k: AccountKey)
    requires Rooted(t.refresh, t.access)
    requires k in t.accounts && k in u.accounts && u.accounts[k].id == t.accounts[k].id
    requires Accounts.OidcConfined(t, u, k) && Emptied(u, k)
    ensures OidcLess(t, u, k, true)
  {
    RowsEmptiedAreLess(t, u, k);
    TokensEmptiedAreLess(t, u, k);
    hide Rooted, Accounts.RequestsConfined, Accounts.RefreshConfined, Accounts.AccessConfined,
         Accounts.BrowsersConfined, Emptied,
         RequestsLess, RefreshLess, AccessLess, BrowsersLess;
  }

  lemma RowsEmptiedAreLess(t: State, u: State, k: AccountKey)
    requires k in t.accounts && k in u.accounts && u.accounts[k].id == t.accounts[k].id && Emptied(u, k)
    requires Accounts.RequestsConfined(t, u, k) && Accounts.BrowsersConfined(t, u, k)
    ensures RequestsLess(t, u, k, true) && BrowsersLess(t, u, k, true)
  {
    assert forall i :: i in u.requests && Accounts.OwnedRequest(t, k, i) ==> Accounts.OwnedRequest(u, k, i);
    assert forall i :: i in u.browsers && Accounts.OwnedBrowser(t, k, i) ==> Accounts.OwnedBrowser(u, k, i);
  }

  lemma TokensEmptiedAreLess(t: State, u: State, k: AccountKey)
    requires k in t.accounts && k in u.accounts && u.accounts[k].id == t.accounts[k].id && Emptied(u, k)
    requires Rooted(t.refresh, t.access) && Accounts.RefreshConfined(t, u, k) && Accounts.AccessConfined(t, u, k)
    ensures RefreshLess(t, u, k, true) && AccessLess(t, u, k, true)
  {
    assert forall i :: i in u.refresh && Accounts.OwnedRefresh(t, k, i) ==> Accounts.OwnedRefresh(u, k, i);
    assert forall a :: a in u.access && Accounts.OwnedAccess(t, k, a) ==> Accounts.OwnedAccess(u, k, a);
    assert forall a :: Accounts.UnderOwned(t, k, a) ==> Accounts.OwnedAccess(t, k, a);
  }

  lemma SessionsAreLess(c: Config, t: State, op: Accounts.Op)
    requires Accounts.Credential(op) && Accounts.Step(c, t, op).result.Ok?
    ensures SessionsLess(t, Accounts.Step(c, t, op).state, op.k, ApiKeySessions in c.revokers)
  {
    Accounts.CredentialChangeIsAllOrNothing(c, t, op);
    if ApiKeySessions in c.revokers {
      CredentialEndsSessions(c, t, op);
    } else {
      Accounts.CommittedRanItsBody(c, t, op);
      BodyLeaves(c, t, op, |Accounts.BodyOf(c, op)|);
    }
    hide Accounts.Step, Accounts.RunBody, Accounts.OidcConfined, Accounts.Revoked, SameOidc;
  }

  lemma OidcIsLess(c: Config, t: State, op: Accounts.Op)
    requires Accounts.Credential(op) && Accounts.Step(c, t, op).result.Ok? && Valid(t)
    ensures OidcLess(t, Accounts.Step(c, t, op).state, op.k, OidcSessions in c.revokers)
  {
    var u := Accounts.Step(c, t, op).state;
    assert Rooted(t.refresh, t.access);
    Accounts.CredentialChangeIsAllOrNothing(c, t, op);
    Accounts.CommittedRanItsBody(c, t, op);
    hide Accounts.Step, Accounts.RunBody, Accounts.OidcConfined, Accounts.Revoked, SameOidc, OidcLess, Emptied, Valid,
         Rooted;
    if OidcSessions in c.revokers {
      RevokedIsEmptied(u, op.k);
      EmptiedIsLess(t, u, op.k);
    } else {
      BodyLeaves(c, t, op, |Accounts.BodyOf(c, op)|);
      SameOidcLess(t, u, op.k);
    }
  }

  /**
   * A committed credential change removes exactly the account's own rows: with the OIDC revoker,
   * its browser sessions, grants, tokens and authenticated requests in its tenant, cascade
   * included; with the api-key revoker, its sessions. Every other row of those tables, and
   * everything else but its own account, reset and attempt rows, is as it was.
   */
  lemma CredentialChangeIsExact(c: Config, t: State, op: Accounts.Op)
    requires Valid(t) && Accounts.Credential(op) && Accounts.Step(c, t, op).result.Ok?
    ensures
      var u := Accounts.Step(c, t, op).state;
      && OidcLess(t, u, op.k, OidcSessions in c.revokers)
      && SessionsLess(t, u, op.k, ApiKeySessions in c.revokers)
      && Accounts.CoreConfined(t, u, op.k)
  {
    OidcIsLess(c, t, op);
    SessionsAreLess(c, t, op);
    Accounts.CredentialChangeIsAllOrNothing(c, t, op);
    hide Accounts.Step, OidcLess, SessionsLess, Accounts.OidcConfined, Accounts.Revoked, Valid, Accounts.CoreConfined;
  }

  // ---- and for good ----

  ghost predicate Disjoint(used: set<Id>, added: set<Id>) {
    used !! added
  }

  lemma RefreshEnds(used: set<Id>, added: set<Id>, t: State, v: State, u: State, k: AccountKey, i: Id)
    requires UniqueRefreshHashes(t.refresh) && Accounts.OwnedRefresh(t, k, i) && Emptied(v, k)
    requires k in v.accounts && v.accounts[k].id == t.accounts[k].id
    requires i in used && t.refresh[i].hash.of in used && Disjoint(used, added)
    requires GrownRefresh({}, t.refresh, v.refresh) && GrownRefresh(added, v.refresh, u.refresh)
    ensures i !in u.refresh && forall j :: j in u.refresh ==> u.refresh[j].hash != t.refresh[i].hash
  {
    assert !Accounts.OwnedRefresh(v, k, i);
    forall j | j in u.refresh ensures u.refresh[j].hash != t.refresh[i].hash {
      assert j in v.refresh ==> j in t.refresh && v.refresh[j] == t.refresh[j];
    }
  }

  lemma BrowserEnds(used: set<Id>, added: set<Id>, t: State, v: State, u: State, k: AccountKey, i: Id)
    requires UniqueCookies(t.browsers) && Accounts.OwnedBrowser(t, k, i) && Emptied(v, k)
    requires k in v.accounts && v.accounts[k].id == t.accounts[k].id
    requires i in used && t.browsers[i].hash.of in used && Disjoint(used, added)
    requires GrownBrowsers({}, t.browsers, v.browsers) && GrownBrowsers(added, v.browsers, u.browsers)
    ensures i !in u.browsers && forall j :: j in u.browsers ==> u.browsers[j].hash != t.browsers[i].hash
  {
    assert !Accounts.OwnedBrowser(v, k, i);
    forall j | j in u.browsers ensures u.browsers[j].hash != t.browsers[i].hash {
      assert j in v.browsers ==> j in t.browsers && v.browsers[j] == t.browsers[j];
    }
  }

  lemma AccessEnds(used: set<Id>, added: set<Id>, t: State, v: State, u: State, k: AccountKey, i: Id)
    requires Accounts.OwnedAccess(t, k, i) && Emptied(v, k)
    requires k in v.accounts && v.accounts[k].id == t.accounts[k].id
    requires i in used && Disjoint(used, added)
    requires GrownAccess({}, t.access, v.access) && GrownAccess(added, v.access, u.access)
    ensures i !in u.access
  {
    assert !Accounts.OwnedAccess(v, k, i);
  }

  lemma RequestEnds(used: set<Id>, added: set<Id>, t: State, v: State, u: State, k: AccountKey, i: Id)
    requires UniqueCodes(t.requests) && Accounts.OwnedRequest(t, k, i) && Emptied(v, k)
    requires k in v.accounts && v.accounts[k].id == t.accounts[k].id
    requires i in used && (t.requests[i].code.Some? ==> t.requests[i].code.value.of in used) && Disjoint(used, added)
    requires SubRequests(v.requests, t.requests) && GrownRequests(added, v.requests, u.requests)
    ensures i !in u.requests
    ensures t.requests[i].code.Some? ==> forall j :: j in u.requests ==> u.requests[j].code != t.requests[i].code
  {
    assert !Accounts.OwnedRequest(v, k, i);
    if t.requests[i].code.Some? {
      forall j | j in u.requests ensures u.requests[j].code != t.requests[i].code {
        assert j in v.requests ==> j in t.requests && v.requests[j] == t.requests[j];
      }
    }
  }

  lemma EmptiedStaysEnded(used: set<Id>, added: set<Id>, t: State, v: State, u: State, k: AccountKey)
    requires Constrained(t) && Known(used, t) && Disjoint(used, added)
    requires k in t.accounts && k in v.accounts && v.accounts[k].id == t.accounts[k].id
    requires Grown({}, t, v) && SubRequests(v.requests, t.requests) && Emptied(v, k) && Grown(added, v, u)
    ensures Ended(t, u, k)
  {
    hide Emptied, UniqueRefreshHashes, UniqueCookies, UniqueCodes, UniqueAccountIds, Disjoint;
    hide GrownRefresh, GrownAccess, GrownBrowsers, GrownRequests, GrownAccounts, SubRequests;
    forall i | Accounts.OwnedRefresh(t, k, i)
      ensures i !in u.refresh && forall j :: j in u.refresh ==> u.refresh[j].hash != t.refresh[i].hash
    {
      RefreshEnds(used, added, t, v, u, k, i);
    }
    forall i | Accounts.OwnedAccess(t, k, i) ensures i !in u.access {
      AccessEnds(used, added, t, v, u, k, i);
    }
    forall i | Accounts.OwnedBrowser(t, k, i)
      ensures i !in u.browsers && forall j :: j in u.browsers ==> u.browsers[j].hash != t.browsers[i].hash
    {
      BrowserEnds(used, added, t, v, u, k, i);
    }
    forall i | Accounts.OwnedRequest(t, k, i)
      ensures i !in u.requests
      ensures t.requests[i].code.Some? ==> forall j :: j in u.requests ==> u.requests[j].code != t.requests[i].code
    {
      RequestEnds(used, added, t, v, u, k, i);
    }
  }

  /**
   * After a reset, a password change or a deletion has committed, in every later state of every
   * run: no refresh token, access token, browser cookie, authenticated request or authorization
   * code the account had before is in any table.
   */
  lemma {:induction false} CredentialChangeIsFinal(c: Config, used: set<Id>, t: State, op: Accounts.Op, ops: seq<Op>)
    requires Valid(t) && Known(used, t) && WellMinted(used, ops)
    requires Accounts.Credential(op) && OidcSessions in c.revokers && Step(c, t, OnAccounts(op)).result.Ok?
    ensures Ended(t, Run(c, Step(c, t, OnAccounts(op)).state, ops), op.k)
  {
    var v := Step(c, t, OnAccounts(op)).state;
    assert v == Accounts.Step(c, t, op).state && Accounts.Step(c, t, op).result.Ok?;
    ChangeEmpties(c, t, op);
    RunGrows(c, v, ops);
    MintsAreNew(used, ops);
    EmptiedStaysEnded(used, UsedBy({}, ops), t, v, Run(c, v, ops), op.k);
    hide Run, Step, Accounts.Step, Emptied, Ended, Grown, SubRequests, Known;
  }

  // ---- the api-key surface ----

  /** No step of the run acknowledges a pair for this session. */
  ghost predicate NeverAcked(c: Config, t: State, ops: seq<Op>, s: SessionKey) {
    forall i :: 0 <= i < |ops| ==> !Acks(c, At(c, t, ops, i), ops[i], s)
  }

  /**
   * ... and no access or refresh token of the account is answered until a pair for its client is
   * acknowledged; attempts that fail and acknowledgements for other clients change nothing.
   */
  lemma {:induction false} CredentialChangeEndsSessions(
    c: Config, t: State, op: Accounts.Op, ops: seq<Op>, tenant: Tenant, token: Jwt, a: Id, r: Id)
    requires Accounts.Credential(op) && ApiKeySessions in c.revokers && Step(c, t, OnAccounts(op)).result.Ok?
    requires Authn.OwnerOf(token.claims) == op.k
    requires NeverAcked(c, Step(c, t, OnAccounts(op)).state, ops, Authn.SessionOf(token.claims))
    ensures
      var u := Run(c, Step(c, t, OnAccounts(op)).state, ops);
      Authn.ValidateAccess(c, u, tenant, token).Err? && Authn.Renew(c, u, tenant, token, a, r).result.Err?
  {
    var v := Step(c, t, OnAccounts(op)).state;
    var u := Run(c, v, ops);
    var s := Authn.SessionOf(token.claims);
    assert v == Accounts.Step(c, t, op).state;
    CredentialEndsSessions(c, t, op);
    assert AccountBehind(s) == op.k;
    assert ops[..|ops|] == ops;
    assert forall i: nat :: !StandsFrom(c, v, ops, s, i, |ops|);
    if s in u.sessions { SessionHasItsAcknowledgement(c, v, ops, s, |ops|); }
    NoSessionNoAnswer(c, u, tenant, token, a, r);
    hide Run, Step, Accounts.Step;
  }

  lemma NoSessionNoAnswer(c: Config, t: State, tenant: Tenant, token: Jwt, a: Id, r: Id)
    requires Authn.SessionOf(token.claims) !in t.sessions
    ensures Authn.ValidateAccess(c, t, tenant, token).Err? && Authn.Renew(c, t, tenant, token, a, r).result.Err?
  {
    hide Authn.LiveAccount, Verifies;
  }

  // ---- what a change cannot reach ----

  /** The clock and the keys are all that decides whether a token still verifies. */
  ghost predicate StillVerifies(c: Config, t: State, use: Tokens.Use, token: Jwt) {
    Verifies(t.ring, c.issuance, t.now, use, token)
  }

  /** What an acknowledgement asks: two tokens that verify, of its tenant, for one client and subject. */
  lemma AcknowledgesIff(c: Config, t: State, tenant: Tenant, access: Jwt, refresh: Jwt)
    ensures
      Authn.Acknowledge(c, t, tenant, access, refresh).result.Ok? <==>
      && StillVerifies(c, t, AccessUse, access) && StillVerifies(c, t, RefreshUse, refresh)
      && access.claims.tenant == refresh.claims.tenant == tenant
      && access.claims.client == refresh.claims.client && access.claims.subject == refresh.claims.subject
  {
    hide Verifies;
  }

  /** Once acknowledged, the pair answers exactly while its account is live. */
  lemma AcknowledgedAnswersIff(c: Config, t: State, tenant: Tenant, access: Jwt, refresh: Jwt, a: Id, r: Id)
    requires Authn.Acknowledge(c, t, tenant, access, refresh).result.Ok?
    ensures
      var u := Authn.Acknowledge(c, t, tenant, access, refresh).state;
      var live := Authn.LiveAccount(t, Authn.OwnerOf(refresh.claims)).Ok?;
      && (Authn.ValidateAccess(c, u, tenant, access).Ok? <==> live)
      && (Authn.Renew(c, u, tenant, refresh, a, r).result.Ok? <==> live)
  {
    AcknowledgesIff(c, t, tenant, access, refresh);
    var u := Authn.Acknowledge(c, t, tenant, access, refresh).state;
    assert Authn.LiveAccount(u, Authn.OwnerOf(refresh.claims)) == Authn.LiveAccount(t, Authn.OwnerOf(refresh.claims));
    hide Verifies, Authn.LiveAccount;
  }

  /**
   * A pair issued at any point before the change and never acknowledged is not revoked by it:
   * afterwards, whatever has run in between, it can be acknowledged exactly while its key is
   * published and neither token has expired, and it then answers while the account is live.
   */
  lemma {:induction false} PairFromBeforeAnswersAgain(
    c: Config, s: State, before: seq<Op>, op: Accounts.Op, ops: seq<Op>, client: ClientId,
    a: Id, r: Id, x: Id, y: Id)
    requires Accounts.Credential(op) && Step(c, Run(c, s, before), OnAccounts(op)).result.Ok?
    ensures
      var pair := Authn.Issue(c, s, op.k, client, a, r);
      var u := Run(c, Step(c, Run(c, s, before), OnAccounts(op)).state, ops);
      var acked := Authn.Acknowledge(c, u, op.k.tenant, pair.access, pair.refresh);
      var live := Authn.LiveAccount(u, op.k).Ok?;
      && (acked.result.Ok? <==>
            && s.ring.kid in u.ring.public && u.ring.public[s.ring.kid] == s.ring.key
            && u.now < pair.access.claims.expires && u.now < pair.refresh.claims.expires)
      && (acked.result.Ok? ==>
            && (Authn.ValidateAccess(c, acked.state, op.k.tenant, pair.access).Ok? <==> live)
            && (Authn.Renew(c, acked.state, op.k.tenant, pair.refresh, x, y).result.Ok? <==> live))
  {
    var pair := Authn.Issue(c, s, op.k, client, a, r);
    var t := Run(c, s, before);
    var v := Step(c, t, OnAccounts(op)).state;
    var u := Run(c, v, ops);
    RunGrows(c, s, before);
    StepGrows(c, t, OnAccounts(op));
    RunGrows(c, v, ops);
    assert NumericDate(s.now) <= s.now <= u.now;
    AcknowledgesIff(c, u, op.k.tenant, pair.access, pair.refresh);
    if Authn.Acknowledge(c, u, op.k.tenant, pair.access, pair.refresh).result.Ok? {
      AcknowledgedAnswersIff(c, u, op.k.tenant, pair.access, pair.refresh, x, y);
    }
    hide Run, Step, Authn.Acknowledge, Authn.ValidateAccess, Authn.Renew, Authn.LiveAccount, Grown, NumericDate;
  }

  /** The token endpoint has loaded this, and has yet to create its tokens. */
  ghost predicate Loaded(t: State, k: AccountKey, r: Oidc.TokenRequest, current: Option<Secret>) {
    match r
    case ForRequest(id, row) => Accounts.OwnedRequest(t, k, id) && row == t.requests[id] && current.None?
    case ForRenewal(id, _) => Accounts.OwnedRefresh(t, k, id) && current.Some?
  }

  lemma FreshPairSucceeds(c: Config, used: set<Id>, t: State, tenant: Tenant, r: Oidc.TokenRequest, m: Oidc.Mints)
    requires Known(used, t) && m.refresh !in used && m.secret !in used && m.access !in used
    ensures Oidc.CreatePair(c, t, tenant, r, m).result.Ok?
    ensures HasAccessFor(Oidc.CreatePair(c, t, tenant, r, m).state, tenant, r, m)
  {
    var row := Oidc.RefreshRow(c, t.now, tenant, r, m.secret);
    assert forall i :: i in t.refresh ==> t.refresh[i].hash.of in used;
    assert forall i :: i in t.refresh ==> t.refresh[i].hash != row.hash;
    assert RefreshWithHash(t, row.hash).None?;
  }

  /** The access token is in, for the subject of the request. */
  ghost predicate HasAccessFor(t: State, tenant: Tenant, r: Oidc.TokenRequest, m: Oidc.Mints) {
    m.access in t.access && t.access[m.access].tenant == tenant && t.access[m.access].grant == Oidc.GrantFor(r)
  }

  lemma FreshAccessSucceeds(c: Config, used: set<Id>, t: State, tenant: Tenant, r: Oidc.TokenRequest, m: Oidc.Mints)
    requires Known(used, t) && m.access !in used
    ensures Oidc.CreateAccessToken(c, t, tenant, r, m).result.Ok?
    ensures HasAccessFor(Oidc.CreateAccessToken(c, t, tenant, r, m).state, tenant, r, m)
  {
  }

  /** None of the values is minted before the run or in it. */
  ghost predicate NeverMinted(used: set<Id>, ops: seq<Op>, m: Oidc.Mints) {
    m.refresh !in UsedBy(used, ops) && m.secret !in UsedBy(used, ops) && m.access !in UsedBy(used, ops)
  }

  lemma KnownAfter(c: Config, used: set<Id>, t: State, op: Accounts.Op, ops: seq<Op>)
    requires Accounts.Credential(op) && Known(used, t)
    ensures Known(UsedBy(used, ops), Run(c, Step(c, t, OnAccounts(op)).state, ops))
  {
    var v := Step(c, t, OnAccounts(op)).state;
    StepGrows(c, t, OnAccounts(op));
    GrownKeepsKnown(used, Using({}, OnAccounts(op)), t, v);
    assert MintsOf(OnAccounts(op)) == [];
    assert used + Using({}, OnAccounts(op)) == used;
    RunKeepsKnown(c, used, v, ops);
    hide Step, Run, Known, Grown;
  }

  /**
   * A token creation that had only loaded its request when the change committed, and runs whole at
   * any later point, succeeds exactly when it is a code exchange: that carries the request in
   * memory, while a renewal finds its row gone. `Endings.InFlightLodgesIff` has the creation that
   * was already part of the way through its statements.
   */
  lemma {:induction false} LoadedCreationSurvivesIffExchange(
    c: Config, used: set<Id>, t: State, op: Accounts.Op, ops: seq<Op>, r: Oidc.TokenRequest, current: Option<Secret>,
    m: Oidc.Mints)
    requires Valid(t) && Known(used, t) && WellMinted(used, ops) && NeverMinted(used, ops, m)
    requires Accounts.Credential(op) && OidcSessions in c.revokers && Step(c, t, OnAccounts(op)).result.Ok?
    requires Loaded(t, op.k, r, current)
    ensures
      var u := Run(c, Step(c, t, OnAccounts(op)).state, ops);
      var created := Oidc.CreateAccessAndRefreshTokens(c, u, op.k.tenant, r, current, m);
      && (created.result.Ok? <==> r.ForRequest?)
      && (r.ForRequest? ==>
          HasAccessFor(created.state, op.k.tenant, r, m) && Oidc.GrantFor(r).subject == User(t.accounts[op.k].id))
  {
    var u := Run(c, Step(c, t, OnAccounts(op)).state, ops);
    KnownAfter(c, used, t, op, ops);
    CredentialChangeIsFinal(c, used, t, op, ops);
    hide Run, Step, Known, Valid, Oidc.CreatePair, Ended, HasAccessFor;
    if r.ForRequest? {
      FreshPairSucceeds(c, UsedBy(used, ops), u, op.k.tenant, r, m);
    } else {
      EndedIsGone(t, u, op.k, r.id);
    }
  }

  lemma EndedIsGone(t: State, u: State, k: AccountKey, i: Id)
    requires Ended(t, u, k) && Accounts.OwnedRefresh(t, k, i)
    ensures i !in u.refresh
  {
  }

  /** The same for an exchange that asks for no refresh token. */
  lemma {:induction false} LoadedAccessTokenSurvives(
    c: Config, used: set<Id>, t: State, op: Accounts.Op, ops: seq<Op>, r: Oidc.TokenRequest, m: Oidc.Mints)
    requires Known(used, t) && WellMinted(used, ops) && NeverMinted(used, ops, m)
    requires Accounts.Credential(op) && Step(c, t, OnAccounts(op)).result.Ok?
    requires r.ForRequest? && Loaded(t, op.k, r, None)
    ensures
      var u := Run(c, Step(c, t, OnAccounts(op)).state, ops);
      var created := Oidc.CreateAccessToken(c, u, op.k.tenant, r, m);
      created.result.Ok? && HasAccessFor(created.state, op.k.tenant, r, m) &&
        Oidc.GrantFor(r).subject == User(t.accounts[op.k].id)
  {
    KnownAfter(c, used, t, op, ops);
    FreshAccessSucceeds(c, UsedBy(used, ops), Run(c, Step(c, t, OnAccounts(op)).state, ops), op.k.tenant, r, m);
    hide Run, Step, Known, Oidc.CreateAccessToken, HasAccessFor;
  }

  // ---- a login past its password check ----

  /** The login form is two steps, and run together they are the operation. */
  lemma SignInIsItsSteps(c: Config, t: State, k: AccountKey, password: string, id: Id, cookie: Secret)
    ensures
      var logon := Authn.VerifyPassword(c, t, k, password);
      Oidc.SignIn(c, t, k, password, id, cookie) ==
      if logon.result.Err? then Reply(logon.state, Err(logon.result.error))
      else Oidc.OpenSession(c, logon.state, k.tenant, logon.result.value.id, id, cookie)
  {
    VerifyPasswordFrame(c, t, k, password);
    hide Authn.VerifyPassword, InsertBrowser;
  }

  lemma PassedIsTheAccount(c: Config, t: State, k: AccountKey, password: string)
    requires Authn.VerifyPassword(c, t, k, password).result.Ok?
    ensures k in t.accounts && Authn.VerifyPassword(c, t, k, password).result.value.id == t.accounts[k].id
  {
    assert Authn.CheckLockout(t, k).state.accounts == t.accounts;
    hide Authn.CheckLockout, ClearAttempts;
  }

  /** A fresh session of an account that exists goes in, and its cookie resolves. */
  lemma FreshSessionOpens(c: Config, used: set<Id>, t: State, k: AccountKey, id: Id, cookie: Secret)
    requires Known(used, t) && k in t.accounts && id !in used && cookie !in used && c.cookieExpiry >= 0
    ensures
      var r := Oidc.OpenSession(c, t, k.tenant, t.accounts[k].id, id, cookie);
      && r.result.Ok? && Accounts.OwnedBrowser(r.state, k, id)
      && ReadBrowser(r.state, k.tenant, cookie) == Ok((id, r.state.browsers[id]))
  {
    assert forall i :: i in t.browsers ==> t.browsers[i].hash.of in used;
    assert forall i :: i in t.browsers ==> t.browsers[i].hash != Sha256(cookie);
    var row := BrowserSession(k.tenant, Sha256(cookie), t.accounts[k].id, t.now, t.now + c.cookieExpiry);
    var u := t.(browsers := t.browsers[id := row]);
    assert AccountWithId(t, row.account).Some?;
    assert InsertBrowser(t, id, row) == Reply(u, Ok(()));
    assert u.browsers[id].hash == Sha256(cookie);
    assert BrowserWithHash(u, Sha256(cookie)) == Some(id);
    hide AccountWithId;
  }

  /**
   * A login that passed its password check before the change, and inserts its session at any point
   * after it, signs the account on again: no delete of the change comes after that insert.
   */
  lemma {:induction false} CheckedLoginSurvives(
    c: Config, used: set<Id>, s: State, k: AccountKey, password: string, between: seq<Op>, op: Accounts.Op,
    ops: seq<Op>, id: Id, cookie: Secret)
    requires Known(used, s) && Authn.VerifyPassword(c, s, k, password).result.Ok? && c.cookieExpiry >= 0
    requires id !in UsedBy(UsedBy(used, between), ops) && cookie !in UsedBy(UsedBy(used, between), ops)
    requires
      var t := Run(c, Authn.VerifyPassword(c, s, k, password).state, between);
      Accounts.Credential(op) && op.k == k && Step(c, t, OnAccounts(op)).result.Ok?
    ensures
      var checked := Authn.VerifyPassword(c, s, k, password);
      var u := Run(c, Step(c, Run(c, checked.state, between), OnAccounts(op)).state, ops);
      var r := Oidc.OpenSession(c, u, k.tenant, checked.result.value.id, id, cookie);
      && r.result.Ok? && Accounts.OwnedBrowser(r.state, k, id)
      && ReadBrowser(r.state, k.tenant, cookie) == Ok((id, r.state.browsers[id]))
  {
    var checked := Authn.VerifyPassword(c, s, k, password);
    var t := Run(c, checked.state, between);
    var v := Step(c, t, OnAccounts(op)).state;
    var u := Run(c, v, ops);
    PassedIsTheAccount(c, s, k, password);
    VerifyPasswordGrows(c, s, k, password);
    VerifyPasswordLeavesSide(c, s, k, password);
    assert Known(used, checked.state);
    RunKeepsKnown(c, used, checked.state, between);
    KnownAfter(c, UsedBy(used, between), t, op, ops);
    RunGrows(c, checked.state, between);
    StepGrows(c, t, OnAccounts(op));
    RunGrows(c, v, ops);
    assert k in u.accounts && u.accounts[k].id == s.accounts[k].id;
    FreshSessionOpens(c, UsedBy(UsedBy(used, between), ops), u, k, id, cookie);
    hide Run, Step, Known, Authn.VerifyPassword, Oidc.OpenSession, ReadBrowser, GrownRequests, GrownRefresh;
    hide GrownAccess, GrownBrowsers;
  }

  // ---- deletion ----

  /** Everything that would act as the account, create it again or change it. */
  predicate ActsAs(op: Op, k: AccountKey) {
    || (op.OnAccounts? && op.account.k == k)
    || (op.OnAuthn? && op.authn.Logon? && op.authn.k == k)
    || (op.OnAuthn? && op.authn.Check? && Authn.OwnerOf(op.authn.access.claims) == k)
    || (op.OnAuthn? && op.authn.Renewal? && Authn.OwnerOf(op.authn.refresh.claims) == k)
    || (op.OnCodes? && op.code.k == k)
    || (op.OnOidc? && op.oidc.Login? && AccountKey(op.oidc.tenant, op.oidc.email) == k)
  }

  ghost predicate Deleted(t: State, k: AccountKey) {
    k in t.accounts && t.accounts[k].deleted
  }

  lemma DeletedGateFails(c: Config, t: State, k: AccountKey, password: string)
    requires Deleted(t, k)
    ensures Authn.VerifyPassword(c, t, k, password).result.Err?
    ensures Authn.LiveAccount(t, k).Err? && Accounts.ReadLive(t, k).Err?
  {
    assert Authn.CheckLockout(t, k).state.accounts == t.accounts;
    hide Authn.CheckLockout;
  }

  lemma DeletedCodesFail(c: Config, t: State, op: LogonCodes.Op)
    requires Deleted(t, op.k)
    ensures LogonCodes.Step(c, t, op).result.Err?
  {
    assert Authn.CheckLockout(t, op.k).state.accounts == t.accounts;
    hide Authn.CheckLockout, ReadCode;
  }

  lemma DeletedAccountOpsFail(c: Config, t: State, op: Accounts.Op)
    requires Deleted(t, op.k)
    ensures Accounts.Step(c, t, op).result.Err?
  {
    hide Accounts.WithTransaction;
  }

  lemma DeletedAnswersNothing(c: Config, t: State, op: Op, k: AccountKey)
    requires Deleted(t, k) && ActsAs(op, k)
    ensures Step(c, t, op).result.Err?
  {
    hide Authn.VerifyPassword, Authn.LiveAccount, Verifies, LogonCodes.Step, Accounts.Step, Accounts.ReadLive, Deleted;
    if op.OnAccounts? { DeletedAccountOpsFail(c, t, op.account); }
    else if op.OnCodes? { DeletedCodesFail(c, t, op.code); }
    else if op.OnOidc? { DeletedGateFails(c, t, k, op.oidc.password); }
    else if op.authn.Logon? { DeletedGateFails(c, t, k, op.authn.password); }
    else { DeletedGateFails(c, t, k, ""); }
  }

  lemma DeletedHasNoUserinfo(t: State, k: AccountKey, tenant: Tenant, scopes: seq<string>)
    requires UniqueAccountIds(t.accounts) && Deleted(t, k)
    ensures Oidc.SetUserinfo(t, tenant, User(t.accounts[k].id), scopes).Err?
  {
    FindsAccount(t, k);
  }

  /**
   * Once a deletion commits, in every later state: every password or code logon, renewal and
   * account operation for it fails, no access token of it validates, it is never registered
   * again, and its id has no userinfo under any tenant.
   */
  lemma DeletionIsTerminal(
    c: Config, t: State, k: AccountKey, fault: Accounts.Fault, ops: seq<Op>, op: Op, tenant: Tenant,
    scopes: seq<string>)
    requires Valid(t) && Step(c, t, OnAccounts(Accounts.Deletion(k, fault))).result.Ok? && ActsAs(op, k)
    ensures
      var u := Run(c, Step(c, t, OnAccounts(Accounts.Deletion(k, fault))).state, ops);
      && Step(c, u, op).result.Err?
      && k in t.accounts && Oidc.SetUserinfo(u, tenant, User(t.accounts[k].id), scopes).Err?
  {
    var deletion := Accounts.Deletion(k, fault);
    var v := Step(c, t, OnAccounts(deletion)).state;
    assert v == Accounts.Step(c, t, deletion).state && Accounts.Step(c, t, deletion).result.Ok?;
    Accounts.CredentialChangeIsAllOrNothing(c, t, deletion);
    Accounts.CommittedRanItsBody(c, t, deletion);
    assert Deleted(v, k);
    StepKeepsValid(c, t, OnAccounts(deletion));
    RunKeepsValid(c, v, ops);
    RunGrows(c, v, ops);
    var u := Run(c, v, ops);
    assert Deleted(u, k) && u.accounts[k].id == t.accounts[k].id;
    DeletedAnswersNothing(c, u, op, k);
    DeletedHasNoUserinfo(u, k, tenant, scopes);
    hide Run, Step, Accounts.Step, ActsAs, Oidc.SetUserinfo;
  }
}
