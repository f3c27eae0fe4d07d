/** Databases that agree on the unexpired OIDC rows, and how every statement keeps them agreeing. */
module Expiries {
  import opened Base
  import opened Schema
  import opened Sql
  import Tenancy

  // ---- agreement on what has not expired ----

  ghost predicate AgreeRequests(now: Time, m: map<Id, AuthRequest>, n: map<Id, AuthRequest>) {
    forall i :: (i in m && m[i].expires >= now) || (i in n && n[i].expires >= now) ==> i in m && i in n && m[i] == n[i]
  }

  ghost predicate AgreeRefresh(now: Time, m: map<Id, RefreshToken>, n: map<Id, RefreshToken>) {
    forall i :: (i in m && m[i].expires >= now) || (i in n && n[i].expires >= now) ==> i in m && i in n && m[i] == n[i]
  }

  ghost predicate AgreeAccess(now: Time, m: map<Id, AccessToken>, n: map<Id, AccessToken>) {
    forall i :: (i in m && m[i].expires >= now) || (i in n && n[i].expires >= now) ==> i in m && i in n && m[i] == n[i]
  }

  ghost predicate AgreeBrowsers(now: Time, m: map<Id, BrowserSession>, n: map<Id, BrowserSession>) {
    forall i :: (i in m && m[i].expires >= now) || (i in n && n[i].expires >= now) ==> i in m && i in n && m[i] == n[i]
  }

  /** The same clock, keys, accounts and api-key tables. */
  ghost predicate SameRest(t: State, u: State) {
    u == t.(requests := u.requests, refresh := u.refresh, access := u.access, browsers := u.browsers)
  }

  ghost predicate Agree(t: State, u: State) {
    && SameRest(t, u)
    && AgreeRequests(t.now, t.requests, u.requests)
    && AgreeRefresh(t.now, t.refresh, u.refresh)
    && AgreeAccess(t.now, t.access, u.access)
    && AgreeBrowsers(t.now, t.browsers, u.browsers)
  }

  /**
   * The same result, or the row of another tenant reported as a mismatch on one side, and as
   * nothing on the other, where it has expired and been swept.
   */
  ghost predicate Similar<R>(r: Result<R>, s: Result<R>) {
    Tenancy.Alike(r, s) || Tenancy.Alike(s, r)
  }

  lemma SimilarParts<R>(r: Result<R>, s: Result<R>)
    requires Similar(r, s)
    ensures (r.Ok? <==> s.Ok?) && (r.Ok? ==> r == s)
  {
  }

  lemma SimilarErrors<R, S>(r: Result<R>, s: Result<R>, x: Result<S>, y: Result<S>)
    requires Similar(r, s) && r.Err? && s.Err? && x == Err(r.error) && y == Err(s.error)
    ensures Similar(x, y)
  {
  }

  lemma SameIsSimilar<R>(r: Result<R>, s: Result<R>)
    requires r == s
    ensures Similar(r, s)
  {
  }

  lemma AgreeReflexive(t: State)
    ensures Agree(t, t)
  {
  }

  lemma AgreeTransitive(t: State, u: State, v: State)
    requires Agree(t, u) && Agree(u, v)
    ensures Agree(t, v)
  {
  }

  lemma AgreeSymmetric(t: State, u: State)
    requires Agree(t, u)
    ensures Agree(u, t)
  {
  }

  /** Rows only ever expire, so agreement survives the clock. */
  lemma AgreeLater(t: State, u: State, delay: nat)
    requires Agree(t, u)
    ensures Agree(t.(now := t.now + delay), u.(now := u.now + delay))
  {
  }

  // ---- assembling agreement table by table ----

  lemma RequestsAgree(t: State, u: State, v: State, w: State)
    requires Agree(t, u) && v == t.(requests := v.requests) && w == u.(requests := w.requests)
    requires AgreeRequests(t.now, v.requests, w.requests)
    ensures Agree(v, w)
  {
    hide AgreeRequests, AgreeRefresh, AgreeAccess, AgreeBrowsers;
  }

  lemma TokensAgree(t: State, u: State, v: State, w: State)
    requires Agree(t, u)
    requires v == t.(refresh := v.refresh, access := v.access) && w == u.(refresh := w.refresh, access := w.access)
    requires AgreeRefresh(t.now, v.refresh, w.refresh) && AgreeAccess(t.now, v.access, w.access)
    ensures Agree(v, w)
  {
    hide AgreeRequests, AgreeRefresh, AgreeAccess, AgreeBrowsers;
  }

  lemma BrowsersAgree(t: State, u: State, v: State, w: State)
    requires Agree(t, u) && v == t.(browsers := v.browsers) && w == u.(browsers := w.browsers)
    requires AgreeBrowsers(t.now, v.browsers, w.browsers)
    ensures Agree(v, w)
  {
    hide AgreeRequests, AgreeRefresh, AgreeAccess, AgreeBrowsers;
  }

  // ---- reads ----

  lemma ReadRequestAgrees(t: State, u: State, tenant: Tenant, id: Id)
    requires Agree(t, u)
    ensures Similar(ReadRequest(t, tenant, id), ReadRequest(u, tenant, id))
  {
  }

  lemma ReadRequestByCodeAgrees(t: State, u: State, tenant: Tenant, code: Secret)
    requires Agree(t, u) && UniqueCodes(t.requests) && UniqueCodes(u.requests)
    ensures Similar(ReadRequestByCode(t, tenant, code), ReadRequestByCode(u, tenant, code))
  {
    var i, j := RequestWithCode(t, Sha256(code)), RequestWithCode(u, Sha256(code));
    if i.Some? && t.requests[i.value].expires >= t.now {
      assert i.value in u.requests && u.requests[i.value] == t.requests[i.value];
    }
    if j.Some? && u.requests[j.value].expires >= t.now {
      assert j.value in t.requests && t.requests[j.value] == u.requests[j.value];
    }
  }

  lemma ReadRefreshByIdAgrees(t: State, u: State, tenant: Tenant, id: Id)
    requires Agree(t, u)
    ensures Similar(ReadRefreshById(t, tenant, id), ReadRefreshById(u, tenant, id))
    ensures ReadRefreshById(t, tenant, id).Ok? ==> LiveRefresh(t, id)
  {
  }

  ghost predicate LiveRefresh(t: State, id: Id) {
    id in t.refresh && t.refresh[id].expires >= t.now
  }

  lemma ReadRefreshAgrees(t: State, u: State, tenant: Tenant, token: Secret)
    requires Agree(t, u) && UniqueRefreshHashes(t.refresh) && UniqueRefreshHashes(u.refresh)
    ensures Similar(ReadRefresh(t, tenant, token), ReadRefresh(u, tenant, token))
    ensures ReadRefresh(t, tenant, token).Ok? ==> LiveRefresh(t, ReadRefresh(t, tenant, token).value.0)
  {
    var i, j := RefreshWithHash(t, Sha256(token)), RefreshWithHash(u, Sha256(token));
    if i.Some? && t.refresh[i.value].expires >= t.now {
      assert i.value in u.refresh && u.refresh[i.value] == t.refresh[i.value];
    }
    if j.Some? && u.refresh[j.value].expires >= t.now {
      assert j.value in t.refresh && t.refresh[j.value] == u.refresh[j.value];
    }
  }

  lemma ReadAccessAgrees(t: State, u: State, tenant: Tenant, id: Id)
    requires Agree(t, u)
    ensures Similar(ReadAccess(t, tenant, id), ReadAccess(u, tenant, id))
  {
  }

  lemma ReadBrowserAgrees(t: State, u: State, tenant: Tenant, token: Secret)
    requires Agree(t, u) && UniqueCookies(t.browsers) && UniqueCookies(u.browsers)
    ensures Similar(ReadBrowser(t, tenant, token), ReadBrowser(u, tenant, token))
  {
    var i, j := BrowserWithHash(t, Sha256(token)), BrowserWithHash(u, Sha256(token));
    if i.Some? && t.browsers[i.value].expires >= t.now {
      assert i.value in u.browsers && u.browsers[i.value] == t.browsers[i.value];
    }
    if j.Some? && u.browsers[j.value].expires >= t.now {
      assert j.value in t.browsers && t.browsers[j.value] == u.browsers[j.value];
    }
  }

  lemma ReadAccountByIdAgrees(t: State, u: State, tenant: Tenant, id: Id)
    requires SameRest(t, u) && UniqueAccountIds(t.accounts)
    ensures ReadAccountById(t, tenant, id) == ReadAccountById(u, tenant, id)
  {
    var k, l := AccountWithId(t, id), AccountWithId(u, id);
    assert k.Some? <==> l.Some?;
    assert k == l;
  }

  // ---- writes to the request table: expires never changes ----

  lemma InsertRequestAgrees(t: State, u: State, id: Id, row: AuthRequest)
    requires Agree(t, u) && id !in t.requests && id !in u.requests && row.code.None?
    ensures Agree(InsertRequest(t, id, row).state, InsertRequest(u, id, row).state)
    ensures InsertRequest(t, id, row).result == InsertRequest(u, id, row).result
  {
    RequestsAgree(t, u, InsertRequest(t, id, row).state, InsertRequest(u, id, row).state);
    hide Agree;
  }

  /** The tenant's own request, expired and not swept. */
  ghost predicate Stale(t: State, tenant: Tenant, id: Id) {
    OwnsRequest(t, tenant, id) && t.requests[id].expires < t.now
  }

  /** Agreeing databases disagree on whose request it is only where one of them holds it expired. */
  lemma OwnersAgree(t: State, u: State, tenant: Tenant, id: Id)
    requires Agree(t, u)
    ensures OwnsRequest(t, tenant, id) == OwnsRequest(u, tenant, id) <==> Stale(t, tenant, id) == Stale(u, tenant, id)
  {
  }

  ghost function LoginPut(
    m: map<Id, AuthRequest>, tenant: Tenant, id: Id, subject: Subject, authTime: Time, amr: seq<string>)
    : map<Id, AuthRequest>
  {
    if id in m && m[id].tenant == tenant
      then m[id := m[id].(subject := subject, authTime := authTime, amr := amr, done := true)] else m
  }

  lemma LoginPutAgrees(
    now: Time, m: map<Id, AuthRequest>, n: map<Id, AuthRequest>, tenant: Tenant, id: Id, subject: Subject,
    authTime: Time, amr: seq<string>)
    requires AgreeRequests(now, m, n)
    ensures AgreeRequests(now, LoginPut(m, tenant, id, subject, authTime, amr),
                          LoginPut(n, tenant, id, subject, authTime, amr))
  {
  }

  lemma AuthenticatePuts(t: State, tenant: Tenant, id: Id, subject: Subject, authTime: Time, amr: seq<string>)
    ensures AuthenticateRequest(t, tenant, id, subject, authTime, amr).state ==
            t.(requests := LoginPut(t.requests, tenant, id, subject, authTime, amr))
  {
  }

  lemma AuthenticateRequestAgrees(
    t: State, u: State, tenant: Tenant, id: Id, subject: Subject, authTime: Time, amr: seq<string>)
    requires Agree(t, u)
    ensures Agree(AuthenticateRequest(t, tenant, id, subject, authTime, amr).state,
                  AuthenticateRequest(u, tenant, id, subject, authTime, amr).state)
  {
    hide AuthenticateRequest, LoginPut, AgreeRequests, AgreeRefresh, AgreeAccess, AgreeBrowsers;
    AuthenticatePuts(t, tenant, id, subject, authTime, amr);
    AuthenticatePuts(u, tenant, id, subject, authTime, amr);
    LoginPutAgrees(t.now, t.requests, u.requests, tenant, id, subject, authTime, amr);
    RequestsAgree(t, u, AuthenticateRequest(t, tenant, id, subject, authTime, amr).state,
                  AuthenticateRequest(u, tenant, id, subject, authTime, amr).state);
  }

  /** A column other than expires is set on the tenant's row, on each side where there is one. */
  lemma CodePutAgrees(
    now: Time, m: map<Id, AuthRequest>, n: map<Id, AuthRequest>, tenant: Tenant, id: Id, code: Option<Sha>)
    requires AgreeRequests(now, m, n)
    ensures AgreeRequests(now, CodePut(m, tenant, id, code), CodePut(n, tenant, id, code))
  {
  }

  ghost function CodePut(m: map<Id, AuthRequest>, tenant: Tenant, id: Id, code: Option<Sha>): map<Id, AuthRequest> {
    if id in m && m[id].tenant == tenant then m[id := m[id].(code := code)] else m
  }

  lemma SavePuts(t: State, tenant: Tenant, id: Id, code: Secret)
    requires forall j :: j in t.requests ==> t.requests[j].code != Some(Sha256(code))
    ensures SaveCode(t, tenant, id, code).state == t.(requests := CodePut(t.requests, tenant, id, Some(Sha256(code))))
  {
  }

  lemma SaveCodeAgrees(t: State, u: State, tenant: Tenant, id: Id, code: Secret)
    requires Agree(t, u)
    requires forall j :: j in t.requests ==> t.requests[j].code != Some(Sha256(code))
    requires forall j :: j in u.requests ==> u.requests[j].code != Some(Sha256(code))
    ensures Agree(SaveCode(t, tenant, id, code).state, SaveCode(u, tenant, id, code).state)
  {
    hide SaveCode, CodePut, AgreeRequests, AgreeRefresh, AgreeAccess, AgreeBrowsers;
    SavePuts(t, tenant, id, code);
    SavePuts(u, tenant, id, code);
    CodePutAgrees(t.now, t.requests, u.requests, tenant, id, Some(Sha256(code)));
    RequestsAgree(t, u, SaveCode(t, tenant, id, code).state, SaveCode(u, tenant, id, code).state);
  }

  ghost function RequestCut(m: map<Id, AuthRequest>, tenant: Tenant, id: Id): map<Id, AuthRequest> {
    if id in m && m[id].tenant == tenant then m - {id} else m
  }

  lemma RequestCutAgrees(now: Time, m: map<Id, AuthRequest>, n: map<Id, AuthRequest>, tenant: Tenant, id: Id)
    requires AgreeRequests(now, m, n)
    ensures AgreeRequests(now, RequestCut(m, tenant, id), RequestCut(n, tenant, id))
  {
  }

  lemma DeleteRequestCuts(t: State, tenant: Tenant, id: Id)
    ensures DeleteRequest(t, tenant, id).state == t.(requests := RequestCut(t.requests, tenant, id))
  {
  }

  lemma DeleteRequestAgrees(t: State, u: State, tenant: Tenant, id: Id)
    requires Agree(t, u)
    ensures Agree(DeleteRequest(t, tenant, id).state, DeleteRequest(u, tenant, id).state)
  {
    hide DeleteRequest, RequestCut, AgreeRequests, AgreeRefresh, AgreeAccess, AgreeBrowsers;
    DeleteRequestCuts(t, tenant, id);
    DeleteRequestCuts(u, tenant, id);
    RequestCutAgrees(t.now, t.requests, u.requests, tenant, id);
    RequestsAgree(t, u, DeleteRequest(t, tenant, id).state, DeleteRequest(u, tenant, id).state);
  }

  lemma DropRequestsOfAgrees(t: State, u: State, tenant: Tenant, subjects: set<Subject>)
    requires Agree(t, u)
    ensures Agree(DropRequestsOf(t, tenant, subjects), DropRequestsOf(u, tenant, subjects))
  {
    RequestsAgree(t, u, DropRequestsOf(t, tenant, subjects), DropRequestsOf(u, tenant, subjects));
    hide Agree;
  }

  // ---- writes to the token tables ----

  /** What the cascade needs: a token has its grant, and does not outlive it. */
  ghost predicate Anchored(t: State) {
    Rooted(t.refresh, t.access) && Nested(t)
  }

  /** The two deletions name the same rows among the live ones. */
  ghost predicate SameDead(t: State, dead: set<Id>, gone: set<Id>) {
    forall i :: LiveRefresh(t, i) ==> (i in dead <==> i in gone)
  }

  lemma RefreshCascadeAgrees(t: State, u: State, dead: set<Id>, gone: set<Id>)
    requires AgreeRefresh(t.now, t.refresh, u.refresh) && SameDead(t, dead, gone)
    ensures AgreeRefresh(t.now, t.refresh - dead, u.refresh - gone)
  {
    forall i | (i in t.refresh && t.refresh[i].expires >= t.now) || (i in u.refresh && u.refresh[i].expires >= t.now)
      ensures i in dead <==> i in gone
    {
      assert LiveRefresh(t, i);
    }
  }

  lemma AccessCascadeAgrees(t: State, u: State, dead: set<Id>, gone: set<Id>)
    requires t.now == u.now && AgreeAccess(t.now, t.access, u.access) && SameDead(t, dead, gone) && Anchored(t)
    ensures AgreeAccess(t.now, DropRefresh(t, dead).access, DropRefresh(u, gone).access)
  {
    forall a | a in t.access && t.access[a].expires >= t.now
      ensures Under(t.access[a], dead) == Under(t.access[a], gone)
    {
      if t.access[a].parent.Some? { assert LiveRefresh(t, t.access[a].parent.value); }
    }
  }

  lemma CascadeAgrees(t: State, u: State, dead: set<Id>, gone: set<Id>)
    requires Agree(t, u) && Anchored(t) && SameDead(t, dead, gone)
    ensures Agree(DropRefresh(t, dead), DropRefresh(u, gone))
  {
    RefreshCascadeAgrees(t, u, dead, gone);
    AccessCascadeAgrees(t, u, dead, gone);
    DropIsTwoTables(t, dead);
    DropIsTwoTables(u, gone);
    hide DropRefresh, Anchored, SameDead, AgreeRequests, AgreeRefresh, AgreeAccess, AgreeBrowsers;
    TokensAgree(t, u, DropRefresh(t, dead), DropRefresh(u, gone));
  }

  lemma DropIsTwoTables(t: State, dead: set<Id>)
    ensures DropRefresh(t, dead) == t.(refresh := t.refresh - dead, access := DropRefresh(t, dead).access)
  {
  }

  ghost function Condemned(t: State, tenant: Tenant, id: Id): set<Id> {
    if id in t.refresh && t.refresh[id].tenant == tenant then {id} else {}
  }

  lemma DeleteDrops(t: State, tenant: Tenant, id: Id)
    ensures DeleteRefresh(t, tenant, id).state == DropRefresh(t, Condemned(t, tenant, id))
    ensures DeleteRefresh(t, tenant, id).result == if id in Condemned(t, tenant, id) then Ok(()) else Err(TokenNotFound)
  {
    DropsNothing(t);
    hide DropRefresh;
  }

  lemma SameCondemned(t: State, u: State, tenant: Tenant, id: Id)
    requires Agree(t, u)
    ensures SameDead(t, Condemned(t, tenant, id), Condemned(u, tenant, id))
    ensures LiveRefresh(t, id) ==> Condemned(t, tenant, id) == Condemned(u, tenant, id)
  {
  }

  lemma DeleteRefreshAgrees(t: State, u: State, tenant: Tenant, id: Id)
    requires Agree(t, u) && Anchored(t)
    ensures Agree(DeleteRefresh(t, tenant, id).state, DeleteRefresh(u, tenant, id).state)
    ensures LiveRefresh(t, id) ==> DeleteRefresh(t, tenant, id).result == DeleteRefresh(u, tenant, id).result
  {
    hide Agree, Anchored, DropRefresh, DeleteRefresh, Condemned, SameDead, LiveRefresh;
    DeleteDrops(t, tenant, id);
    DeleteDrops(u, tenant, id);
    SameCondemned(t, u, tenant, id);
    CascadeAgrees(t, u, Condemned(t, tenant, id), Condemned(u, tenant, id));
  }

  lemma DropsNothing(t: State)
    ensures DropRefresh(t, {}) == t
  {
    assert DropRefresh(t, {}).access == t.access;
  }

  lemma DropRefreshOfAgrees(t: State, u: State, tenant: Tenant, subjects: set<Subject>, client: Option<ClientId>)
    requires Agree(t, u) && Anchored(t)
    ensures Agree(DropRefreshOf(t, tenant, subjects, client), DropRefreshOf(u, tenant, subjects, client))
  {
    CascadeAgrees(t, u,
                  set i | i in t.refresh && Covers(tenant, subjects, client, t.refresh[i].tenant, t.refresh[i].grant),
                  set i | i in u.refresh && Covers(tenant, subjects, client, u.refresh[i].tenant, u.refresh[i].grant));
    hide DropRefresh, Anchored;
  }

  lemma DropAccessOfAgrees(t: State, u: State, tenant: Tenant, subjects: set<Subject>, client: Option<ClientId>)
    requires Agree(t, u)
    ensures Agree(DropAccessOf(t, tenant, subjects, client), DropAccessOf(u, tenant, subjects, client))
  {
    TokensAgree(t, u, DropAccessOf(t, tenant, subjects, client), DropAccessOf(u, tenant, subjects, client));
    hide Agree;
  }

  ghost function AccessCut(m: map<Id, AccessToken>, tenant: Tenant, id: Id): map<Id, AccessToken> {
    if id in m && m[id].tenant == tenant then m - {id} else m
  }

  lemma AccessCutAgrees(now: Time, m: map<Id, AccessToken>, n: map<Id, AccessToken>, tenant: Tenant, id: Id)
    requires AgreeAccess(now, m, n)
    ensures AgreeAccess(now, AccessCut(m, tenant, id), AccessCut(n, tenant, id))
  {
  }

  lemma DeleteAccessCuts(t: State, tenant: Tenant, id: Id)
    ensures DeleteAccess(t, tenant, id).state == t.(access := AccessCut(t.access, tenant, id))
  {
  }

  lemma DeleteAccessAgrees(t: State, u: State, tenant: Tenant, id: Id)
    requires Agree(t, u)
    ensures Agree(DeleteAccess(t, tenant, id).state, DeleteAccess(u, tenant, id).state)
  {
    hide DeleteAccess, AccessCut, AgreeRequests, AgreeRefresh, AgreeAccess, AgreeBrowsers;
    DeleteAccessCuts(t, tenant, id);
    DeleteAccessCuts(u, tenant, id);
    AccessCutAgrees(t.now, t.access, u.access, tenant, id);
    TokensAgree(t, u, DeleteAccess(t, tenant, id).state, DeleteAccess(u, tenant, id).state);
  }

  lemma InsertRefreshAgrees(t: State, u: State, id: Id, row: RefreshToken)
    requires Agree(t, u) && id !in t.refresh && id !in u.refresh
    requires forall j :: j in t.refresh ==> t.refresh[j].hash != row.hash
    requires forall j :: j in u.refresh ==> u.refresh[j].hash != row.hash
    ensures Agree(InsertRefresh(t, id, row).state, InsertRefresh(u, id, row).state)
    ensures InsertRefresh(t, id, row).result.Ok? && InsertRefresh(u, id, row).result.Ok?
  {
    assert RefreshWithHash(t, row.hash).None? && RefreshWithHash(u, row.hash).None?;
    TokensAgree(t, u, InsertRefresh(t, id, row).state, InsertRefresh(u, id, row).state);
    hide Agree;
  }

  lemma InsertAccessAgrees(t: State, u: State, id: Id, row: AccessToken)
    requires Agree(t, u) && id !in t.access && id !in u.access
    requires row.parent.Some? ==> row.parent.value in t.refresh && row.parent.value in u.refresh
    ensures Agree(InsertAccess(t, id, row).state, InsertAccess(u, id, row).state)
    ensures InsertAccess(t, id, row).result.Ok? && InsertAccess(u, id, row).result.Ok?
  {
    TokensAgree(t, u, InsertAccess(t, id, row).state, InsertAccess(u, id, row).state);
    hide Agree;
  }

  // ---- writes to the browser table ----

  lemma BrowserPutAgrees(now: Time, m: map<Id, BrowserSession>, n: map<Id, BrowserSession>, id: Id, row: BrowserSession)
    requires AgreeBrowsers(now, m, n)
    ensures AgreeBrowsers(now, m[id := row], n[id := row])
  {
  }

  lemma InsertBrowserAgrees(t: State, u: State, id: Id, row: BrowserSession)
    requires Agree(t, u) && id !in t.browsers && id !in u.browsers
    requires forall j :: j in t.browsers ==> t.browsers[j].hash != row.hash
    requires forall j :: j in u.browsers ==> u.browsers[j].hash != row.hash
    ensures Agree(InsertBrowser(t, id, row).state, InsertBrowser(u, id, row).state)
    ensures InsertBrowser(t, id, row).result == InsertBrowser(u, id, row).result
  {
    assert BrowserWithHash(t, row.hash).None? && BrowserWithHash(u, row.hash).None?;
    assert AccountWithId(t, row.account).Some? == AccountWithId(u, row.account).Some? by {
      assert t.accounts == u.accounts;
    }
    BrowserPutAgrees(t.now, t.browsers, u.browsers, id, row);
    hide AgreeBrowsers, AgreeRequests, AgreeRefresh, AgreeAccess, AccountWithId, BrowserWithHash;
    BrowsersAgree(t, u, InsertBrowser(t, id, row).state, InsertBrowser(u, id, row).state);
    hide Agree;
  }

  ghost function WithoutCookie(m: map<Id, BrowserSession>, tenant: Tenant, hash: Sha): map<Id, BrowserSession> {
    map i | i in m && !(m[i].tenant == tenant && m[i].hash == hash) :: m[i]
  }

  lemma WithoutCookieAgrees(
    now: Time, m: map<Id, BrowserSession>, n: map<Id, BrowserSession>, tenant: Tenant, hash: Sha)
    requires AgreeBrowsers(now, m, n)
    ensures AgreeBrowsers(now, WithoutCookie(m, tenant, hash), WithoutCookie(n, tenant, hash))
  {
  }

  lemma DeletesTheCookie(t: State, tenant: Tenant, token: Secret)
    requires UniqueCookies(t.browsers)
    ensures DeleteBrowser(t, tenant, token).state == t.(browsers := WithoutCookie(t.browsers, tenant, Sha256(token)))
  {
    assert DeleteBrowser(t, tenant, token).state.browsers == WithoutCookie(t.browsers, tenant, Sha256(token));
  }

  lemma DeleteBrowserAgrees(t: State, u: State, tenant: Tenant, token: Secret)
    requires Agree(t, u) && UniqueCookies(t.browsers) && UniqueCookies(u.browsers)
    ensures Agree(DeleteBrowser(t, tenant, token).state, DeleteBrowser(u, tenant, token).state)
  {
    DeletesTheCookie(t, tenant, token);
    DeletesTheCookie(u, tenant, token);
    WithoutCookieAgrees(t.now, t.browsers, u.browsers, tenant, Sha256(token));
    hide DeleteBrowser, WithoutCookie, AgreeRequests, AgreeRefresh, AgreeAccess, AgreeBrowsers, UniqueCookies;
    BrowsersAgree(t, u, DeleteBrowser(t, tenant, token).state, DeleteBrowser(u, tenant, token).state);
  }

  lemma DeleteBrowsersForEmailAgrees(t: State, u: State, k: AccountKey)
    requires Agree(t, u)
    ensures Agree(DeleteBrowsersForEmail(t, k), DeleteBrowsersForEmail(u, k))
  {
    BrowsersAgree(t, u, DeleteBrowsersForEmail(t, k), DeleteBrowsersForEmail(u, k));
    hide Agree;
  }

  // ---- the sweeps themselves ----

  lemma SweepRequestsAgrees(t: State)
    ensures Agree(t, SweepRequests(t))
  {
  }

  lemma SweepBrowsersAgrees(t: State)
    ensures Agree(t, SweepBrowsers(t))
  {
  }

  lemma SweepAccessAgrees(t: State)
    ensures Agree(t, SweepAccess(t))
  {
  }

  lemma SweepRefreshAgrees(t: State)
    requires Anchored(t)
    ensures Agree(t, SweepRefresh(t))
  {
    AgreeReflexive(t);
    CascadeAgrees(t, t, {}, ExpiredRefresh(t));
    DropsNothing(t);
    hide Agree, Anchored, DropRefresh;
  }

  /** The token sweep is invisible because no unexpired token hangs under an expired grant. */
  lemma SweepTokensAgrees(t: State)
    requires Anchored(t)
    ensures Agree(t, SweepTokens(t))
  {
    SweepAccessAgrees(t);
    assert Anchored(SweepAccess(t));
    SweepRefreshAgrees(SweepAccess(t));
    AgreeTransitive(t, SweepAccess(t), SweepTokens(t));
    hide Agree, Anchored, SweepAccess, SweepRefresh;
  }
}
