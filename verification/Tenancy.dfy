/** One tenant's view of the tables, and how every SQL statement acts on it. */
module Tenancy {
  import opened Base
  import opened Schema
  import opened Sql

  // ---- the view ----

  ghost function KeyedOf<V>(m: map<AccountKey, V>, tenant: Tenant): map<AccountKey, V> {
    map k | k in m && k.tenant == tenant :: m[k]
  }

  ghost function SessionsOf(m: map<SessionKey, Session>, tenant: Tenant): map<SessionKey, Session> {
    map s | s in m && s.tenant == tenant :: m[s]
  }

  ghost function RequestsOf(m: map<Id, AuthRequest>, tenant: Tenant): map<Id, AuthRequest> {
    map i | i in m && m[i].tenant == tenant :: m[i]
  }

  ghost function RefreshOf(m: map<Id, RefreshToken>, tenant: Tenant): map<Id, RefreshToken> {
    map i | i in m && m[i].tenant == tenant :: m[i]
  }

  ghost function AccessOf(m: map<Id, AccessToken>, tenant: Tenant): map<Id, AccessToken> {
    map i | i in m && m[i].tenant == tenant :: m[i]
  }

  ghost function BrowsersOf(m: map<Id, BrowserSession>, tenant: Tenant): map<Id, BrowserSession> {
    map i | i in m && m[i].tenant == tenant :: m[i]
  }

  /** What a database holding only this tenant's rows would look like. */
  ghost function Project(t: State, tenant: Tenant): State {
    State(t.now, t.ring, KeyedOf(t.accounts, tenant), SessionsOf(t.sessions, tenant), KeyedOf(t.attempts, tenant),
          KeyedOf(t.codes, tenant), KeyedOf(t.resets, tenant), RequestsOf(t.requests, tenant),
          RefreshOf(t.refresh, tenant), AccessOf(t.access, tenant), BrowsersOf(t.browsers, tenant))
  }

  /**
   * Two results a tenant's view cannot tell apart: equal, or a row of another tenant was reported
   * as a mismatch where the view has no row to report.
   */
  ghost predicate Alike<R>(r: Result<R>, p: Result<R>) {
    r == p || (r == Err(TenantMismatch) && p.Err? &&
               p.error in {AuthRequestNotFound, TokenNotFound, BrowserSessionNotFound})
  }

  /**
   * A write under tenant `actor` from t to u shows in the view as p when it is the view's own, and not
   * at all otherwise.
   */
  ghost predicate Shows(view: Tenant, actor: Tenant, t: State, u: State, p: State) {
    Project(u, view) == if actor == view then p else Project(t, view)
  }

  ghost predicate Isolated<R>(view: Tenant, actor: Tenant, t: State, r: Reply<R>, p: Reply<R>) {
    Shows(view, actor, t, r.state, p.state) && (actor == view ==> Alike(r.result, p.result))
  }

  // ---- accounts ----

  lemma KeyedPut<V>(m: map<AccountKey, V>, view: Tenant, k: AccountKey, v: V)
    ensures KeyedOf(m[k := v], view) == if k.tenant == view then KeyedOf(m, view)[k := v] else KeyedOf(m, view)
  {
  }

  lemma KeyedCut<V>(m: map<AccountKey, V>, view: Tenant, k: AccountKey)
    ensures KeyedOf(m - {k}, view) == KeyedOf(m, view) - {k}
    ensures k.tenant != view ==> KeyedOf(m - {k}, view) == KeyedOf(m, view)
  {
    assert KeyedOf(m - {k}, view) == KeyedOf(m, view) - {k};
  }

  lemma ReadsOwnKeys(t: State, view: Tenant, k: AccountKey)
    requires k.tenant == view
    ensures
      var p := Project(t, view);
      && p.now == t.now && p.ring == t.ring
      && ReadAccount(p, k) == ReadAccount(t, k) && SubjectsOf(p, k) == SubjectsOf(t, k)
      && GetAttempt(p, k) == GetAttempt(t, k) && ReadCode(p, k) == ReadCode(t, k) && ReadReset(p, k) == ReadReset(t, k)
  {
  }

  lemma UpdateAccountShows(t: State, view: Tenant, k: AccountKey, a: Account)
    requires k in t.accounts ==> a.id == t.accounts[k].id
    ensures k.tenant == view && k in Project(t, view).accounts ==> a.id == Project(t, view).accounts[k].id
    ensures k.tenant == view ==>
              Isolated(view, k.tenant, t, UpdateAccount(t, k, a), UpdateAccount(Project(t, view), k, a))
    ensures k.tenant != view ==> Project(UpdateAccount(t, k, a).state, view) == Project(t, view)
  {
    KeyedPut(t.accounts, view, k, a);
  }

  lemma AccountWritesShow(t: State, view: Tenant, k: AccountKey, sha: Sha, hash: Bcrypt)
    ensures Isolated(view, k.tenant, t, SetVerified(t, k), SetVerified(Project(t, view), k))
    ensures Isolated(view, k.tenant, t, SetVerificationHash(t, k, sha), SetVerificationHash(Project(t, view), k, sha))
    ensures Isolated(view, k.tenant, t, SetPasswordHash(t, k, hash), SetPasswordHash(Project(t, view), k, hash))
    ensures Isolated(view, k.tenant, t, SoftDelete(t, k), SoftDelete(Project(t, view), k))
  {
    if k in t.accounts {
      var a := t.accounts[k];
      UpdateAccountShows(t, view, k, a.(verified := true, verification := None));
      UpdateAccountShows(t, view, k, a.(verification := Some(sha)));
      UpdateAccountShows(t, view, k, a.(password := hash));
      UpdateAccountShows(t, view, k, a.(deleted := true));
    }
    assert k.tenant == view ==> ReadAccount(Project(t, view), k) == ReadAccount(t, k);
    hide UpdateAccount;
  }

  lemma NewIdIsNew(t: State, view: Tenant, id: Id)
    requires forall l :: l in t.accounts ==> t.accounts[l].id != id
    ensures AccountWithId(t, id).None? && AccountWithId(Project(t, view), id).None?
  {
  }

  lemma InsertNewAccount(t: State, k: AccountKey, a: Account)
    requires AccountWithId(t, a.id).None?
    ensures InsertAccount(t, k, a) ==
            if k in t.accounts then Reply(t, Err(AccountDuplicate))
              else Reply(t.(accounts := t.accounts[k := a]), Ok(()))
  {
  }

  lemma InsertAccountShows(t: State, view: Tenant, k: AccountKey, a: Account)
    requires forall l :: l in t.accounts ==> t.accounts[l].id != a.id
    ensures Isolated(view, k.tenant, t, InsertAccount(t, k, a), InsertAccount(Project(t, view), k, a))
  {
    NewIdIsNew(t, view, a.id);
    InsertNewAccount(t, k, a);
    InsertNewAccount(Project(t, view), k, a);
    KeyedPut(t.accounts, view, k, a);
    hide AccountWithId, InsertAccount;
  }

  lemma ReadsOwnAccountById(t: State, view: Tenant, id: Id)
    requires UniqueAccountIds(t.accounts)
    ensures ReadAccountById(Project(t, view), view, id) == ReadAccountById(t, view, id)
  {
    var p := Project(t, view);
    var found := AccountWithId(t, id);
    if found.Some? && found.value.tenant == view {
      assert p.accounts[found.value].id == id;
      assert AccountWithId(p, id) == found;
    } else {
      assert AccountWithId(p, id).None?;
    }
  }

  // ---- api-key sessions ----

  lemma ReadsOwnSession(t: State, view: Tenant, s: SessionKey, jti: Id)
    requires s.tenant == view
    ensures ReadSession(Project(t, view), s) == ReadSession(t, s)
    ensures Holds(Project(t, view), s, jti) == Holds(t, s, jti)
  {
  }

  lemma SessionPut(m: map<SessionKey, Session>, view: Tenant, s: SessionKey, row: Session)
    ensures SessionsOf(m[s := row], view) ==
              if s.tenant == view then SessionsOf(m, view)[s := row] else SessionsOf(m, view)
  {
  }

  lemma SessionCut(m: map<SessionKey, Session>, view: Tenant, s: SessionKey)
    ensures SessionsOf(m - {s}, view) == if s.tenant == view then SessionsOf(m, view) - {s} else SessionsOf(m, view)
  {
  }

  lemma UpsertSessionShows(t: State, view: Tenant, s: SessionKey, row: Session)
    ensures Shows(view, s.tenant, t, UpsertSession(t, s, row), UpsertSession(Project(t, view), s, row))
  {
    SessionPut(t.sessions, view, s, row);
  }

  lemma RotateSessionShows(t: State, view: Tenant, s: SessionKey, current: Id, next: Session)
    ensures Shows(view, s.tenant, t, RotateSession(t, s, current, next).0,
                  RotateSession(Project(t, view), s, current, next).0)
    ensures s.tenant == view ==>
              RotateSession(Project(t, view), s, current, next).1 == RotateSession(t, s, current, next).1
  {
    SessionPut(t.sessions, view, s, next);
  }

  lemma DeleteSessionShows(t: State, view: Tenant, s: SessionKey)
    ensures Isolated(view, s.tenant, t, DeleteSession(t, s), DeleteSession(Project(t, view), s))
  {
    SessionCut(t.sessions, view, s);
  }

  lemma DeleteSessionsShows(t: State, view: Tenant, k: AccountKey)
    ensures Shows(view, k.tenant, t, DeleteSessions(t, k), DeleteSessions(Project(t, view), k))
  {
    var rest := DeleteSessions(t, k).sessions;
    if k.tenant == view {
      assert SessionsOf(rest, view) == DeleteSessions(Project(t, view), k).sessions;
    } else {
      assert SessionsOf(rest, view) == SessionsOf(t.sessions, view);
    }
  }

  // ---- attempts, codes and reset tokens ----

  lemma IncrementAndLockShows(t: State, view: Tenant, k: AccountKey, max: int, lockFor: Time)
    ensures Shows(view, k.tenant, t, IncrementAndLock(t, k, max, lockFor).0,
                  IncrementAndLock(Project(t, view), k, max, lockFor).0)
    ensures k.tenant == view ==>
              IncrementAndLock(Project(t, view), k, max, lockFor).1 == IncrementAndLock(t, k, max, lockFor).1
  {
    KeyedPut(t.attempts, view, k, Counted(GetAttempt(t, k), t.now, max, lockFor));
  }

  lemma ClearAttemptsShows(t: State, view: Tenant, k: AccountKey)
    ensures Shows(view, k.tenant, t, ClearAttempts(t, k), ClearAttempts(Project(t, view), k))
  {
    KeyedCut(t.attempts, view, k);
  }

  lemma UpsertCodeShows(t: State, view: Tenant, k: AccountKey, row: LogonCode)
    ensures Shows(view, k.tenant, t, UpsertCode(t, k, row), UpsertCode(Project(t, view), k, row))
  {
    KeyedPut(t.codes, view, k, row);
  }

  lemma DeleteCodeShows(t: State, view: Tenant, k: AccountKey)
    ensures Shows(view, k.tenant, t, DeleteCode(t, k), DeleteCode(Project(t, view), k))
  {
    KeyedCut(t.codes, view, k);
  }

  lemma UpsertResetShows(t: State, view: Tenant, k: AccountKey, row: PasswordReset)
    ensures Shows(view, k.tenant, t, UpsertReset(t, k, row), UpsertReset(Project(t, view), k, row))
  {
    KeyedPut(t.resets, view, k, row);
  }

  lemma DeleteResetShows(t: State, view: Tenant, k: AccountKey)
    ensures Shows(view, k.tenant, t, DeleteReset(t, k), DeleteReset(Project(t, view), k))
  {
    KeyedCut(t.resets, view, k);
  }

  // ---- authorization requests ----

  lemma RequestPut(m: map<Id, AuthRequest>, view: Tenant, id: Id, row: AuthRequest)
    requires id in m ==> m[id].tenant == row.tenant
    ensures RequestsOf(m[id := row], view) ==
              if row.tenant == view then RequestsOf(m, view)[id := row] else RequestsOf(m, view)
  {
  }

  lemma RequestCut(m: map<Id, AuthRequest>, view: Tenant, id: Id)
    requires id in m
    ensures RequestsOf(m - {id}, view) ==
              if m[id].tenant == view then RequestsOf(m, view) - {id} else RequestsOf(m, view)
  {
  }

  lemma ReadsOwnRequest(t: State, view: Tenant, id: Id)
    ensures Alike(ReadRequest(t, view, id), ReadRequest(Project(t, view), view, id))
    ensures OwnsRequest(Project(t, view), view, id) == OwnsRequest(t, view, id)
  {
  }

  lemma ReadsOwnCode(t: State, view: Tenant, code: Secret)
    requires UniqueCodes(t.requests)
    ensures Alike(ReadRequestByCode(t, view, code), ReadRequestByCode(Project(t, view), view, code))
  {
    var p := Project(t, view);
    var found := RequestWithCode(t, Sha256(code));
    if found.Some? && t.requests[found.value].tenant == view {
      assert found.value in p.requests && p.requests[found.value] == t.requests[found.value];
      assert RequestWithCode(p, Sha256(code)) == found;
    } else {
      assert RequestWithCode(p, Sha256(code)).None?;
    }
  }

  lemma InsertRequestShows(t: State, view: Tenant, id: Id, row: AuthRequest)
    requires id !in t.requests && row.code.None?
    ensures Isolated(view, row.tenant, t, InsertRequest(t, id, row), InsertRequest(Project(t, view), id, row))
  {
    RequestPut(t.requests, view, id, row);
  }

  lemma AuthenticateRequestShows(
    t: State, view: Tenant, actor: Tenant, id: Id, subject: Subject, authTime: Time, amr: seq<string>)
    ensures Isolated(view, actor, t, AuthenticateRequest(t, actor, id, subject, authTime, amr),
                     AuthenticateRequest(Project(t, view), actor, id, subject, authTime, amr))
  {
    if OwnsRequest(t, actor, id) {
      RequestPut(t.requests, view, id,
                 t.requests[id].(subject := subject, authTime := authTime, amr := amr, done := true));
    }
  }

  lemma SaveCodeShows(t: State, view: Tenant, actor: Tenant, id: Id, code: Secret)
    requires forall j :: j in t.requests ==> t.requests[j].code != Some(Sha256(code))
    ensures Isolated(view, actor, t, SaveCode(t, actor, id, code), SaveCode(Project(t, view), actor, id, code))
  {
    if OwnsRequest(t, actor, id) {
      RequestPut(t.requests, view, id, t.requests[id].(code := Some(Sha256(code))));
    }
  }

  lemma DeleteRequestShows(t: State, view: Tenant, actor: Tenant, id: Id)
    ensures Isolated(view, actor, t, DeleteRequest(t, actor, id), DeleteRequest(Project(t, view), actor, id))
  {
    if OwnsRequest(t, actor, id) { RequestCut(t.requests, view, id); }
  }

  lemma DropRequestsOfShows(t: State, view: Tenant, actor: Tenant, subjects: set<Subject>)
    ensures Shows(view, actor, t, DropRequestsOf(t, actor, subjects), DropRequestsOf(Project(t, view), actor, subjects))
  {
    var rest := DropRequestsOf(t, actor, subjects).requests;
    if actor == view {
      assert RequestsOf(rest, view) == DropRequestsOf(Project(t, view), actor, subjects).requests;
    } else {
      assert RequestsOf(rest, view) == RequestsOf(t.requests, view);
    }
  }

  // ---- tokens ----

  lemma RefreshPut(m: map<Id, RefreshToken>, view: Tenant, id: Id, row: RefreshToken)
    requires id !in m
    ensures RefreshOf(m[id := row], view) ==
              if row.tenant == view then RefreshOf(m, view)[id := row] else RefreshOf(m, view)
  {
  }

  lemma AccessPut(m: map<Id, AccessToken>, view: Tenant, id: Id, row: AccessToken)
    requires id !in m
    ensures AccessOf(m[id := row], view) ==
              if row.tenant == view then AccessOf(m, view)[id := row] else AccessOf(m, view)
  {
  }

  lemma ReadsOwnRefreshById(t: State, view: Tenant, id: Id)
    ensures Alike(ReadRefreshById(t, view, id), ReadRefreshById(Project(t, view), view, id))
  {
  }

  lemma ReadsOwnRefresh(t: State, view: Tenant, token: Secret)
    requires UniqueRefreshHashes(t.refresh)
    ensures Alike(ReadRefresh(t, view, token), ReadRefresh(Project(t, view), view, token))
  {
    var p := Project(t, view);
    var found := RefreshWithHash(t, Sha256(token));
    if found.Some? && t.refresh[found.value].tenant == view {
      assert found.value in p.refresh && p.refresh[found.value] == t.refresh[found.value];
      assert RefreshWithHash(p, Sha256(token)) == found;
    } else {
      assert RefreshWithHash(p, Sha256(token)).None?;
    }
  }

  lemma ReadsOwnAccess(t: State, view: Tenant, id: Id)
    ensures Alike(ReadAccess(t, view, id), ReadAccess(Project(t, view), view, id))
  {
  }

  lemma InsertRefreshShows(t: State, view: Tenant, id: Id, row: RefreshToken)
    requires id !in t.refresh && forall j :: j in t.refresh ==> t.refresh[j].hash != row.hash
    ensures Isolated(view, row.tenant, t, InsertRefresh(t, id, row), InsertRefresh(Project(t, view), id, row))
    ensures InsertRefresh(t, id, row).result.Ok?
  {
    assert RefreshWithHash(t, row.hash).None? && RefreshWithHash(Project(t, view), row.hash).None?;
    RefreshPut(t.refresh, view, id, row);
  }

  lemma InsertAccessShows(t: State, view: Tenant, id: Id, row: AccessToken)
    requires id !in t.access
    requires row.parent.Some? ==> row.parent.value in t.refresh && t.refresh[row.parent.value].tenant == row.tenant
    ensures Isolated(view, row.tenant, t, InsertAccess(t, id, row), InsertAccess(Project(t, view), id, row))
  {
    AccessPut(t.access, view, id, row);
  }

  lemma RefreshCut(m: map<Id, RefreshToken>, view: Tenant, actor: Tenant, dead: set<Id>, gone: set<Id>)
    requires forall i :: i in dead && i in m ==> m[i].tenant == actor
    requires actor == view ==> forall i :: i in m && m[i].tenant == view ==> (i in dead <==> i in gone)
    ensures RefreshOf(m - dead, view) == if actor == view then RefreshOf(m, view) - gone else RefreshOf(m, view)
  {
  }

  ghost function NotUnder(m: map<Id, AccessToken>, dead: set<Id>): map<Id, AccessToken> {
    map a | a in m && !Under(m[a], dead) :: m[a]
  }

  lemma AccessCascade(
    refresh: map<Id, RefreshToken>, m: map<Id, AccessToken>, view: Tenant, actor: Tenant, dead: set<Id>, gone: set<Id>)
    requires Rooted(refresh, m)
    requires forall i :: i in dead && i in refresh ==> refresh[i].tenant == actor
    requires actor == view ==> forall i :: i in refresh && refresh[i].tenant == view ==> (i in dead <==> i in gone)
    ensures AccessOf(NotUnder(m, dead), view) ==
              if actor == view then NotUnder(AccessOf(m, view), gone) else AccessOf(m, view)
  {
    if actor == view {
      assert forall a :: a in AccessOf(NotUnder(m, dead), view) <==> a in NotUnder(AccessOf(m, view), gone);
    }
  }

  /** The cascade stays inside the tenant, because a token and its grant share one. */
  lemma CascadeShows(t: State, view: Tenant, actor: Tenant, dead: set<Id>, gone: set<Id>)
    requires Rooted(t.refresh, t.access)
    requires forall i :: i in dead && i in t.refresh ==> t.refresh[i].tenant == actor
    requires actor == view ==> forall i :: i in t.refresh && t.refresh[i].tenant == view ==> (i in dead <==> i in gone)
    ensures Shows(view, actor, t, DropRefresh(t, dead), DropRefresh(Project(t, view), gone))
  {
    RefreshCut(t.refresh, view, actor, dead, gone);
    AccessCascade(t.refresh, t.access, view, actor, dead, gone);
    DropsTheCascade(t, dead);
    DropsTheCascade(Project(t, view), gone);
    hide DropRefresh, NotUnder, Rooted;
    hide KeyedOf, SessionsOf, RequestsOf, RefreshOf, AccessOf, BrowsersOf;
  }

  lemma DeleteRefreshShows(t: State, view: Tenant, actor: Tenant, id: Id)
    requires Rooted(t.refresh, t.access)
    ensures Isolated(view, actor, t, DeleteRefresh(t, actor, id), DeleteRefresh(Project(t, view), actor, id))
  {
    if id in t.refresh && t.refresh[id].tenant == actor { CascadeShows(t, view, actor, {id}, {id}); }
    hide DropRefresh, Rooted;
  }

  lemma AccessCut(m: map<Id, AccessToken>, view: Tenant, id: Id)
    requires id in m
    ensures AccessOf(m - {id}, view) == if m[id].tenant == view then AccessOf(m, view) - {id} else AccessOf(m, view)
  {
  }

  lemma DeleteAccessShows(t: State, view: Tenant, actor: Tenant, id: Id)
    ensures Isolated(view, actor, t, DeleteAccess(t, actor, id), DeleteAccess(Project(t, view), actor, id))
  {
    if id in t.access && t.access[id].tenant == actor { AccessCut(t.access, view, id); }
  }

  lemma DropRefreshOfShows(t: State, view: Tenant, actor: Tenant, subjects: set<Subject>, client: Option<ClientId>)
    requires Rooted(t.refresh, t.access)
    ensures Shows(view, actor, t, DropRefreshOf(t, actor, subjects, client),
                  DropRefreshOf(Project(t, view), actor, subjects, client))
  {
    var p := Project(t, view);
    CascadeShows(t, view, actor,
                 set i | i in t.refresh && Covers(actor, subjects, client, t.refresh[i].tenant, t.refresh[i].grant),
                 set i | i in p.refresh && Covers(actor, subjects, client, p.refresh[i].tenant, p.refresh[i].grant));
    hide DropRefresh, Rooted;
  }

  lemma DropAccessOfShows(t: State, view: Tenant, actor: Tenant, subjects: set<Subject>, client: Option<ClientId>)
    ensures Shows(view, actor, t, DropAccessOf(t, actor, subjects, client),
                  DropAccessOf(Project(t, view), actor, subjects, client))
  {
    var rest := DropAccessOf(t, actor, subjects, client).access;
    if actor == view {
      assert AccessOf(rest, view) == DropAccessOf(Project(t, view), actor, subjects, client).access;
    } else {
      assert AccessOf(rest, view) == AccessOf(t.access, view);
    }
  }

  // ---- browser sessions ----

  lemma ReadsOwnBrowser(t: State, view: Tenant, token: Secret)
    requires UniqueCookies(t.browsers)
    ensures Alike(ReadBrowser(t, view, token), ReadBrowser(Project(t, view), view, token))
  {
    var p := Project(t, view);
    var found := BrowserWithHash(t, Sha256(token));
    if found.Some? && t.browsers[found.value].tenant == view {
      assert found.value in p.browsers && p.browsers[found.value] == t.browsers[found.value];
      assert BrowserWithHash(p, Sha256(token)) == found;
    } else {
      assert BrowserWithHash(p, Sha256(token)).None?;
    }
  }

  lemma InsertBrowserShows(t: State, view: Tenant, id: Id, row: BrowserSession, k: AccountKey)
    requires id !in t.browsers && forall j :: j in t.browsers ==> t.browsers[j].hash != row.hash
    requires k in t.accounts && k.tenant == row.tenant && t.accounts[k].id == row.account
    ensures Isolated(view, row.tenant, t, InsertBrowser(t, id, row), InsertBrowser(Project(t, view), id, row))
  {
    var p := Project(t, view);
    assert BrowserWithHash(t, row.hash).None? && BrowserWithHash(p, row.hash).None?;
    assert AccountWithId(t, row.account).Some?;
    var m := t.browsers[id := row];
    if row.tenant == view {
      assert k in p.accounts && p.accounts[k].id == row.account;
      assert BrowsersOf(m, view) == BrowsersOf(t.browsers, view)[id := row];
    } else {
      assert BrowsersOf(m, view) == BrowsersOf(t.browsers, view);
    }
  }

  lemma BrowserCut(m: map<Id, BrowserSession>, view: Tenant, id: Id)
    requires id in m
    ensures BrowsersOf(m - {id}, view) ==
              if m[id].tenant == view then BrowsersOf(m, view) - {id} else BrowsersOf(m, view)
  {
  }

  lemma DeleteBrowserShows(t: State, view: Tenant, actor: Tenant, token: Secret)
    requires UniqueCookies(t.browsers)
    ensures Isolated(view, actor, t, DeleteBrowser(t, actor, token), DeleteBrowser(Project(t, view), actor, token))
  {
    var p := Project(t, view);
    var found := BrowserWithHash(t, Sha256(token));
    if found.Some? { BrowserCut(t.browsers, view, found.value); }
    if found.Some? && t.browsers[found.value].tenant == view {
      assert found.value in p.browsers && p.browsers[found.value] == t.browsers[found.value];
      assert BrowserWithHash(p, Sha256(token)) == found;
    } else {
      assert BrowserWithHash(p, Sha256(token)).None?;
    }
  }

  lemma DeleteBrowsersForEmailShows(t: State, view: Tenant, k: AccountKey)
    ensures Shows(view, k.tenant, t, DeleteBrowsersForEmail(t, k), DeleteBrowsersForEmail(Project(t, view), k))
  {
    var rest := DeleteBrowsersForEmail(t, k).browsers;
    if k.tenant == view {
      assert BrowsersOf(rest, view) == DeleteBrowsersForEmail(Project(t, view), k).browsers;
    } else {
      assert BrowsersOf(rest, view) == BrowsersOf(t.browsers, view);
    }
  }

  // ---- the janitor works on every tenant alike ----

  lemma SweepCodesShows(t: State, view: Tenant)
    ensures Project(SweepCodes(t), view) == SweepCodes(Project(t, view))
  {
    assert KeyedOf(SweepCodes(t).codes, view) == SweepCodes(Project(t, view)).codes;
  }

  lemma SweepResetsShows(t: State, view: Tenant)
    ensures Project(SweepResets(t), view) == SweepResets(Project(t, view))
  {
    assert KeyedOf(SweepResets(t).resets, view) == SweepResets(Project(t, view)).resets;
  }

  lemma SweepAttemptsShows(t: State, view: Tenant, olderThan: Time)
    ensures Project(SweepAttempts(t, olderThan), view) == SweepAttempts(Project(t, view), olderThan)
  {
    assert KeyedOf(SweepAttempts(t, olderThan).attempts, view) == SweepAttempts(Project(t, view), olderThan).attempts;
  }

  lemma SweepSessionsShows(t: State, view: Tenant)
    ensures Project(SweepSessions(t), view) == SweepSessions(Project(t, view))
  {
    assert SessionsOf(SweepSessions(t).sessions, view) == SweepSessions(Project(t, view)).sessions;
  }

  lemma SweepRequestsShows(t: State, view: Tenant)
    ensures Project(SweepRequests(t), view) == SweepRequests(Project(t, view))
  {
    assert RequestsOf(SweepRequests(t).requests, view) == SweepRequests(Project(t, view)).requests;
  }

  lemma SweepBrowsersShows(t: State, view: Tenant)
    ensures Project(SweepBrowsers(t), view) == SweepBrowsers(Project(t, view))
  {
    assert BrowsersOf(SweepBrowsers(t).browsers, view) == SweepBrowsers(Project(t, view)).browsers;
  }

  lemma SweepAccessShows(t: State, view: Tenant)
    ensures Project(SweepAccess(t), view) == SweepAccess(Project(t, view))
  {
    assert AccessOf(SweepAccess(t).access, view) == SweepAccess(Project(t, view)).access;
  }

  ghost predicate DeadIn(now: Time, m: map<Id, RefreshToken>, view: Tenant, dead: set<Id>, gone: set<Id>) {
    && (forall i :: i in dead <==> i in m && m[i].expires < now)
    && (forall i :: i in gone <==> i in m && m[i].tenant == view && m[i].expires < now)
  }

  lemma ExpiredRefreshCut(now: Time, m: map<Id, RefreshToken>, view: Tenant, dead: set<Id>, gone: set<Id>)
    requires DeadIn(now, m, view, dead, gone)
    ensures RefreshOf(m - dead, view) == RefreshOf(m, view) - gone
  {
  }

  lemma ExpiredCascade(
    now: Time, refresh: map<Id, RefreshToken>, m: map<Id, AccessToken>, view: Tenant, dead: set<Id>, gone: set<Id>)
    requires Rooted(refresh, m) && DeadIn(now, refresh, view, dead, gone)
    ensures AccessOf(NotUnder(m, dead), view) == NotUnder(AccessOf(m, view), gone)
  {
  }

  lemma DropsTheCascade(t: State, dead: set<Id>)
    ensures DropRefresh(t, dead) == t.(refresh := t.refresh - dead, access := NotUnder(t.access, dead))
  {
  }

  lemma ExpiredIsDead(t: State, view: Tenant)
    ensures DeadIn(t.now, t.refresh, view, ExpiredRefresh(t), ExpiredRefresh(Project(t, view)))
  {
  }

  lemma SweepRefreshShows(t: State, view: Tenant)
    requires Rooted(t.refresh, t.access)
    ensures Project(SweepRefresh(t), view) == SweepRefresh(Project(t, view))
  {
    var dead, gone := ExpiredRefresh(t), ExpiredRefresh(Project(t, view));
    ExpiredIsDead(t, view);
    ExpiredRefreshCut(t.now, t.refresh, view, dead, gone);
    ExpiredCascade(t.now, t.refresh, t.access, view, dead, gone);
    DropsTheCascade(t, dead);
    DropsTheCascade(Project(t, view), gone);
    hide DropRefresh, NotUnder, Rooted, DeadIn, ExpiredRefresh;
    hide KeyedOf, SessionsOf, RequestsOf, RefreshOf, AccessOf, BrowsersOf;
  }

  lemma SweepTokensShows(t: State, view: Tenant)
    requires Rooted(t.refresh, t.access)
    ensures Project(SweepTokens(t), view) == SweepTokens(Project(t, view))
  {
    SweepAccessShows(t, view);
    assert Rooted(t.refresh, SweepAccess(t).access);
    SweepRefreshShows(SweepAccess(t), view);
    hide Project, SweepRefresh, SweepAccess;
  }
}
