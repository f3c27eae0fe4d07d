/** Logout: which rows go, and that what went with them is gone for good. */
module Logouts {
  import opened Base
  import opened Schema
  import opened Sql
  import opened Values
  import opened Service
  import opened Integrity
  import opened Growth
  import Accounts
  import Oidc

  /** Of both token tables exactly the rows of this subject at this client, in this tenant, are gone. */
  ghost predicate GrantsEnded(t: State, u: State, tenant: Tenant, subject: Subject, client: ClientId) {
    && (forall i :: i in u.refresh <==>
          i in t.refresh && !OfTriple(tenant, subject, client, t.refresh[i].tenant, t.refresh[i].grant))
    && (forall a :: a in u.access <==>
          a in t.access && !OfTriple(tenant, subject, client, t.access[a].tenant, t.access[a].grant))
    && (forall i :: i in u.refresh ==> u.refresh[i] == t.refresh[i])
    && (forall a :: a in u.access ==> u.access[a] == t.access[a])
  }

  /** Terminating ends the grants of one subject at one client, and touches nothing else. */
  lemma TerminateIsExact(c: Config, t: State, tenant: Tenant, subject: Subject, client: ClientId)
    requires tenant != "" && Valid(t)
    ensures
      var x := Step(c, t, OnOidc(Oidc.Terminate(tenant, subject, client)));
      && x.result == Ok(Nothing)
      && GrantsEnded(t, x.state, tenant, subject, client)
      && x.state == t.(refresh := x.state.refresh, access := x.state.access)
  {
    DeleteGrantsIsExact(t, tenant, subject, client);
    hide DeleteGrants, Valid, OfTriple;
  }

  // ---- logout with the cookie ----

  ghost predicate HasCookie(t: State, i: Id, cookie: Secret) {
    i in t.browsers && t.browsers[i].hash == Sha256(cookie)
  }

  lemma FindsByCookie(t: State, cookie: Secret)
    requires UniqueCookies(t.browsers)
    ensures (forall i :: !HasCookie(t, i, cookie)) ==> BrowserWithHash(t, Sha256(cookie)).None?
    ensures forall i: Id :: HasCookie(t, i, cookie) ==> BrowserWithHash(t, Sha256(cookie)) == Some(i)
  {
    forall i: Id | HasCookie(t, i, cookie) ensures BrowserWithHash(t, Sha256(cookie)) == Some(i) {
      FindsBrowser(t, i);
    }
  }

  lemma LoadCookieIff(c: Config, t: State, tenant: Tenant, cookie: Secret)
    requires tenant != "" && UniqueCookies(t.browsers)
    ensures
      var x := Step(c, t, OnOidc(Oidc.LoadCookie(tenant, cookie)));
      && x.state == t
      && ((forall i :: !HasCookie(t, i, cookie)) ==> x.result == Err(BrowserSessionNotFound))
      && (forall i: Id :: HasCookie(t, i, cookie) ==>
            x.result ==
            if t.browsers[i].tenant != tenant then Err(TenantMismatch)
            else if t.browsers[i].expires < t.now then Err(BrowserSessionNotFound)
            else Ok(CookieOf(cookie, t.browsers[i].account)))
  {
    FindsByCookie(t, cookie);
    hide BrowserWithHash, UniqueCookies;
  }

  /** The state without the cookie's row. */
  ghost function SignedOut(t: State, i: Id): State {
    t.(browsers := t.browsers - {i})
  }

  /**
   * Logging out always succeeds. The tenant's cookie goes, expired or not; if it was live, its
   * account's grants at the client go with it, and no other row does. A cookie no row has, or one
   * of another tenant, changes nothing.
   */
  lemma LogoutIsExact(c: Config, t: State, tenant: Tenant, cookie: Secret, client: ClientId)
    requires tenant != "" && Valid(t)
    ensures
      var x := Step(c, t, OnOidc(Oidc.EndSession(tenant, cookie, client)));
      && x.result == Ok(Nothing)
      && ((forall i :: !HasCookie(t, i, cookie)) ==> x.state == t)
      && (forall i: Id :: HasCookie(t, i, cookie) ==>
            if t.browsers[i].tenant != tenant then x.state == t
            else if t.browsers[i].expires < t.now then x.state == SignedOut(t, i)
            else
              && GrantsEnded(t, x.state, tenant, User(t.browsers[i].account), client)
              && x.state == SignedOut(t, i).(refresh := x.state.refresh, access := x.state.access))
  {
    FindsByCookie(t, cookie);
    assert UniqueCookies(t.browsers);
    forall i: Id | HasCookie(t, i, cookie) && t.browsers[i].tenant == tenant {
      LogoutEnds(c, t, tenant, cookie, client, i);
    }
    LogoutLeaves(c, t, tenant, cookie, client);
    hide Step, BrowserWithHash, UniqueCookies, GrantsEnded, Valid;
  }

  lemma LogoutLeaves(c: Config, t: State, tenant: Tenant, cookie: Secret, client: ClientId)
    requires tenant != ""
    ensures
      var x, found := Step(c, t, OnOidc(Oidc.EndSession(tenant, cookie, client))), BrowserWithHash(t, Sha256(cookie));
      x.result == Ok(Nothing) && (found.None? || t.browsers[found.value].tenant != tenant ==> x.state == t)
  {
    hide BrowserWithHash, DeleteGrants;
  }

  lemma LogoutEnds(c: Config, t: State, tenant: Tenant, cookie: Secret, client: ClientId, i: Id)
    requires tenant != "" && Valid(t) && i in t.browsers && BrowserWithHash(t, Sha256(cookie)) == Some(i)
    requires t.browsers[i].tenant == tenant
    ensures
      var x := Step(c, t, OnOidc(Oidc.EndSession(tenant, cookie, client)));
      if t.browsers[i].expires < t.now then x.state == SignedOut(t, i)
      else
        && GrantsEnded(t, x.state, tenant, User(t.browsers[i].account), client)
        && x.state == SignedOut(t, i).(refresh := x.state.refresh, access := x.state.access)
  {
    var out, owner := SignedOut(t, i), User(t.browsers[i].account);
    SignedOutIsValid(t, i);
    DeleteGrantsIsExact(out, tenant, owner, client);
    LogoutIs(c, t, tenant, cookie, client, i);
    hide Step, DeleteGrants, BrowserWithHash, Valid, OfTriple;
  }

  lemma LogoutIs(c: Config, t: State, tenant: Tenant, cookie: Secret, client: ClientId, i: Id)
    requires tenant != "" && i in t.browsers && BrowserWithHash(t, Sha256(cookie)) == Some(i)
    requires t.browsers[i].tenant == tenant
    ensures
      Step(c, t, OnOidc(Oidc.EndSession(tenant, cookie, client))).state ==
      if t.browsers[i].expires < t.now then SignedOut(t, i)
      else DeleteGrants(SignedOut(t, i), tenant, User(t.browsers[i].account), client)
  {
    hide DeleteGrants, BrowserWithHash;
  }

  lemma SignedOutIsValid(t: State, i: Id)
    requires Valid(t)
    ensures Valid(SignedOut(t, i))
  {
  }

  // ---- for good ----

  /** The grant's id and secret, and the token's id, are in no table. */
  ghost predicate NoGrant(t: State, u: State, i: Id) {
    i in t.refresh ==> i !in u.refresh && forall j :: j in u.refresh ==> u.refresh[j].hash != t.refresh[i].hash
  }

  lemma GrantGoneForGood(used: set<Id>, added: set<Id>, t: State, v: State, u: State, i: Id)
    requires UniqueRefreshHashes(t.refresh) && Known(used, t) && used !! added && i in t.refresh && i !in v.refresh
    requires forall j :: j in v.refresh ==> j in t.refresh && v.refresh[j] == t.refresh[j]
    requires GrownRefresh(added, v.refresh, u.refresh)
    ensures NoGrant(t, u, i)
  {
    assert t.refresh[i].hash.of in used;
    forall j | j in u.refresh ensures u.refresh[j].hash != t.refresh[i].hash {
      assert j in v.refresh ==> j in t.refresh && v.refresh[j] == t.refresh[j];
    }
  }

  lemma CookieGoneForGood(used: set<Id>, added: set<Id>, t: State, v: State, u: State, i: Id)
    requires UniqueCookies(t.browsers) && Known(used, t) && used !! added && i in t.browsers
    requires v.browsers == t.browsers - {i} && GrownBrowsers(added, v.browsers, u.browsers)
    ensures i !in u.browsers && forall j :: j in u.browsers ==> u.browsers[j].hash != t.browsers[i].hash
  {
    assert t.browsers[i].hash.of in used;
  }

  lemma TokenGoneForGood(used: set<Id>, added: set<Id>, t: State, v: State, u: State, a: Id)
    requires Known(used, t) && used !! added && a in t.access && a !in v.access
    requires GrownAccess(added, v.access, u.access)
    ensures a !in u.access
  {
  }

  /** None of what a logout ends is read again, whichever tenant asks. */
  ghost predicate ReadsNowhere(t: State, u: State, tenant: Tenant, subject: Subject, client: ClientId, asked: Tenant) {
    && (forall i :: i in t.refresh && OfTriple(tenant, subject, client, t.refresh[i].tenant, t.refresh[i].grant) ==>
          ReadRefreshById(u, asked, i).Err? && ReadRefresh(u, asked, t.refresh[i].hash.of).Err?)
    && (forall a :: a in t.access && OfTriple(tenant, subject, client, t.access[a].tenant, t.access[a].grant) ==>
          ReadAccess(u, asked, a).Err?)
  }

  lemma EndedReadsNowhere(
    used: set<Id>, added: set<Id>, t: State, v: State, u: State, tenant: Tenant, subject: Subject, client: ClientId,
    asked: Tenant)
    requires Valid(t) && Known(used, t) && used !! added && GrantsEnded(t, v, tenant, subject, client)
    requires GrownRefresh(added, v.refresh, u.refresh) && GrownAccess(added, v.access, u.access)
    ensures ReadsNowhere(t, u, tenant, subject, client, asked)
  {
    hide OfTriple, Known, GrownRefresh, GrownAccess;
    forall i | i in t.refresh && OfTriple(tenant, subject, client, t.refresh[i].tenant, t.refresh[i].grant)
      ensures ReadRefreshById(u, asked, i).Err? && ReadRefresh(u, asked, t.refresh[i].hash.of).Err?
    {
      GrantGoneForGood(used, added, t, v, u, i);
      assert t.refresh[i].hash == Sha256(t.refresh[i].hash.of);
    }
    forall a | a in t.access && OfTriple(tenant, subject, client, t.access[a].tenant, t.access[a].grant)
      ensures ReadAccess(u, asked, a).Err?
    {
      TokenGoneForGood(used, added, t, v, u, a);
    }
  }

  /**
   * A logout is for good: in every later state of every run the cookie is signed in nowhere, and no
   * grant or token that its account had at the client resolves, by id or secret, under any tenant.
   */
  lemma {:induction false} LogoutIsFinal(
    c: Config, used: set<Id>, t: State, tenant: Tenant, cookie: Secret, client: ClientId, i: Id, ops: seq<Op>,
    asked: Tenant)
    requires tenant != "" && Valid(t) && Known(used, t) && WellMinted(used, ops)
    requires HasCookie(t, i, cookie) && t.browsers[i].tenant == tenant && t.now <= t.browsers[i].expires
    ensures
      var u := Run(c, Step(c, t, OnOidc(Oidc.EndSession(tenant, cookie, client))).state, ops);
      && ReadBrowser(u, asked, cookie).Err?
      && ReadsNowhere(t, u, tenant, User(t.browsers[i].account), client, asked)
  {
    var v := Step(c, t, OnOidc(Oidc.EndSession(tenant, cookie, client))).state;
    var u := Run(c, v, ops);
    LogoutIsExact(c, t, tenant, cookie, client);
    RunGrows(c, v, ops);
    MintsAreNew(used, ops);
    assert used !! UsedBy({}, ops);
    EndedReadsNowhere(used, UsedBy({}, ops), t, v, u, tenant, User(t.browsers[i].account), client, asked);
    CookieGoneForGood(used, UsedBy({}, ops), t, v, u, i);
    hide Run, Step, Known, Valid, GrantsEnded, ReadsNowhere, GrownRefresh, GrownAccess, GrownRequests, GrownAccounts;
  }

  /** ... and so is terminating a session. */
  lemma {:induction false} TerminationIsFinal(
    c: Config, used: set<Id>, t: State, tenant: Tenant, subject: Subject, client: ClientId, ops: seq<Op>, asked: Tenant)
    requires tenant != "" && Valid(t) && Known(used, t) && WellMinted(used, ops)
    ensures
      var u := Run(c, Step(c, t, OnOidc(Oidc.Terminate(tenant, subject, client))).state, ops);
      ReadsNowhere(t, u, tenant, subject, client, asked)
  {
    var v := Step(c, t, OnOidc(Oidc.Terminate(tenant, subject, client))).state;
    TerminateIsExact(c, t, tenant, subject, client);
    RunGrows(c, v, ops);
    MintsAreNew(used, ops);
    EndedReadsNowhere(used, UsedBy({}, ops), t, v, Run(c, v, ops), tenant, subject, client, asked);
    hide Run, Step, Known, Valid, GrantsEnded, ReadsNowhere, GrownRefresh, GrownAccess, GrownRequests, GrownAccounts;
  }
}
