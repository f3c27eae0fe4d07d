/** Revoking a token closes over its grant, for good. */
module Revocation {
  import opened Base
  import opened Schema
  import opened Sql
  import opened Values
  import opened Service
  import opened Integrity
  import opened Growth
  import Accounts
  import Authn
  import Oidc

  // ---- one uuid never names a row in both token tables ----

  ghost predicate Separate(t: State) {
    forall i :: i in t.refresh ==> i !in t.access
  }

  /** Token rows come from the token endpoint and nowhere else. */
  ghost predicate Shrunk(t: State, u: State) {
    GrownRefresh({}, t.refresh, u.refresh) && GrownAccess({}, t.access, u.access)
  }

  predicate MintsTokens(op: Op) {
    op.OnOidc? && (op.oidc.Exchange? || op.oidc.Refresh?)
  }

  lemma SameSideShrinks(t: State, u: State)
    requires OidcSide(t) == OidcSide(u)
    ensures Shrunk(t, u)
  {
  }

  lemma AccountsShrink(c: Config, t: State, op: Accounts.Op)
    ensures Shrunk(t, Accounts.Step(c, t, op).state)
  {
    var u := Accounts.Step(c, t, op).state;
    if op.Registration? {
      RegisterOnlyAccounts(t, op);
    } else if !Accounts.Credential(op) {
      PlainAccountsLeaveSide(c, t, op);
      SameSideShrinks(t, u);
    } else if u != t {
      Accounts.CredentialChangeIsAllOrNothing(c, t, op);
      Accounts.CommittedRanItsBody(c, t, op);
      var body := Accounts.BodyOf(c, op);
      RunBodyGrows(t, op.k, body, op.fault, |body|);
      hide Accounts.RunBody;
    }
    hide Accounts.Step;
  }

  lemma InsertBrowserLeavesTokens(t: State, id: Id, row: BrowserSession)
    ensures Shrunk(t, InsertBrowser(t, id, row).state)
  {
  }

  lemma SameSideThenShrinks(t: State, u: State, v: State)
    requires OidcSide(t) == OidcSide(u) && Shrunk(u, v)
    ensures Shrunk(t, v)
  {
  }

  lemma LoginShrinks(c: Config, t: State, op: Oidc.Op)
    requires op.Login? && op.tenant != ""
    ensures Shrunk(t, Oidc.Step(c, t, op).state)
  {
    var k := AccountKey(op.tenant, op.email);
    var logon := Authn.VerifyPassword(c, t, k, op.password);
    VerifyPasswordLeavesSide(c, t, k, op.password);
    SameSideShrinks(t, logon.state);
    hide Authn.VerifyPassword, InsertBrowser, Shrunk;
    if logon.result.Ok? {
      var row := BrowserSession(k.tenant, Sha256(op.cookie), logon.result.value.id, t.now, t.now + c.cookieExpiry);
      assert logon.state.now == t.now;
      InsertBrowserLeavesTokens(logon.state, op.id, row);
      SameSideThenShrinks(t, logon.state, InsertBrowser(logon.state, op.id, row).state);
    }
  }

  lemma OidcShrinks(c: Config, t: State, op: Oidc.Op)
    requires !op.Exchange? && !op.Refresh?
    ensures Shrunk(t, Oidc.Step(c, t, op).state)
  {
    if op.tenant == "" { assert Oidc.Step(c, t, op).state == t; }
    hide Oidc.Step;
    if op.tenant == "" { TimeShrinks(t, t); }
    else if op.Login? { LoginShrinks(c, t, op); }
    else if op.RevokeById? || op.Terminate? || op.EndSession? { EndingGrows(c, t, op); }
    else if Mutates(op) { RequestWritesOnly(c, t, op); }
    else { LoadsLeaveState(c, t, op); }
  }

  lemma StepShrinks(c: Config, t: State, op: Op)
    requires !MintsTokens(op)
    ensures Shrunk(t, Step(c, t, op).state)
  {
    var u := Step(c, t, op).state;
    hide Shrunk;
    if op.OnAccounts? { AccountsShrink(c, t, op.account); hide Accounts.Step; }
    else if op.OnAuthn? { AuthnLeavesSide(c, t, op.authn); SameSideShrinks(t, u); hide Authn.Step; }
    else if op.OnCodes? { CodesLeaveSide(c, t, op.code); SameSideShrinks(t, u); }
    else if op.OnOidc? { OidcShrinks(c, t, op.oidc); hide Oidc.Step; }
    else if op.Janitor? { SweepGrows(t, op.sweep); GrownShrinks(t, u); hide Swept; }
    else { TimeShrinks(t, u); }
  }

  lemma GrownShrinks(t: State, u: State)
    requires Grown({}, t, u)
    ensures Shrunk(t, u)
  {
  }

  lemma TimeShrinks(t: State, u: State)
    requires t.refresh == u.refresh && t.access == u.access
    ensures Shrunk(t, u)
  {
  }

  /** The token endpoint adds at most the two rows it minted ids for. */
  ghost predicate AddsPair(t: State, u: State, m: Oidc.Mints) {
    && (forall i :: i in u.refresh ==> i in t.refresh || i == m.refresh)
    && (forall a :: a in u.access ==> a in t.access || a == m.access)
  }

  lemma AccessAddsPair(c: Config, t: State, tenant: Tenant, r: Oidc.TokenRequest, m: Oidc.Mints)
    ensures AddsPair(t, Oidc.CreateAccessToken(c, t, tenant, r, m).state, m)
  {
  }

  lemma GrownAddsPair(t: State, u: State, v: State, m: Oidc.Mints)
    requires Grown({}, t, u) && AddsPair(u, v, m)
    ensures AddsPair(t, v, m)
  {
  }

  lemma CreationAddsPair(
    c: Config, t: State, tenant: Tenant, r: Oidc.TokenRequest, current: Option<Secret>, m: Oidc.Mints)
    ensures AddsPair(t, Oidc.CreateAccessAndRefreshTokens(c, t, tenant, r, current, m).state, m)
  {
    assert AddsPair(t, t, m);
    hide Oidc.SpendGrant, Oidc.CreatePair, Grown, AddsPair;
    var spent := if current.Some? then Oidc.SpendGrant(t, tenant, r, current.value) else Reply(t, Ok(()));
    if current.Some? { SpendGrows(t, tenant, r, current.value); } else { GrownReflexive({}, t); }
    PairAdds(c, spent.state, tenant, r, m);
    GrownAddsPair(t, spent.state, Oidc.CreatePair(c, spent.state, tenant, r, m).state, m);
  }

  lemma PairAdds(c: Config, t: State, tenant: Tenant, r: Oidc.TokenRequest, m: Oidc.Mints)
    ensures AddsPair(t, Oidc.CreatePair(c, t, tenant, r, m).state, m)
  {
  }

  lemma MintingAddsPair(c: Config, t: State, op: Oidc.Op)
    requires op.Exchange? || op.Refresh?
    ensures AddsPair(t, Oidc.Step(c, t, op).state, op.mints)
  {
    hide Oidc.CreateAccessAndRefreshTokens, Oidc.CreateAccessToken, ReadRequestByCode, ReadRefresh;
    if op.Exchange? {
      var read := ReadRequestByCode(t, op.tenant, op.code);
      if read.Ok? {
        var r := Oidc.ForRequest(read.value.0, read.value.1);
        CreationAddsPair(c, t, op.tenant, r, None, op.mints);
        AccessAddsPair(c, t, op.tenant, r, op.mints);
      }
    } else {
      var read := ReadRefresh(t, op.tenant, op.token);
      if read.Ok? {
        var (id, row) := read.value;
        var r := Oidc.ForRenewal(id, if op.narrowed.Some? then row.(grant := row.grant.(scopes := op.narrowed.value))
                                 else row);
        CreationAddsPair(c, t, op.tenant, r, Some(op.token), op.mints);
      }
    }
  }

  lemma StepKeepsSeparate(c: Config, used: set<Id>, t: State, op: Op)
    requires Separate(t) && Known(used, t) && Fresh(used, op)
    ensures Separate(Step(c, t, op).state)
  {
    if MintsTokens(op) {
      MintingAddsPair(c, t, op.oidc);
      var list := MintsOf(op);
      assert list[0] == op.oidc.mints.refresh && list[2] == op.oidc.mints.access;
      assert list[0] in list && list[2] in list;
      hide Oidc.Step;
    } else {
      StepShrinks(c, t, op);
      hide Step;
    }
  }

  lemma {:induction false} RunKeepsSeparate(c: Config, used: set<Id>, t: State, ops: seq<Op>)
    requires Separate(t) && Known(used, t) && WellMinted(used, ops)
    ensures Separate(Run(c, t, ops))
    decreases |ops|
  {
    hide Step, Known, Separate, Grown;
    if ops != [] {
      var u := Step(c, t, ops[0]).state;
      StepKeepsSeparate(c, used, t, ops[0]);
      StepGrows(c, t, ops[0]);
      GrownKeepsKnown(used, Using({}, ops[0]), t, u);
      assert used + Using({}, ops[0]) == Using(used, ops[0]);
      RunKeepsSeparate(c, Using(used, ops[0]), u, ops[1..]);
    }
  }

  // ---- revocation ----

  /** Nothing under this tenant reads the grant, by id or by secret, or any access token linked to it. */
  ghost predicate Closed(t: State, u: State, tenant: Tenant, id: Id) {
    && ReadRefreshById(u, tenant, id).Err?
    && ReadAccess(u, tenant, id).Err?
    && (id in t.refresh ==> ReadRefresh(u, tenant, t.refresh[id].hash.of).Err?)
    && (forall a :: a in t.access && t.access[a].parent == Some(id) ==> ReadAccess(u, tenant, a).Err?)
  }

  /** The rows that can still answer for a revoked id: none of this tenant that have not expired. */
  ghost predicate Dead(t: State, tenant: Tenant, id: Id) {
    && (id in t.refresh ==> t.refresh[id].tenant != tenant || t.refresh[id].expires < t.now)
    && (id in t.access ==> t.access[id].tenant != tenant || t.access[id].expires < t.now)
  }

  lemma DropLeavesDead(t: State, tenant: Tenant, id: Id, a: Id)
    requires Separate(t) && id in t.refresh
    requires a == id || (a in t.access && t.access[a].parent == Some(id))
    ensures Dead(DropRefresh(t, {id}), tenant, a)
  {
  }

  lemma LeftoversAreDead(t: State, tenant: Tenant, id: Id, a: Id)
    requires Valid(t) && Nested(t) && Separate(t) && ReadRefreshById(t, tenant, id).Err?
    requires a == id || (a in t.access && t.access[a].parent == Some(id))
    ensures Dead(DeleteAccess(t, tenant, id).state, tenant, a)
  {
  }

  lemma RevocationLeavesDead(t: State, tenant: Tenant, id: Id, a: Id)
    requires Valid(t) && Nested(t) && Separate(t)
    requires a == id || (a in t.access && t.access[a].parent == Some(id))
    ensures Dead(Oidc.RevokeToken(t, tenant, id).state, tenant, a)
  {
    var read := ReadRefreshById(t, tenant, id);
    if read.Ok? {
      assert DeleteRefresh(t, tenant, id).state == DropRefresh(t, {id});
      DropLeavesDead(t, tenant, id, a);
    } else {
      LeftoversAreDead(t, tenant, id, a);
    }
    hide Valid, Nested, Separate, Dead, DropRefresh, DeleteAccess, DeleteRefresh, ReadRefreshById;
  }

  lemma DeadStaysDead(used: set<Id>, added: set<Id>, t: State, u: State, tenant: Tenant, a: Id)
    requires Dead(t, tenant, a) && Grown(added, t, u) && a in used && added !! used
    ensures ReadRefreshById(u, tenant, a).Err? && ReadAccess(u, tenant, a).Err?
  {
  }

  lemma DeadSecretStaysDead(used: set<Id>, added: set<Id>, t: State, v: State, u: State, tenant: Tenant, id: Id)
    requires Valid(t) && Known(used, t) && id in t.refresh
    requires Shrunk(t, v) && v.now == t.now && Dead(v, tenant, id)
    requires Grown(added, v, u) && added !! used
    ensures ReadRefresh(u, tenant, t.refresh[id].hash.of).Err?
  {
    var secret := t.refresh[id].hash.of;
    var found := RefreshWithHash(u, Sha256(secret));
    if found.Some? {
      assert found.value in u.refresh && u.refresh[found.value].hash.of == secret;
      assert found.value in t.refresh && t.refresh[found.value].hash == t.refresh[id].hash;
    }
  }

  /**
   * After RevokeToken under a tenant, in every later state: the id resolves to nothing there, as a
   * refresh token or as an access token, nor does its secret, nor any access token linked to it;
   * also when the refresh row had already expired and was left in place. (RFC 7009, 2.1 and 2.2)
   */
  lemma {:induction false} RevocationIsFinal(c: Config, used: set<Id>, t: State, tenant: Tenant, id: Id, ops: seq<Op>)
    requires Valid(t) && Nested(t) && Separate(t) && Known(used, t)
    requires tenant != "" && id in used && WellMinted(used, ops)
    ensures
      var revoked := Step(c, t, OnOidc(Oidc.RevokeById(tenant, id)));
      revoked.result == Ok(Nothing) && Closed(t, Run(c, revoked.state, ops), tenant, id)
  {
    var op := Oidc.RevokeById(tenant, id);
    var v := Oidc.RevokeToken(t, tenant, id).state;
    assert Step(c, t, OnOidc(op)) == Reply(v, Ok(Nothing));
    var u := Run(c, v, ops);
    var added := UsedBy({}, ops);
    MintsAreNew(used, ops);
    RunGrows(c, v, ops);
    RevocationLeavesDead(t, tenant, id, id);
    DeadStaysDead(used, added, v, u, tenant, id);
    RevokeGrows(t, tenant, id);
    if id in t.refresh {
      GrownShrinks(t, v);
      assert v.now == t.now;
      DeadSecretStaysDead(used, added, t, v, u, tenant, id);
    }
    forall a | a in t.access && t.access[a].parent == Some(id) ensures ReadAccess(u, tenant, a).Err? {
      RevocationLeavesDead(t, tenant, id, a);
      assert a in used;
      DeadStaysDead(used, added, v, u, tenant, a);
    }
    hide Run, Dead, Valid, Nested, Separate, Grown, Oidc.RevokeToken;
  }
}
