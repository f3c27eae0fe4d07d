/** What the token endpoint hands out, and that a code or a refresh token is good for one response. */
module Exchanges {
  import opened Base
  import opened Schema
  import opened Sql
  import opened Values
  import opened Service
  import opened Integrity
  import opened Growth
  import Noninterference
  import Oidc

  /** The pair is in: a refresh token, and an access token under it. */
  ghost predicate PairAdded(c: Config, t: State, u: State, tenant: Tenant, r: Oidc.TokenRequest, m: Oidc.Mints) {
    u == t.(refresh := t.refresh[m.refresh := Oidc.RefreshRow(c, t.now, tenant, r, m.secret)],
            access := t.access[m.access := Oidc.AccessRow(c, t.now, tenant, r, Some(m.refresh))])
  }

  lemma FreshPairIsAdded(c: Config, t: State, tenant: Tenant, r: Oidc.TokenRequest, m: Oidc.Mints)
    requires Unminted(t, m)
    ensures Oidc.CreatePair(c, t, tenant, r, m).result.Ok?
    ensures PairAdded(c, t, Oidc.CreatePair(c, t, tenant, r, m).state, tenant, r, m)
  {
    var row := Oidc.RefreshRow(c, t.now, tenant, r, m.secret);
    assert RefreshWithHash(t, row.hash).None?;
    hide RefreshWithHash;
  }

  lemma DropKeepsUnminted(t: State, m: Oidc.Mints, dead: set<Id>)
    requires Unminted(t, m)
    ensures Unminted(DropRefresh(t, dead), m) && DropRefresh(t, dead).now == t.now
  {
  }

  function Held(row: RefreshToken, narrowed: Option<seq<string>>): RefreshToken {
    if narrowed.Some? then row.(grant := row.grant.(scopes := narrowed.value)) else row
  }

  /** A refresh succeeds exactly when its token reads, and swaps the old grant for the new pair. */
  lemma RefreshSwapsGrants(
    c: Config, t: State, tenant: Tenant, token: Secret, narrowed: Option<seq<string>>, m: Oidc.Mints)
    requires Unminted(t, m)
    ensures
      var r, read := Oidc.RefreshGrant(c, t, tenant, token, narrowed, m), ReadRefresh(t, tenant, token);
      && (r.result.Ok? <==> read.Ok?)
      && (read.Err? ==> r.state == t)
      && (read.Ok? ==>
            PairAdded(c, DropRefresh(t, {read.value.0}), r.state, tenant,
                      Oidc.ForRenewal(read.value.0, Held(read.value.1, narrowed)), m))
  {
    var read := ReadRefresh(t, tenant, token);
    if read.Ok? {
      var (id, row) := read.value;
      assert id in t.refresh && t.refresh[id].tenant == tenant;
      DropKeepsUnminted(t, m, {id});
      FreshPairIsAdded(c, DropRefresh(t, {id}), tenant, Oidc.ForRenewal(id, Held(row, narrowed)), m);
    }
    hide ReadRefresh, DropRefresh, Oidc.CreatePair, PairAdded, Unminted;
  }

  /** The new grant is for the same client, subject, audience and login as the old one. */
  lemma RenewalKeepsTheLogin(
    c: Config, now: Time, tenant: Tenant, id: Id, row: RefreshToken, narrowed: Option<seq<string>>, secret: Secret)
    ensures
      var next := Oidc.RefreshRow(c, now, tenant, Oidc.ForRenewal(id, Held(row, narrowed)), secret);
      && next.grant == (if narrowed.Some? then row.grant.(scopes := narrowed.value) else row.grant)
      && next.amr == row.amr && next.authTime == row.authTime && next.tenant == tenant
      && next.expires == now + c.issuance.refreshExpiry
  {
  }

  lemma RefreshMintsAreFresh(used: set<Id>, t: State, op: Oidc.Op)
    requires (op.Refresh? || op.Exchange?) && Known(used, t) && Fresh(used, OnOidc(op))
    ensures Unminted(t, op.mints)
    ensures op.mints.refresh !in used && op.mints.secret !in used && op.mints.access !in used
    ensures {op.mints.refresh, op.mints.secret, op.mints.access} <= Using(used, OnOidc(op))
  {
    var list := MintsOf(OnOidc(op));
    assert list[0] == op.mints.refresh && list[1] == op.mints.secret && list[2] == op.mints.access;
    assert list[0] in list && list[1] in list && list[2] in list;
    Noninterference.FreshPieces(used, t, op);
  }

  /** Nothing in u answers for the spent grant. */
  ghost predicate Spent(t: State, u: State, tenant: Tenant, id: Id, token: Secret) {
    && ReadRefresh(u, tenant, token).Err? && ReadRefreshById(u, tenant, id).Err?
    && forall a :: a in t.access && t.access[a].parent == Some(id) ==> ReadAccess(u, tenant, a).Err?
  }

  ghost predicate NoTrace(t: State, u: State, id: Id, token: Secret) {
    && id !in u.refresh
    && (forall i :: i in u.refresh ==> u.refresh[i].hash.of != token)
    && (forall a :: a in t.access && t.access[a].parent == Some(id) ==> a !in u.access)
  }

  lemma NoTraceIsSpent(t: State, u: State, tenant: Tenant, id: Id, token: Secret)
    requires NoTrace(t, u, id, token)
    ensures Spent(t, u, tenant, id, token)
  {
    assert RefreshWithHash(u, Sha256(token)).None?;
  }

  lemma SwapLeavesNoTrace(
    c: Config, used: set<Id>, t: State, v: State, tenant: Tenant, id: Id, token: Secret, r: Oidc.TokenRequest,
    m: Oidc.Mints)
    requires UniqueRefreshHashes(t.refresh) && Known(used, t) && id in t.refresh && t.refresh[id].hash == Sha256(token)
    requires m.refresh !in used && m.secret !in used && m.access !in used
    requires PairAdded(c, DropRefresh(t, {id}), v, tenant, r, m)
    ensures NoTrace(t, v, id, token)
  {
    assert t.refresh[id].hash.of in used;
  }

  lemma NoTraceLasts(used: set<Id>, added: set<Id>, t: State, v: State, u: State, id: Id, token: Secret)
    requires NoTrace(t, v, id, token) && Grown(added, v, u) && used !! added
    requires id in used && token in used && forall a :: a in t.access ==> a in used
    ensures NoTrace(t, u, id, token)
  {
  }

  /**
   * A refresh token is good for one response. Once it has been exchanged, in every later state and
   * under every tenant, neither it nor any access token that hung under it resolves.
   */
  lemma {:induction false} RefreshTokensSpendOnce(
    c: Config, used: set<Id>, t: State, op: Oidc.Op, ops: seq<Op>, tenant: Tenant)
    requires Valid(t) && Known(used, t) && op.Refresh? && op.tenant != ""
    requires Fresh(used, OnOidc(op)) && WellMinted(Using(used, OnOidc(op)), ops)
    requires ReadRefresh(t, op.tenant, op.token).Ok?
    ensures
      var r := Step(c, t, OnOidc(op));
      r.result.Ok? && Spent(t, Run(c, r.state, ops), tenant, ReadRefresh(t, op.tenant, op.token).value.0, op.token)
  {
    var v := Oidc.RefreshGrant(c, t, op.tenant, op.token, op.narrowed, op.mints).state;
    assert Step(c, t, OnOidc(op)) == Oidc.RefreshGrant(c, t, op.tenant, op.token, op.narrowed, op.mints);
    var (id, row) := ReadRefresh(t, op.tenant, op.token).value;
    assert id in t.refresh && t.refresh[id] == row && row.hash == Sha256(op.token);
    assert UniqueRefreshHashes(t.refresh) && (forall a :: a in t.access ==> a in used) && id in used &&
      row.hash.of in used;
    RefreshMintsAreFresh(used, t, op);
    RefreshSwapsGrants(c, t, op.tenant, op.token, op.narrowed, op.mints);
    SwapLeavesNoTrace(c, used, t, v, op.tenant, id, op.token, Oidc.ForRenewal(id, Held(row, op.narrowed)), op.mints);
    hide Step, Oidc.RefreshGrant, PairAdded, Valid, Known, NoTrace, Spent, ReadRefresh, UniqueRefreshHashes, Fresh, Run;
    RunGrows(c, v, ops);
    MintsAreNew(Using(used, OnOidc(op)), ops);
    NoTraceLasts(used, UsedBy({}, ops), t, v, Run(c, v, ops), id, op.token);
    NoTraceIsSpent(t, Run(c, v, ops), tenant, id, op.token);
  }

  // ---- authorization codes ----

  lemma ExchangeSwapsRequest(c: Config, t: State, tenant: Tenant, code: Secret, offline: bool, m: Oidc.Mints)
    requires Unminted(t, m)
    ensures
      var r, read := Oidc.ExchangeCode(c, t, tenant, code, offline, m), ReadRequestByCode(t, tenant, code);
      && (r.result.Ok? <==> read.Ok?)
      && (read.Err? ==> r.state == t)
      && (read.Ok? ==>
            var request := Oidc.ForRequest(read.value.0, read.value.1);
            var u := t.(requests := t.requests - {read.value.0});
            if offline then PairAdded(c, u, r.state, tenant, request, m)
            else r.state == u.(access := u.access[m.access := Oidc.AccessRow(c, t.now, tenant, request, None)]))
  {
    var read := ReadRequestByCode(t, tenant, code);
    if read.Ok? {
      var (id, row) := read.value;
      assert id in t.requests && t.requests[id].tenant == tenant;
      FreshPairIsAdded(c, t, tenant, Oidc.ForRequest(id, row), m);
    }
    hide ReadRequestByCode, Oidc.CreatePair, Oidc.RefreshRow, Oidc.AccessRow;
  }

  ghost predicate NoCode(u: State, code: Secret) {
    forall i :: i in u.requests ==> u.requests[i].code != Some(Sha256(code))
  }

  lemma DroppedRequestLeavesNoCode(t: State, u: State, id: Id, code: Secret)
    requires UniqueCodes(t.requests) && id in t.requests && t.requests[id].code == Some(Sha256(code))
    requires u.requests == t.requests - {id}
    ensures NoCode(u, code)
  {
  }

  lemma ExchangeLeavesNoCode(c: Config, t: State, tenant: Tenant, code: Secret, offline: bool, m: Oidc.Mints)
    requires Unminted(t, m) && UniqueCodes(t.requests) && ReadRequestByCode(t, tenant, code).Ok?
    ensures
      var r := Oidc.ExchangeCode(c, t, tenant, code, offline, m);
      r.result.Ok? && NoCode(r.state, code)
  {
    var (id, row) := ReadRequestByCode(t, tenant, code).value;
    assert id in t.requests && t.requests[id].code == Some(Sha256(code));
    ExchangeSwapsRequest(c, t, tenant, code, offline, m);
    hide Oidc.ExchangeCode, Oidc.RefreshRow, Oidc.AccessRow, ReadRequestByCode, NoCode, UniqueCodes;
    DroppedRequestLeavesNoCode(t, Oidc.ExchangeCode(c, t, tenant, code, offline, m).state, id, code);
  }

  lemma NoCodeLasts(used: set<Id>, added: set<Id>, v: State, u: State, code: Secret)
    requires NoCode(v, code) && Grown(added, v, u) && used !! added && code in used
    ensures NoCode(u, code)
  {
  }

  /** An authorization code is good for one response: once exchanged, it never resolves again, under any tenant. */
  lemma AuthorizationCodesSpendOnce(c: Config, used: set<Id>, t: State, op: Oidc.Op, ops: seq<Op>, tenant: Tenant)
    requires Valid(t) && Known(used, t) && op.Exchange? && op.tenant != ""
    requires Fresh(used, OnOidc(op)) && WellMinted(Using(used, OnOidc(op)), ops)
    requires ReadRequestByCode(t, op.tenant, op.code).Ok?
    ensures
      var r := Step(c, t, OnOidc(op));
      r.result.Ok? && ReadRequestByCode(Run(c, r.state, ops), tenant, op.code).Err?
  {
    var v := Oidc.ExchangeCode(c, t, op.tenant, op.code, op.offline, op.mints).state;
    assert Step(c, t, OnOidc(op)) == Oidc.ExchangeCode(c, t, op.tenant, op.code, op.offline, op.mints);
    var (id, row) := ReadRequestByCode(t, op.tenant, op.code).value;
    assert id in t.requests && t.requests[id] == row && row.code == Some(Sha256(op.code));
    RefreshMintsAreFresh(used, t, op);
    assert op.code in used by { assert row.code.value.of in used; }
    ExchangeLeavesNoCode(c, t, op.tenant, op.code, op.offline, op.mints);
    hide Step, Oidc.ExchangeCode, Valid, Known, Fresh, Run, ReadRequestByCode, NoCode, Grown;
    RunGrows(c, v, ops);
    MintsAreNew(Using(used, OnOidc(op)), ops);
    NoCodeLasts(used, UsedBy({}, ops), v, Run(c, v, ops), op.code);
    NoCodeNoRequest(Run(c, v, ops), tenant, op.code);
  }

  lemma NoCodeNoRequest(t: State, tenant: Tenant, code: Secret)
    requires NoCode(t, code)
    ensures ReadRequestByCode(t, tenant, code).Err?
  {
    assert RequestWithCode(t, Sha256(code)).None?;
  }
}
