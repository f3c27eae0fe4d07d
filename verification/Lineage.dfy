/**
 * Refresh rotation, statement by statement. Nothing holds the delete and the two inserts of a
 * renewal together, so here they interleave with every other renewal, revocation and sweep.
 */
module Lineage {
  import opened Base
  import opened Schema
  import opened Sql
  import opened Values
  import opened Service
  import opened Integrity
  import opened Growth
  import opened Revocation
  import Oidc

  // ---- the machine ----

  /**
   * Where a call to CreateAccessAndRefreshTokens stands between its statements: before the delete of
   * the grant it loaded, before its refresh insert, or before its access insert.
   */
  datatype Phase =
    | Renewing(tenant: Tenant, request: Oidc.TokenRequest)
    | Bearing(tenant: Tenant, request: Oidc.TokenRequest, origin: Option<Id>)
    | Issuing(tenant: Tenant, request: Oidc.TokenRequest, parent: Id)

  /** What narrowing scopes leaves alone. */
  datatype Identity = Identity(tenant: Tenant, client: ClientId, subject: Subject, audience: seq<string>)

  function IdentityOf(tenant: Tenant, grant: Grant): Identity {
    Identity(tenant, grant.client, grant.subject, grant.audience)
  }

  /**
   * The database and the calls in flight, with a history: which original grant every refresh id
   * descends from, what that grant was for, and every value minted so far.
   */
  datatype World = World(
    t: State, calls: map<nat, Phase>, origin: map<Id, Id>, kind: map<Id, Identity>, used: set<Id>)

  /** Everything else that may run between two statements. */
  datatype Statement =
    | Serve(op: Op)
    | RevokeRefresh(tenant: Tenant, id: Id)
    | RevokeAccess(tenant: Tenant, id: Id)
    | EndRefresh(tenant: Tenant, subjects: set<Subject>, client: Option<ClientId>)
    | EndAccess(tenant: Tenant, subjects: set<Subject>, client: Option<ClientId>)
    | SweepingAccess
    | SweepingRefresh

  datatype Event =
    | Load(call: nat, tenant: Tenant, token: Secret, narrowed: Option<seq<string>>)
    | Exchange(call: nat, tenant: Tenant, id: Id, request: AuthRequest)
    | Spend(call: nat)
    | Bear(call: nat, id: Id, secret: Secret)
    | Issue(call: nat, id: Id)
    | Write(statement: Statement)

  ghost function Written(c: Config, t: State, s: Statement): State {
    match s
    case Serve(op) => Step(c, t, op).state
    case RevokeRefresh(tenant, id) => DeleteRefresh(t, tenant, id).state
    case RevokeAccess(tenant, id) => DeleteAccess(t, tenant, id).state
    case EndRefresh(tenant, subjects, client) => DropRefreshOf(t, tenant, subjects, client)
    case EndAccess(tenant, subjects, client) => DropAccessOf(t, tenant, subjects, client)
    case SweepingAccess => SweepAccess(t)
    case SweepingRefresh => SweepRefresh(t)
  }

  function Mints(e: Event): set<Id> {
    match e
    case Bear(_, id, secret) => {id, secret}
    case Issue(_, id) => {id}
    case Write(Serve(op)) => set id | id in MintsOf(op)
    case _ => {}
  }

  /** Mints are new, and the token endpoint runs only as the steps here. */
  ghost predicate Allowed(w: World, e: Event) {
    && w.used !! Mints(e)
    && (e.Write? && e.statement.Serve? ==> !MintsTokens(e.statement.op))
  }

  /** TokenRequestByRefreshToken, and the library's narrowing of the scopes. */
  ghost function Loading(w: World, call: nat, tenant: Tenant, token: Secret, narrowed: Option<seq<string>>): World {
    var read := ReadRefresh(w.t, tenant, token);
    if call in w.calls || read.Err? then w
    else
      var (id, row) := read.value;
      var held := if narrowed.Some? then row.(grant := row.grant.(scopes := narrowed.value)) else row;
      w.(calls := w.calls[call := Renewing(tenant, Oidc.ForRenewal(id, held))])
  }

  /** A code exchange deletes nothing: it starts a lineage of its own. */
  ghost function Exchanging(w: World, call: nat, tenant: Tenant, id: Id, request: AuthRequest): World {
    if call in w.calls then w
    else w.(calls := w.calls[call := Bearing(tenant, Oidc.ForRequest(id, request), None)])
  }

  ghost function Spending(w: World, call: nat): World {
    if !(call in w.calls && w.calls[call].Renewing?) then w
    else
      var p := w.calls[call];
      var r := DeleteRefresh(w.t, p.tenant, p.request.id);
      if r.result.Ok? && p.request.id in w.origin
      then w.(t := r.state, calls := w.calls[call := Bearing(p.tenant, p.request, Some(w.origin[p.request.id]))])
      else w.(calls := w.calls - {call})
  }

  ghost function BearingNow(c: Config, w: World, call: nat, id: Id, secret: Secret): World {
    if !(call in w.calls && w.calls[call].Bearing?) then w
    else
      var p := w.calls[call];
      var r := InsertRefresh(w.t, id, Oidc.RefreshRow(c, w.t.now, p.tenant, p.request, secret));
      if r.result.Err? then w.(calls := w.calls - {call})
      else
        var root := if p.origin.Some? then p.origin.value else id;
        w.(t := r.state, calls := w.calls[call := Issuing(p.tenant, p.request, id)], origin := w.origin[id := root],
           kind := if p.origin.Some? then w.kind else w.kind[id := IdentityOf(p.tenant, Oidc.GrantFor(p.request))])
  }

  ghost function IssuingNow(c: Config, w: World, call: nat, id: Id): World {
    if !(call in w.calls && w.calls[call].Issuing?) then w
    else
      var p := w.calls[call];
      var r := InsertAccess(w.t, id, Oidc.AccessRow(c, w.t.now, p.tenant, p.request, Some(p.parent)));
      w.(t := r.state, calls := w.calls - {call})
  }

  ghost function Next(c: Config, w: World, e: Event): World {
    var v := w.(used := w.used + Mints(e));
    match e
    case Load(call, tenant, token, narrowed) => Loading(v, call, tenant, token, narrowed)
    case Exchange(call, tenant, id, request) => Exchanging(v, call, tenant, id, request)
    case Spend(call) => Spending(v, call)
    case Bear(call, id, secret) => BearingNow(c, v, call, id, secret)
    case Issue(call, id) => IssuingNow(c, v, call, id)
    case Write(s) => v.(t := Written(c, w.t, s))
  }

  ghost predicate AllAllowed(c: Config, w: World, es: seq<Event>)
    decreases |es|
  {
    es == [] || (Allowed(w, es[0]) && AllAllowed(c, Next(c, w, es[0]), es[1..]))
  }

  ghost function Play(c: Config, w: World, es: seq<Event>): World
    decreases |es|
  {
    if es == [] then w else Play(c, Next(c, w, es[0]), es[1..])
  }

  // ---- the invariant ----

  /** History covers the rows, and nothing of it is new. */
  ghost predicate Recorded(w: World) {
    && (forall i :: i in w.t.refresh ==> i in w.origin && i in w.used)
    && (forall i :: i in w.origin ==> i in w.used && w.origin[i] in w.used && w.origin[i] in w.kind)
  }

  /** Every refresh row and every call of a lineage is for what its original grant was for. */
  ghost predicate SameKind(w: World) {
    && (forall i :: i in w.t.refresh && i in w.origin && w.origin[i] in w.kind ==>
          IdentityOf(w.t.refresh[i].tenant, w.t.refresh[i].grant) == w.kind[w.origin[i]])
    && (forall p :: p in w.calls && w.calls[p].Renewing? ==>
          && w.calls[p].request.ForRenewal? && w.calls[p].request.id in w.origin &&
               w.origin[w.calls[p].request.id] in w.kind
          && IdentityOf(w.calls[p].tenant, Oidc.GrantFor(w.calls[p].request)) ==
               w.kind[w.origin[w.calls[p].request.id]])
    && (forall p :: p in w.calls && w.calls[p].Bearing? && w.calls[p].origin.Some? ==>
          && w.calls[p].origin.value in w.used && w.calls[p].origin.value in w.kind
          && IdentityOf(w.calls[p].tenant, Oidc.GrantFor(w.calls[p].request)) == w.kind[w.calls[p].origin.value])
  }

  /** A call past its delete and before its insert carries its lineage alone. */
  ghost predicate Carries(w: World, p: nat, o: Id) {
    p in w.calls && w.calls[p].Bearing? && w.calls[p].origin == Some(o)
  }

  ghost predicate Descends(w: World, i: Id, o: Id) {
    i in w.t.refresh && i in w.origin && w.origin[i] == o
  }

  /** At most one holder of each lineage: a live row, or one call carrying it. */
  ghost predicate Single(w: World) {
    && (forall i, j, o :: Descends(w, i, o) && Descends(w, j, o) ==> i == j)
    && (forall p, q, o :: Carries(w, p, o) && Carries(w, q, o) ==> p == q)
    && (forall i, p, o :: Descends(w, i, o) ==> !Carries(w, p, o))
  }

  /** A call that has its refresh row in still finds it for the same grant, or gone. */
  ghost predicate Parented(w: World) {
    forall p :: p in w.calls && w.calls[p].Issuing? ==>
      && w.calls[p].parent in w.used
      && (w.calls[p].parent in w.t.refresh ==>
            && w.t.refresh[w.calls[p].parent].tenant == w.calls[p].tenant
            && w.t.refresh[w.calls[p].parent].grant == Oidc.GrantFor(w.calls[p].request))
  }

  ghost predicate Inv(w: World) {
    Recorded(w) && SameKind(w) && Single(w) && Parented(w) && Valid(w.t)
  }

  /** A database at rest: every grant starts its own lineage. */
  ghost function Start(t: State, used: set<Id>): World {
    World(t, map[], map i | i in t.refresh :: i,
          map i | i in t.refresh :: IdentityOf(t.refresh[i].tenant, t.refresh[i].grant), used)
  }

  lemma StartHolds(t: State, used: set<Id>)
    requires Valid(t) && Known(used, t)
    ensures Inv(Start(t, used))
  {
  }

  // ---- each step keeps it ----

  lemma DropShrinks(t: State, dead: set<Id>)
    ensures Shrunk(t, DropRefresh(t, dead))
  {
  }

  lemma DeleteAccessShrinks(t: State, tenant: Tenant, id: Id)
    ensures Shrunk(t, DeleteAccess(t, tenant, id).state)
  {
  }

  lemma AccessFiltersShrink(t: State, tenant: Tenant, subjects: set<Subject>, client: Option<ClientId>)
    ensures Shrunk(t, DropAccessOf(t, tenant, subjects, client))
    ensures Shrunk(t, SweepAccess(t))
  {
  }

  lemma WrittenShrinks(c: Config, t: State, s: Statement)
    requires s.Serve? ==> !MintsTokens(s.op)
    ensures Shrunk(t, Written(c, t, s))
  {
    TimeShrinks(t, t);
    hide Shrunk, Step, DropRefresh, DeleteAccess, DropAccessOf, SweepAccess;
    match s
    case Serve(op) => StepShrinks(c, t, op);
    case RevokeRefresh(tenant, id) => DropShrinks(t, {id});
    case RevokeAccess(tenant, id) => DeleteAccessShrinks(t, tenant, id);
    case EndRefresh(tenant, subjects, client) =>
      DropShrinks(t,
                  set i | i in t.refresh && Covers(tenant, subjects, client, t.refresh[i].tenant, t.refresh[i].grant));
    case EndAccess(tenant, subjects, client) => AccessFiltersShrink(t, tenant, subjects, client);
    case SweepingAccess => AccessFiltersShrink(t, "", {}, None);
    case SweepingRefresh => DropShrinks(t, ExpiredRefresh(t));
  }

  lemma WrittenValid(c: Config, t: State, s: Statement)
    requires Valid(t)
    ensures Valid(Written(c, t, s))
  {
    hide Valid, Step, DropRefresh, DropAccessOf, SweepAccess, DeleteRefresh, DeleteAccess;
    match s
    case Serve(op) => StepKeepsValid(c, t, op);
    case RevokeRefresh(tenant, id) => DeleteRefreshKeepsValid(t, tenant, id);
    case RevokeAccess(tenant, id) => DeleteAccessKeepsValid(t, tenant, id);
    case EndRefresh(tenant, subjects, client) =>
      DropRefreshKeepsValid(t,
        set i | i in t.refresh && Covers(tenant, subjects, client, t.refresh[i].tenant, t.refresh[i].grant));
    case EndAccess(tenant, subjects, client) => DropAccessOfKeepsValid(t, tenant, subjects, client);
    case SweepingAccess => SweepAccessKeepsValid(t);
    case SweepingRefresh => DropRefreshKeepsValid(t, ExpiredRefresh(t));
  }

  lemma SweepAccessKeepsValid(t: State)
    requires Valid(t)
    ensures Valid(SweepAccess(t))
  {
  }

  lemma UsingMoreKeeps(w: World, more: set<Id>)
    requires Inv(w)
    ensures Inv(w.(used := w.used + more))
  {
    var v := w.(used := w.used + more);
    SingleShrinks(w, v);
    hide Valid, Single;
  }

  lemma SingleShrinks(w: World, v: World)
    requires Single(w) && v.origin == w.origin && v.t.refresh.Keys <= w.t.refresh.Keys
    requires forall p, o :: Carries(v, p, o) ==> Carries(w, p, o)
    ensures Single(v)
  {
    assert forall i, o :: Descends(v, i, o) ==> Descends(w, i, o);
    hide Carries;
  }

  ghost predicate Remains(w: World, v: World) {
    && v.origin == w.origin && v.kind == w.kind && v.used == w.used
    && (forall i :: i in v.t.refresh ==> i in w.t.refresh && v.t.refresh[i] == w.t.refresh[i])
    && (forall p :: p in v.calls ==> p in w.calls && v.calls[p] == w.calls[p])
  }

  lemma RemainsKeepsHistory(w: World, v: World)
    requires Remains(w, v) && Recorded(w) && Parented(w)
    ensures Recorded(v) && Parented(v)
  {
    hide Oidc.GrantFor;
  }

  lemma RemainsKeepsKind(w: World, v: World)
    requires Remains(w, v) && SameKind(w)
    ensures SameKind(v)
  {
    hide Oidc.GrantFor, IdentityOf;
  }

  lemma RemainsKeeps(w: World, v: World)
    requires Remains(w, v) && Inv(w) && Valid(v.t)
    ensures Inv(v)
  {
    RemainsKeepsHistory(w, v);
    RemainsKeepsKind(w, v);
    assert v.t.refresh.Keys <= w.t.refresh.Keys;
    SingleShrinks(w, v);
    hide Valid, Single, SameKind, Recorded, Parented;
  }

  lemma CallKeepsHistory(w: World, call: nat, p: Phase)
    requires Recorded(w) && Parented(w) && !p.Issuing?
    ensures var v := w.(calls := w.calls[call := p]); Recorded(v) && Parented(v)
  {
    hide Oidc.GrantFor;
  }

  lemma LoadKeepsKind(w: World, call: nat, tenant: Tenant, token: Secret, narrowed: Option<seq<string>>)
    requires Recorded(w) && SameKind(w)
    ensures SameKind(Loading(w, call, tenant, token, narrowed))
  {
    var read := ReadRefresh(w.t, tenant, token);
    if read.Ok? {
      assert read.value.0 in w.t.refresh && w.t.refresh[read.value.0] == read.value.1 && read.value.1.tenant == tenant;
    }
    hide ReadRefresh;
  }

  lemma LoadKeeps(w: World, call: nat, tenant: Tenant, token: Secret, narrowed: Option<seq<string>>)
    requires Inv(w)
    ensures Inv(Loading(w, call, tenant, token, narrowed))
  {
    var v := Loading(w, call, tenant, token, narrowed);
    LoadKeepsKind(w, call, tenant, token, narrowed);
    hide Valid, ReadRefresh, Single, SameKind, Recorded, Parented;
    SingleShrinks(w, v);
    if v != w { CallKeepsHistory(w, call, v.calls[call]); }
  }

  lemma ExchangeKeeps(w: World, call: nat, tenant: Tenant, id: Id, request: AuthRequest)
    requires Inv(w)
    ensures Inv(Exchanging(w, call, tenant, id, request))
  {
    hide Valid, Single;
    SingleShrinks(w, Exchanging(w, call, tenant, id, request));
  }

  lemma DeletedRow(t: State, tenant: Tenant, id: Id)
    ensures
      var r := DeleteRefresh(t, tenant, id);
      && (r.result.Ok? <==> id in t.refresh && t.refresh[id].tenant == tenant)
      && (r.result.Ok? ==> r.state.refresh == t.refresh - {id})
      && (r.result.Err? ==> r.state == t)
  {
  }

  lemma SpendKeeps(w: World, call: nat)
    requires Inv(w)
    ensures Inv(Spending(w, call))
  {
    if call in w.calls && w.calls[call].Renewing? {
      DeleteRefreshKeepsValid(w.t, w.calls[call].tenant, w.calls[call].request.id);
      SpendKeepsSingle(w, call);
      SpendKeepsKind(w, call);
      SpendKeepsHistory(w, call);
    }
    hide Valid, Single, SameKind, Recorded, Parented, DeleteRefresh;
  }

  lemma SpendKeepsSingle(w: World, call: nat)
    requires Recorded(w) && Single(w) && call in w.calls && w.calls[call].Renewing?
    ensures Single(Spending(w, call))
  {
    var p, v := w.calls[call], Spending(w, call);
    var id := p.request.id;
    DeletedRow(w.t, p.tenant, id);
    hide DeleteRefresh;
    assert forall q, o :: Carries(v, q, o) && q != call ==> Carries(w, q, o);
    if DeleteRefresh(w.t, p.tenant, id).result.Ok? {
      assert Descends(w, id, w.origin[id]);
      assert forall o :: !Descends(v, id, o);
      assert forall i, o :: Descends(v, i, o) ==> Descends(w, i, o);
      assert forall o :: Carries(v, call, o) ==> o == w.origin[id];
      hide Descends, Carries;
    } else {
      assert forall o :: !Carries(v, call, o);
      SingleShrinks(w, v);
      hide Descends, Carries, Single;
    }
  }

  lemma SpendKeepsKind(w: World, call: nat)
    requires Recorded(w) && SameKind(w) && call in w.calls && w.calls[call].Renewing?
    ensures SameKind(Spending(w, call))
  {
    DeletedRow(w.t, w.calls[call].tenant, w.calls[call].request.id);
    hide DeleteRefresh, IdentityOf, Oidc.GrantFor;
  }

  lemma SpendKeepsHistory(w: World, call: nat)
    requires Recorded(w) && Parented(w) && call in w.calls && w.calls[call].Renewing?
    ensures Recorded(Spending(w, call)) && Parented(Spending(w, call))
  {
    DeletedRow(w.t, w.calls[call].tenant, w.calls[call].request.id);
    hide DeleteRefresh, Oidc.GrantFor;
  }

  lemma InsertedOrNot(t: State, id: Id, row: RefreshToken)
    ensures
      var r := InsertRefresh(t, id, row);
      r.state == if r.result.Ok? then t.(refresh := t.refresh[id := row]) else t
  {
    hide RefreshWithHash;
  }

  /** An id no row, call or lineage has had before. */
  ghost predicate NewId(w: World, id: Id) {
    && id !in w.t.refresh && id !in w.origin
    && (forall i :: i in w.origin ==> w.origin[i] != id)
    && (forall p :: p in w.calls && w.calls[p].Bearing? ==> w.calls[p].origin != Some(id))
    && (forall p :: p in w.calls && w.calls[p].Issuing? ==> w.calls[p].parent != id)
  }

  lemma UnusedIsNew(w: World, id: Id)
    requires Recorded(w) && SameKind(w) && Parented(w) && id !in w.used
    ensures NewId(w, id)
  {
    hide IdentityOf, Oidc.GrantFor;
  }

  lemma BearKeeps(c: Config, w: World, call: nat, id: Id, secret: Secret)
    requires Inv(w) && NewId(w, id) && id in w.used
    ensures Inv(BearingNow(c, w, call, id, secret))
  {
    if call in w.calls && w.calls[call].Bearing? {
      var p := w.calls[call];
      InsertRefreshKeepsValid(w.t, id, Oidc.RefreshRow(c, w.t.now, p.tenant, p.request, secret));
      assert w.t == BearingNow(c, w, call, id, secret).t ||
             InsertRefresh(w.t, id, Oidc.RefreshRow(c, w.t.now, p.tenant, p.request, secret)).state ==
               BearingNow(c, w, call, id, secret).t;
      BearKeepsSingle(c, w, call, id, secret);
      BearKeepsKind(c, w, call, id, secret);
      BearKeepsHistory(c, w, call, id, secret);
      BearKeepsParents(c, w, call, id, secret);
      hide BearingNow;
    }
    hide Valid, InsertRefresh, Oidc.RefreshRow, Single, SameKind, Parented, Recorded, NewId;
  }

  lemma BearKeepsSingle(c: Config, w: World, call: nat, id: Id, secret: Secret)
    requires Single(w) && NewId(w, id) && call in w.calls && w.calls[call].Bearing?
    ensures Single(BearingNow(c, w, call, id, secret))
  {
    var p, v := w.calls[call], BearingNow(c, w, call, id, secret);
    InsertedOrNot(w.t, id, Oidc.RefreshRow(c, w.t.now, p.tenant, p.request, secret));
    hide InsertRefresh, Oidc.RefreshRow;
    assert forall q, o :: Carries(v, q, o) ==> q != call && Carries(w, q, o);
    if v.t == w.t && v.origin == w.origin {
      SingleShrinks(w, v);
    } else {
      assert forall i, o :: Descends(v, i, o) && i != id ==> Descends(w, i, o);
      assert forall o :: Descends(v, id, o) ==> Carries(w, call, o) || o == id;
      assert forall i :: !Descends(w, i, id);
      assert forall q :: !Carries(w, q, id);
    }
    hide Descends, Carries, NewId;
  }

  /** The refresh row goes in as the row of the lineage its call carried. */
  lemma BearOldKind(w: World, call: nat, id: Id, row: RefreshToken, o: Id)
    requires SameKind(w) && NewId(w, id) && id in w.used && Carries(w, call, o)
    requires row.tenant == w.calls[call].tenant && row.grant == Oidc.GrantFor(w.calls[call].request)
    ensures
      var p := w.calls[call];
      SameKind(w.(t := w.t.(refresh := w.t.refresh[id := row]),
                  calls := w.calls[call := Issuing(p.tenant, p.request, id)],
                  origin := w.origin[id := o]))
  {
    hide IdentityOf, Oidc.GrantFor;
  }

  /** ... or as the first of its own. */
  lemma BearNewKind(w: World, call: nat, id: Id, row: RefreshToken)
    requires SameKind(w) && NewId(w, id) && id in w.used && call in w.calls && w.calls[call].Bearing?
    requires row.tenant == w.calls[call].tenant && row.grant == Oidc.GrantFor(w.calls[call].request)
    ensures
      var p := w.calls[call];
      SameKind(w.(t := w.t.(refresh := w.t.refresh[id := row]),
                  calls := w.calls[call := Issuing(p.tenant, p.request, id)],
                  origin := w.origin[id := id], kind := w.kind[id := IdentityOf(p.tenant, Oidc.GrantFor(p.request))]))
  {
    hide IdentityOf, Oidc.GrantFor;
  }

  lemma BearKeepsKind(c: Config, w: World, call: nat, id: Id, secret: Secret)
    requires SameKind(w) && NewId(w, id) && id in w.used && call in w.calls && w.calls[call].Bearing?
    ensures SameKind(BearingNow(c, w, call, id, secret))
  {
    var p, v := w.calls[call], BearingNow(c, w, call, id, secret);
    var row := Oidc.RefreshRow(c, w.t.now, p.tenant, p.request, secret);
    InsertedOrNot(w.t, id, row);
    assert row.tenant == p.tenant && row.grant == Oidc.GrantFor(p.request);
    hide InsertRefresh, Oidc.RefreshRow, IdentityOf, Oidc.GrantFor, SameKind, NewId;
    if InsertRefresh(w.t, id, row).result.Err? {
      RemainsKeepsKind(w, v);
    } else if p.origin.Some? {
      BearOldKind(w, call, id, row, p.origin.value);
    } else {
      BearNewKind(w, call, id, row);
    }
  }

  lemma BearKeepsHistory(c: Config, w: World, call: nat, id: Id, secret: Secret)
    requires Recorded(w) && SameKind(w) && NewId(w, id) && id in w.used && call in w.calls && w.calls[call].Bearing?
    ensures Recorded(BearingNow(c, w, call, id, secret))
  {
    InsertedOrNot(w.t, id, Oidc.RefreshRow(c, w.t.now, w.calls[call].tenant, w.calls[call].request, secret));
    hide InsertRefresh, Oidc.RefreshRow, IdentityOf, Oidc.GrantFor;
  }

  lemma BearKeepsParents(c: Config, w: World, call: nat, id: Id, secret: Secret)
    requires Parented(w) && NewId(w, id) && id in w.used && call in w.calls && w.calls[call].Bearing?
    ensures Parented(BearingNow(c, w, call, id, secret))
  {
    var p := w.calls[call];
    var row := Oidc.RefreshRow(c, w.t.now, p.tenant, p.request, secret);
    InsertedOrNot(w.t, id, row);
    assert row.tenant == p.tenant && row.grant == Oidc.GrantFor(p.request);
    hide InsertRefresh, Oidc.RefreshRow, IdentityOf, Oidc.GrantFor;
  }

  lemma IssueKeeps(c: Config, w: World, call: nat, id: Id)
    requires Inv(w)
    ensures Inv(IssuingNow(c, w, call, id))
  {
    var v := IssuingNow(c, w, call, id);
    if call in w.calls && w.calls[call].Issuing? {
      var p := w.calls[call];
      var row := Oidc.AccessRow(c, w.t.now, p.tenant, p.request, Some(p.parent));
      InsertAccessKeepsValid(w.t, id, row);
      assert InsertAccess(w.t, id, row).state.refresh == w.t.refresh;
      hide InsertAccess, Oidc.AccessRow, Valid;
      RemainsKeeps(w, v);
    }
    hide Inv;
  }

  lemma WriteKeeps(c: Config, w: World, s: Statement)
    requires Inv(w) && (s.Serve? ==> !MintsTokens(s.op))
    ensures Inv(w.(t := Written(c, w.t, s)))
  {
    var v := w.(t := Written(c, w.t, s));
    WrittenShrinks(c, w.t, s);
    assert Valid(w.t);
    WrittenValid(c, w.t, s);
    hide Valid, Written, Inv;
    RemainsKeeps(w, v);
  }

  lemma NextKeeps(c: Config, w: World, e: Event)
    requires Inv(w) && Allowed(w, e)
    ensures Inv(Next(c, w, e))
  {
    var v := w.(used := w.used + Mints(e));
    UsingMoreKeeps(w, Mints(e));
    if e.Bear? {
      assert e.id in Mints(e);
      UnusedIsNew(w, e.id);
      assert NewId(v, e.id);
    }
    hide Inv, NewId, Loading, Exchanging, Spending, BearingNow, IssuingNow, Written;
    match e
    case Load(call, tenant, token, narrowed) => LoadKeeps(v, call, tenant, token, narrowed);
    case Exchange(call, tenant, id, request) => ExchangeKeeps(v, call, tenant, id, request);
    case Spend(call) => SpendKeeps(v, call);
    case Bear(call, id, secret) => BearKeeps(c, v, call, id, secret);
    case Issue(call, id) => IssueKeeps(c, v, call, id);
    case Write(s) => WriteKeeps(c, v, s);
  }

  lemma {:induction false} PlayKeeps(c: Config, w: World, es: seq<Event>)
    requires Inv(w) && AllAllowed(c, w, es)
    ensures Inv(Play(c, w, es))
    decreases |es|
  {
    hide Next, Inv, Allowed;
    if es != [] {
      NextKeeps(c, w, es[0]);
      PlayKeeps(c, Next(c, w, es[0]), es[1..]);
    }
  }

  // ---- linear lineages ----

  ghost function Rows(w: World, o: Id): set<Id> {
    set i | i in w.t.refresh && Descends(w, i, o)
  }

  ghost function Carriers(w: World, o: Id): set<nat> {
    set p | p in w.calls && Carries(w, p, o)
  }

  lemma AtMostOne(s: set<nat>)
    requires forall x, y :: x in s && y in s ==> x == y
    ensures |s| <= 1
  {
    if x :| x in s {
      assert s == {x};
    }
  }

  /**
   * Lineages are linear. However renewals, revocations, logouts, credential changes and sweeps
   * interleave, statement by statement: of each original grant there is at most one live refresh
   * token or one renewal past its delete and before its insert, and every row of it is for the
   * tenant, client, subject and audience of that grant.
   */
  lemma {:induction false} LineagesAreLinear(c: Config, t: State, used: set<Id>, es: seq<Event>, o: Id)
    requires Valid(t) && Known(used, t) && AllAllowed(c, Start(t, used), es)
    ensures
      var w := Play(c, Start(t, used), es);
      && |Rows(w, o)| + |Carriers(w, o)| <= 1
      && Valid(w.t)
      && forall i :: i in Rows(w, o) ==>
           o in w.kind && IdentityOf(w.t.refresh[i].tenant, w.t.refresh[i].grant) == w.kind[o]
  {
    StartHolds(t, used);
    PlayKeeps(c, Start(t, used), es);
    HeldOnce(Play(c, Start(t, used), es), o);
    hide Play, Start, Valid, AllAllowed, Single, SameKind, Parented, Recorded, Rows, Carriers, IdentityOf;
  }

  lemma HeldOnce(w: World, o: Id)
    requires Recorded(w) && SameKind(w) && Single(w)
    ensures |Rows(w, o)| + |Carriers(w, o)| <= 1
    ensures forall i :: i in Rows(w, o) ==>
              o in w.kind && IdentityOf(w.t.refresh[i].tenant, w.t.refresh[i].grant) == w.kind[o]
  {
    AtMostOne(Rows(w, o));
    AtMostOne(Carriers(w, o));
    if i :| i in Rows(w, o) {
      assert Carriers(w, o) == {};
    }
    hide IdentityOf;
  }

  /** Two renewals of one token: whichever deletes first goes on, the other fails for good. */
  lemma OneRenewalWins(w: World, p: nat, q: nat)
    requires Inv(w) && p != q && p in w.calls && q in w.calls && w.calls[p].Renewing? && w.calls[q].Renewing?
    requires w.calls[p].request.id == w.calls[q].request.id && w.calls[p].tenant == w.calls[q].tenant
    ensures
      var v := Spending(Spending(w, p), q);
      && q !in v.calls
      && (p in v.calls <==>
          w.calls[p].request.id in w.t.refresh && w.t.refresh[w.calls[p].request.id].tenant == w.calls[p].tenant)
      && (p in v.calls ==> v.calls[p].Bearing?)
  {
    var id := w.calls[p].request.id;
    DeletedRow(w.t, w.calls[p].tenant, id);
    DeletedRow(Spending(w, p).t, w.calls[q].tenant, id);
    hide DeleteRefresh, Valid, Single, SameKind, Parented;
  }

  // ---- the steps are the operations ----

  lemma SpendsWhatItLoaded(w: World, call: nat, tenant: Tenant, token: Secret, narrowed: Option<seq<string>>)
    requires Recorded(w) && call !in w.calls && ReadRefresh(w.t, tenant, token).Ok?
    ensures
      var (id, row) := ReadRefresh(w.t, tenant, token).value;
      var held := if narrowed.Some? then row.(grant := row.grant.(scopes := narrowed.value)) else row;
      var v := Spending(Loading(w, call, tenant, token, narrowed), call);
      && DeleteRefresh(w.t, tenant, id).result.Ok?
      && v.t == DeleteRefresh(w.t, tenant, id).state
      && call in v.calls && v.calls[call].Bearing?
      && v.calls[call].tenant == tenant && v.calls[call].request == Oidc.ForRenewal(id, held)
  {
    var (id, row) := ReadRefresh(w.t, tenant, token).value;
    assert id in w.t.refresh && w.t.refresh[id].tenant == tenant;
    DeletedRow(w.t, tenant, id);
    hide ReadRefresh, DeleteRefresh;
  }

  /** The two inserts of a call that bears are the pair of the atomic operation, with its failures. */
  lemma BearsThePair(c: Config, w: World, call: nat, m: Oidc.Mints)
    requires call in w.calls && w.calls[call].Bearing?
    ensures
      var (p, v) := (w.calls[call], IssuingNow(c, BearingNow(c, w, call, m.refresh, m.secret), call, m.access));
      v.t == Oidc.CreatePair(c, w.t, p.tenant, p.request, m).state
  {
    hide Oidc.RefreshRow, Oidc.AccessRow, RefreshWithHash, IdentityOf, Oidc.GrantFor;
  }

  /** With nothing in between, a renewal's load, delete and two inserts leave what the refresh grant leaves. */
  lemma StepsRefineRefresh(
    c: Config, w: World, call: nat, tenant: Tenant, token: Secret, narrowed: Option<seq<string>>, m: Oidc.Mints)
    requires Recorded(w) && call !in w.calls
    ensures
      var spent := Spending(Loading(w, call, tenant, token, narrowed), call);
      var v := IssuingNow(c, BearingNow(c, spent, call, m.refresh, m.secret), call, m.access);
      v.t == Oidc.RefreshGrant(c, w.t, tenant, token, narrowed, m).state
  {
    if ReadRefresh(w.t, tenant, token).Ok? {
      SpendsWhatItLoaded(w, call, tenant, token, narrowed);
      BearsThePair(c, Spending(Loading(w, call, tenant, token, narrowed), call), call, m);
    }
    hide ReadRefresh, DeleteRefresh, Oidc.CreatePair, Recorded;
  }

  /** ... and an exchange's inserts and the delete of its request what the code exchange leaves. */
  lemma StepsRefineExchange(c: Config, w: World, call: nat, tenant: Tenant, code: Secret, m: Oidc.Mints)
    requires call !in w.calls && ReadRequestByCode(w.t, tenant, code).Ok?
    ensures
      var (id, row) := ReadRequestByCode(w.t, tenant, code).value;
      var borne := BearingNow(c, Exchanging(w, call, tenant, id, row), call, m.refresh, m.secret);
      var v := IssuingNow(c, borne, call, m.access);
      var atomic := Oidc.ExchangeCode(c, w.t, tenant, code, true, m);
      atomic.state == if atomic.result.Ok? then DeleteRequest(v.t, tenant, id).state else v.t
  {
    var (id, row) := ReadRequestByCode(w.t, tenant, code).value;
    BearsThePair(c, Exchanging(w, call, tenant, id, row), call, m);
    hide ReadRequestByCode, Oidc.CreatePair, BearingNow, IssuingNow;
  }

  // ---- what becomes of the access token ----

  /** A grant revoked between the two inserts issues nothing: the foreign key refuses the token. */
  lemma RevokedGrantIssuesNothing(c: Config, w: World, p: nat, id: Id)
    requires p in w.calls && w.calls[p].Issuing? && w.calls[p].parent !in w.t.refresh
    ensures IssuingNow(c, w, p, id).t == w.t
  {
  }

  /**
   * Statement by statement, access expiry not above refresh expiry is not enough for a token to
   * end before its grant: the time that passed between the two inserts counts as well.
   */
  lemma InterleavedTokenNestsIff(c: Config, w: World, call: nat, id: Id, secret: Secret, delay: nat, access: Id)
    requires call in w.calls && w.calls[call].Bearing? && access !in w.t.access
    requires InsertRefresh(w.t, id,
                           Oidc.RefreshRow(c, w.t.now, w.calls[call].tenant, w.calls[call].request, secret)).result.Ok?
    ensures
      var borne := BearingNow(c, w, call, id, secret);
      var later := borne.(t := borne.t.(now := borne.t.now + delay));
      var v := IssuingNow(c, later, call, access);
      && access in v.t.access && v.t.access[access].parent == Some(id) && id in v.t.refresh
      && (v.t.access[access].expires <= v.t.refresh[id].expires <==>
          delay + c.issuance.accessExpiry <= c.issuance.refreshExpiry)
  {
    InsertedOrNot(w.t, id, Oidc.RefreshRow(c, w.t.now, w.calls[call].tenant, w.calls[call].request, secret));
    hide InsertRefresh;
  }
}
