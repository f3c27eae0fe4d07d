/**
 * Ending a grant, statement by statement: what stays ended, and which call in flight puts a token
 * of the account back after it.
 */
module Endings {
  import opened Base
  import opened Schema
  import opened Sql
  import opened Values
  import opened Service
  import opened Integrity
  import opened Growth
  import opened Revocation
  import opened Lineage
  import Accounts
  import Finality
  import Oidc

  // ---- secrets in the table have been minted ----

  ghost predicate Hashed(w: World) {
    forall i :: i in w.t.refresh ==> w.t.refresh[i].hash.of in w.used
  }

  lemma BearHashed(c: Config, w: World, call: nat, id: Id, secret: Secret)
    requires Hashed(w) && secret in w.used
    ensures Hashed(BearingNow(c, w, call, id, secret))
  {
    if call in w.calls && w.calls[call].Bearing? {
      var p := w.calls[call];
      var row := Oidc.RefreshRow(c, w.t.now, p.tenant, p.request, secret);
      InsertedOrNot(w.t, id, row);
      assert row.hash.of == secret;
      hide InsertRefresh, Oidc.RefreshRow, IdentityOf, Oidc.GrantFor;
    }
  }

  lemma FewerRowsHashed(w: World, v: World)
    requires Hashed(w) && w.used <= v.used && FewerRows(w, v)
    ensures Hashed(v)
  {
  }

  /** Everything but the refresh insert only takes refresh rows away, and forgets no history. */
  ghost predicate FewerRows(w: World, v: World) {
    v.origin == w.origin && forall i :: i in v.t.refresh ==> i in w.t.refresh && v.t.refresh[i] == w.t.refresh[i]
  }

  lemma NextTakesRows(c: Config, w: World, e: Event)
    requires Allowed(w, e) && !e.Bear?
    ensures FewerRows(w, Next(c, w, e)) && w.used <= Next(c, w, e).used
  {
    if e.Write? {
      WrittenShrinks(c, w.t, e.statement);
    }
    if e.Spend? && e.call in w.calls && w.calls[e.call].Renewing? {
      DeletedRow(w.t, w.calls[e.call].tenant, w.calls[e.call].request.id);
    }
    if e.Issue? { IssueLeavesRows(c, w.(used := w.used + Mints(e)), e.call, e.id); }
    hide Written, DeleteRefresh, IssuingNow, ReadRefresh;
  }

  lemma IssueLeavesRows(c: Config, w: World, call: nat, id: Id)
    ensures IssuingNow(c, w, call, id).t.refresh == w.t.refresh
    ensures var v := IssuingNow(c, w, call, id); v.origin == w.origin && v.used == w.used
  {
    hide Oidc.AccessRow;
  }

  lemma NextHashed(c: Config, w: World, e: Event)
    requires Hashed(w) && Allowed(w, e)
    ensures Hashed(Next(c, w, e))
  {
    if e.Bear? {
      assert Hashed(w.(used := w.used + Mints(e)));
      BearHashed(c, w.(used := w.used + Mints(e)), e.call, e.id, e.secret);
      hide BearingNow;
    } else {
      NextTakesRows(c, w, e);
      FewerRowsHashed(w, Next(c, w, e));
      hide Next, Hashed, FewerRows;
    }
  }

  lemma {:induction false} PlayHashed(c: Config, w: World, es: seq<Event>)
    requires Hashed(w) && AllAllowed(c, w, es)
    ensures Hashed(Play(c, w, es))
    decreases |es|
  {
    hide Next, Hashed, Allowed;
    if es != [] {
      NextHashed(c, w, es[0]);
      PlayHashed(c, Next(c, w, es[0]), es[1..]);
    }
  }

  /** What the theorems here ask of a world holds in every one that is reached from a database at rest. */
  lemma ReachedIsSound(c: Config, t: State, used: set<Id>, es: seq<Event>)
    requires Valid(t) && Known(used, t) && AllAllowed(c, Start(t, used), es)
    ensures Inv(Play(c, Start(t, used), es)) && Hashed(Play(c, Start(t, used), es))
  {
    StartHolds(t, used);
    assert Hashed(Start(t, used));
    PlayKeeps(c, Start(t, used), es);
    PlayHashed(c, Start(t, used), es);
    hide Inv, Hashed, Play, AllAllowed, Start;
  }

  // ---- a lineage that is over ----

  /** No row descends from the grant, and no renewal carries it. */
  ghost predicate Over(w: World, o: Id) {
    o in w.used && (forall i :: !Descends(w, i, o)) && forall p :: !Carries(w, p, o)
  }

  lemma SpendKeepsOver(w: World, call: nat, o: Id)
    requires Over(w, o)
    ensures Over(Spending(w, call), o)
  {
    if call in w.calls && w.calls[call].Renewing? {
      var p, v := w.calls[call], Spending(w, call);
      DeletedRow(w.t, p.tenant, p.request.id);
      hide DeleteRefresh;
      assert !Descends(w, p.request.id, o);
      assert forall i :: Descends(v, i, o) ==> Descends(w, i, o);
      assert forall q :: Carries(v, q, o) ==> Carries(w, q, o);
    }
  }

  lemma BearKeepsOver(c: Config, w: World, call: nat, id: Id, secret: Secret, o: Id)
    requires Over(w, o) && id != o
    ensures Over(BearingNow(c, w, call, id, secret), o)
  {
    if call in w.calls && w.calls[call].Bearing? {
      var p, v := w.calls[call], BearingNow(c, w, call, id, secret);
      InsertedOrNot(w.t, id, Oidc.RefreshRow(c, w.t.now, p.tenant, p.request, secret));
      hide InsertRefresh, Oidc.RefreshRow, IdentityOf, Oidc.GrantFor;
      assert !Carries(w, call, o);
      assert forall i :: Descends(v, i, o) ==> Descends(w, i, o);
      assert forall q :: Carries(v, q, o) ==> Carries(w, q, o);
    }
  }

  /** The other events take rows away and set no call bearing but for a lineage of its own. */
  lemma QuietKeepsOver(c: Config, w: World, e: Event, o: Id)
    requires Over(w, o) && Allowed(w, e) && !e.Spend? && !e.Bear?
    ensures Over(Next(c, w, e), o)
  {
    var v := Next(c, w, e);
    NextTakesRows(c, w, e);
    assert forall i :: Descends(v, i, o) ==> Descends(w, i, o);
    assert forall q :: Carries(v, q, o) ==> Carries(w, q, o) by {
      hide Written, ReadRefresh, InsertAccess, Oidc.AccessRow, Descends, FewerRows;
    }
    hide Next, Descends, Carries, FewerRows;
  }

  lemma NextKeepsOver(c: Config, w: World, e: Event, o: Id)
    requires Over(w, o) && Allowed(w, e)
    ensures Over(Next(c, w, e), o)
  {
    var v := w.(used := w.used + Mints(e));
    assert Over(v, o) by {
      assert forall i :: Descends(v, i, o) ==> Descends(w, i, o);
      assert forall q :: Carries(v, q, o) ==> Carries(w, q, o);
    }
    if e.Spend? {
      SpendKeepsOver(v, e.call, o);
    } else if e.Bear? {
      assert e.id in Mints(e);
      BearKeepsOver(c, v, e.call, e.id, e.secret, o);
    } else {
      QuietKeepsOver(c, w, e, o);
    }
    hide Over, Spending, BearingNow, Loading, IssuingNow, Exchanging, Written;
  }

  /** A lineage that is over stays over, whatever interleaves. */
  lemma {:induction false} OverIsForGood(c: Config, w: World, es: seq<Event>, o: Id)
    requires Over(w, o) && AllAllowed(c, w, es)
    ensures Over(Play(c, w, es), o)
    decreases |es|
  {
    hide Next, Over, Allowed;
    if es != [] {
      NextKeepsOver(c, w, es[0], o);
      OverIsForGood(c, Next(c, w, es[0]), es[1..], o);
    }
  }

  // ---- when an ending is final ----

  lemma {:induction false} Bound(s: set<Id>) returns (n: Id)
    ensures forall x :: x in s ==> x < n
    decreases |s|
  {
    n := 0;
    if x :| x in s {
      var m := Bound(s - {x});
      n := if m > x then m else x + 1;
      assert forall y :: y in s ==> y == x || y in s - {x};
    }
  }

  /** A fresh insert by a call that carries a lineage puts a row of it back. */
  lemma BearingPutsBack(c: Config, w: World, call: nat, id: Id, secret: Secret, o: Id)
    requires Recorded(w) && Hashed(w) && Carries(w, call, o) && id !in w.used && secret !in w.used
    ensures Descends(BearingNow(c, w, call, id, secret), id, o)
  {
    var row := Oidc.RefreshRow(c, w.t.now, w.calls[call].tenant, w.calls[call].request, secret);
    FreshInserts(w, id, row);
    hide InsertRefresh, Oidc.RefreshRow, IdentityOf, Oidc.GrantFor;
  }

  lemma FreshInserts(w: World, id: Id, row: RefreshToken)
    requires Recorded(w) && Hashed(w) && id !in w.used && row.hash.of !in w.used
    ensures InsertRefresh(w.t, id, row) == Reply(w.t.(refresh := w.t.refresh[id := row]), Ok(()))
  {
    assert forall i :: i in w.t.refresh ==> w.t.refresh[i].hash != row.hash;
  }

  /**
   * A grant whose rows are gone never has one again, under any interleaving, if and only if no
   * renewal of it stands between its delete and its insert.
   */
  lemma GoneForGoodIff(c: Config, w: World, o: Id)
    requires Inv(w) && Hashed(w) && o in w.used && Rows(w, o) == {}
    ensures (forall es :: AllAllowed(c, w, es) ==> Rows(Play(c, w, es), o) == {}) <==> Carriers(w, o) == {}
  {
    assert forall i :: Descends(w, i, o) ==> i in Rows(w, o);
    if p :| p in Carriers(w, o) {
      var id := Bound(w.used);
      var e := Bear(p, id, id + 1);
      CarrierPutsBack(c, w, p, id, o);
      assert AllAllowed(c, w, [e]) && Rows(Play(c, w, [e]), o) != {};
    } else {
      assert forall p :: Carries(w, p, o) ==> p in Carriers(w, o);
      forall es | AllAllowed(c, w, es) ensures Rows(Play(c, w, es), o) == {} {
        OverIsForGood(c, w, es, o);
      }
    }
    hide Inv, Hashed, AllAllowed, Play;
  }

  lemma CarrierPutsBack(c: Config, w: World, p: nat, id: Id, o: Id)
    requires Recorded(w) && Hashed(w) && Carries(w, p, o) && forall x :: x in w.used ==> x < id
    ensures
      var e := Bear(p, id, id + 1);
      AllAllowed(c, w, [e]) && Play(c, w, [e]) == Next(c, w, e) && id in Rows(Next(c, w, e), o)
  {
    var e := Bear(p, id, id + 1);
    var v := w.(used := w.used + Mints(e));
    assert Next(c, w, e) == BearingNow(c, v, p, id, id + 1);
    assert BearingNow(c, v, p, id, id + 1).t == BearingNow(c, w, p, id, id + 1).t;
    BearingPutsBack(c, w, p, id, id + 1, o);
    assert Descends(Next(c, w, e), id, o);
    assert [e][1..] == [];
  }

  // ---- what ends a lineage ----

  predicate For(kind: Identity, tenant: Tenant, subjects: set<Subject>, client: Option<ClientId>) {
    kind.tenant == tenant && kind.subject in subjects && (client.Some? ==> kind.client == client.value)
  }

  /** The account's credential change commits, with the OIDC revoker wired in. */
  ghost predicate Changes(c: Config, t: State, op: Accounts.Op) {
    Accounts.Credential(op) && OidcSessions in c.revokers && Step(c, t, OnAccounts(op)).result.Ok?
  }

  /** A revocation of its live row, the delete of a logout that covers it, or a credential change of its account. */
  ghost predicate Ends(c: Config, w: World, s: Statement, o: Id) {
    match s
    case RevokeRefresh(tenant, id) => Descends(w, id, o) && w.t.refresh[id].tenant == tenant
    case EndRefresh(tenant, subjects, client) => o in w.kind && For(w.kind[o], tenant, subjects, client)
    case Serve(OnAccounts(op)) =>
      && Changes(c, w.t, op)
      && o in w.kind && op.k in w.t.accounts
      && For(w.kind[o], op.k.tenant, {User(w.t.accounts[op.k].id)}, None)
    case _ => false
  }

  lemma RevocationEmpties(w: World, tenant: Tenant, id: Id, o: Id)
    requires Single(w) && Descends(w, id, o) && w.t.refresh[id].tenant == tenant
    ensures forall i :: !Descends(w.(t := DeleteRefresh(w.t, tenant, id).state), i, o)
  {
    var v := w.(t := DeleteRefresh(w.t, tenant, id).state);
    DeletedRow(w.t, tenant, id);
    hide DeleteRefresh;
    assert forall i :: Descends(v, i, o) ==> Descends(w, i, o);
  }

  lemma LogoutEmpties(w: World, tenant: Tenant, subjects: set<Subject>, client: Option<ClientId>, o: Id)
    requires SameKind(w) && o in w.kind && For(w.kind[o], tenant, subjects, client)
    ensures forall i :: !Descends(w.(t := DropRefreshOf(w.t, tenant, subjects, client)), i, o)
  {
    var v := w.(t := DropRefreshOf(w.t, tenant, subjects, client));
    forall i ensures !Descends(v, i, o) {
      if Descends(v, i, o) {
        assert Descends(w, i, o);
        assert Covers(tenant, subjects, client, w.t.refresh[i].tenant, w.t.refresh[i].grant);
      }
    }
  }

  lemma ChangeLeavesNone(c: Config, t: State, op: Accounts.Op)
    requires Changes(c, t, op)
    ensures
      var v := Step(c, t, OnAccounts(op)).state;
      && op.k in t.accounts && op.k in v.accounts && v.accounts[op.k].id == t.accounts[op.k].id
      && forall i :: !Accounts.OwnedRefresh(v, op.k, i)
  {
    assert Step(c, t, OnAccounts(op)) == Accounts.Step(c, t, op);
    hide Step, Accounts.Step, Grown;
    Finality.ChangeEmpties(c, t, op);
  }

  lemma ChangeEmpties(c: Config, w: World, op: Accounts.Op, o: Id)
    requires SameKind(w) && Changes(c, w.t, op) && o in w.kind && op.k in w.t.accounts
    requires For(w.kind[o], op.k.tenant, {User(w.t.accounts[op.k].id)}, None)
    ensures forall i :: !Descends(w.(t := Step(c, w.t, OnAccounts(op)).state), i, o)
  {
    var v := w.(t := Step(c, w.t, OnAccounts(op)).state);
    ChangeLeavesNone(c, w.t, op);
    StepShrinks(c, w.t, OnAccounts(op));
    hide Step, Changes;
    assert forall i :: i in v.t.refresh ==> i in w.t.refresh && v.t.refresh[i] == w.t.refresh[i];
    assert forall i :: Descends(v, i, o) ==> Accounts.OwnedRefresh(v.t, op.k, i);
  }

  /**
   * Logout, revocation and credential change, statement by statement: the grant they end stays
   * ended, whatever interleaves afterwards, if and only if at that moment no renewal of it is past
   * its delete and before its insert.
   */
  lemma EndingIsFinalIff(c: Config, w: World, s: Statement, o: Id)
    requires Inv(w) && Hashed(w) && o in w.used && Allowed(w, Write(s)) && Ends(c, w, s, o)
    ensures
      var v := Next(c, w, Write(s));
      && Rows(v, o) == {}
      && ((forall es :: AllAllowed(c, v, es) ==> Rows(Play(c, v, es), o) == {}) <==> Carriers(w, o) == {})
  {
    var v := Next(c, w, Write(s));
    NextKeeps(c, w, Write(s));
    NextHashed(c, w, Write(s));
    EndingEmpties(c, w, s, o);
    WriteKeepsCarriers(c, w, s, o);
    hide *;
    GoneForGoodIff(c, v, o);
  }

  lemma EndingEmpties(c: Config, w: World, s: Statement, o: Id)
    requires Inv(w) && Ends(c, w, s, o)
    ensures Rows(Next(c, w, Write(s)), o) == {}
  {
    var v := Next(c, w, Write(s));
    assert Mints(Write(s)) == {} && v == w.(t := Written(c, w.t, s));
    hide Single, SameKind, Valid, Recorded, Parented, Step, DeleteRefresh, DropRefreshOf, Descends, Next, Changes;
    match s
    case RevokeRefresh(tenant, id) => RevocationEmpties(w, tenant, id, o);
    case EndRefresh(tenant, subjects, client) => LogoutEmpties(w, tenant, subjects, client, o);
    case Serve(OnAccounts(op)) => ChangeEmpties(c, w, op, o);
  }

  lemma WriteKeepsCarriers(c: Config, w: World, s: Statement, o: Id)
    ensures Carriers(Next(c, w, Write(s)), o) == Carriers(w, o)
  {
    hide Written;
  }

  // ---- a call in flight when the credentials change ----

  predicate Opens(e: Event, call: nat) {
    (e.Load? || e.Exchange?) && e.call == call
  }

  /** The number is not given to a later call. */
  predicate NeverOpened(es: seq<Event>, call: nat) {
    forall e :: e in es ==> !Opens(e, call)
  }

  /** The call comes to its refresh insert. */
  predicate Inserts(es: seq<Event>, call: nat) {
    exists e :: e in es && e.Bear? && e.call == call
  }

  /** The event is the call's, and leaves a new token row in the database. */
  ghost predicate Lodges(c: Config, w: World, e: Event, call: nat) {
    || (e.Bear? && e.call == call && e.id !in w.t.refresh && e.id in Next(c, w, e).t.refresh)
    || (e.Issue? && e.call == call && e.id !in w.t.access && e.id in Next(c, w, e).t.access)
  }

  ghost predicate LodgesIn(c: Config, w: World, es: seq<Event>, call: nat)
    decreases |es|
  {
    es != [] && (Lodges(c, w, es[0], call) || LodgesIn(c, Next(c, w, es[0]), es[1..], call))
  }

  /** The call works for the account, in its tenant. */
  ghost predicate Acts(w: World, call: nat, k: AccountKey) {
    && call in w.calls && k in w.t.accounts
    && w.calls[call].tenant == k.tenant
    && Oidc.GrantFor(w.calls[call].request).subject == User(w.t.accounts[k].id)
  }

  /** The call is over, or waits for a delete or a foreign key that can only fail. */
  ghost predicate Doomed(w: World, call: nat) {
    call in w.calls ==>
      var p := w.calls[call];
      && !p.Bearing?
      && (p.Renewing? ==> p.request.id in w.used && p.request.id !in w.t.refresh)
      && (p.Issuing? ==> p.parent in w.used && p.parent !in w.t.refresh)
  }

  lemma OtherCallsStay(c: Config, w: World, e: Event, call: nat)
    requires !Opens(e, call) && !((e.Spend? || e.Bear? || e.Issue?) && e.call == call)
    ensures
      var v := Next(c, w, e);
      (call in v.calls <==> call in w.calls) && (call in w.calls ==> v.calls[call] == w.calls[call])
  {
    hide Written, ReadRefresh, InsertRefresh, InsertAccess, DeleteRefresh, Oidc.AccessRow, Oidc.RefreshRow;
    hide Oidc.GrantFor, IdentityOf;
  }

  /** A refresh row appears only under a new id. */
  lemma RowsAreNew(c: Config, w: World, e: Event, id: Id)
    requires Allowed(w, e) && id in w.used && id !in w.t.refresh
    ensures id in Next(c, w, e).used && id !in Next(c, w, e).t.refresh
  {
    if e.Bear? {
      assert e.id in Mints(e);
      var v := w.(used := w.used + Mints(e));
      if e.call in v.calls && v.calls[e.call].Bearing? {
        var p := v.calls[e.call];
        InsertedOrNot(v.t, e.id, Oidc.RefreshRow(c, v.t.now, p.tenant, p.request, e.secret));
      }
      hide InsertRefresh, Oidc.RefreshRow, IdentityOf, Oidc.GrantFor;
    } else {
      NextTakesRows(c, w, e);
      hide Next, Allowed;
    }
  }

  lemma DoomedStays(c: Config, w: World, e: Event, call: nat)
    requires Doomed(w, call) && Allowed(w, e) && !Opens(e, call)
    ensures Doomed(Next(c, w, e), call) && !Lodges(c, w, e, call)
  {
    if call in w.calls {
      var p := w.calls[call];
      if p.Renewing? { RowsAreNew(c, w, e, p.request.id); }
      if p.Issuing? { RowsAreNew(c, w, e, p.parent); }
    }
    if (e.Spend? || e.Bear? || e.Issue?) && e.call == call {
      DoomedSteps(c, w, e, call);
    } else {
      OtherCallsStay(c, w, e, call);
    }
    hide Next, Allowed;
  }

  lemma DoomedSteps(c: Config, w: World, e: Event, call: nat)
    requires Doomed(w, call) && (e.Spend? || e.Bear? || e.Issue?) && e.call == call
    ensures call in Next(c, w, e).calls ==> call in w.calls && Next(c, w, e).calls[call] == w.calls[call]
    ensures !Lodges(c, w, e, call)
  {
    if e.Spend? && call in w.calls && w.calls[call].Renewing? {
      DeletedRow(w.t, w.calls[call].tenant, w.calls[call].request.id);
    }
    hide DeleteRefresh, InsertRefresh, Oidc.RefreshRow, Oidc.GrantFor;
  }

  lemma {:induction false} DoomedNeverLodges(c: Config, w: World, es: seq<Event>, call: nat)
    requires Doomed(w, call) && AllAllowed(c, w, es) && NeverOpened(es, call)
    ensures !LodgesIn(c, w, es, call)
    decreases |es|
  {
    hide Next, Doomed, Allowed, Lodges, Opens;
    if es != [] {
      DoomedStays(c, w, es[0], call);
      DoomedNeverLodges(c, Next(c, w, es[0]), es[1..], call);
    }
  }

  lemma BearingLodges(c: Config, w: World, e: Event, call: nat)
    requires Recorded(w) && Hashed(w) && Allowed(w, e) && e.Bear? && e.call == call
    requires call in w.calls && w.calls[call].Bearing?
    ensures Lodges(c, w, e, call)
  {
    var v, p := w.(used := w.used + Mints(e)), w.calls[call];
    var row := Oidc.RefreshRow(c, w.t.now, p.tenant, p.request, e.secret);
    assert row.hash.of == e.secret;
    assert e.id in Mints(e) && e.secret in Mints(e);
    FreshInserts(w, e.id, row);
    hide InsertRefresh, Oidc.RefreshRow, IdentityOf, Oidc.GrantFor;
  }

  lemma BearingWaits(c: Config, w: World, e: Event, call: nat)
    requires call in w.calls && w.calls[call].Bearing? && !Opens(e, call) && !(e.Bear? && e.call == call)
    ensures
      && call in Next(c, w, e).calls && Next(c, w, e).calls[call] == w.calls[call]
      && !Lodges(c, w, e, call)
  {
    if !((e.Spend? || e.Issue?) && e.call == call) { OtherCallsStay(c, w, e, call); hide Next; }
    hide Written, ReadRefresh;
  }

  lemma {:induction false} BearingLodgesIff(c: Config, w: World, es: seq<Event>, call: nat)
    requires Inv(w) && Hashed(w) && AllAllowed(c, w, es) && NeverOpened(es, call)
    requires call in w.calls && w.calls[call].Bearing?
    ensures LodgesIn(c, w, es, call) <==> Inserts(es, call)
    decreases |es|
  {
    hide Next, Allowed, Lodges, Opens, Hashed, Single, SameKind, Parented, Valid, Recorded;
    if es != [] {
      var e := es[0];
      if e.Bear? && e.call == call {
        BearingLodges(c, w, e, call);
        assert Inserts(es, call);
      } else {
        BearingWaits(c, w, e, call);
        NextKeeps(c, w, e);
        NextHashed(c, w, e);
        BearingLodgesIff(c, Next(c, w, e), es[1..], call);
        assert Inserts(es, call) <==> Inserts(es[1..], call);
      }
    }
  }

  /** What the change takes from a call: the row it would delete, or the one its token would hang under. */
  lemma ChangeDooms(c: Config, w: World, op: Accounts.Op, call: nat)
    requires Inv(w) && Changes(c, w.t, op) && Acts(w, call, op.k) && !w.calls[call].Bearing?
    ensures Doomed(w.(t := Step(c, w.t, OnAccounts(op)).state), call)
  {
    var v, p := w.(t := Step(c, w.t, OnAccounts(op)).state), w.calls[call];
    ChangeLeavesNone(c, w.t, op);
    StepShrinks(c, w.t, OnAccounts(op));
    hide Step, Changes, Single, Valid;
    if p.Renewing? {
      assert p.request.id in w.origin && w.origin[p.request.id] in w.kind;
      assert !Accounts.OwnedRefresh(v.t, op.k, p.request.id);
    } else {
      assert !Accounts.OwnedRefresh(v.t, op.k, p.parent);
    }
  }

  /**
   * A token creation of the account that is in flight when its credentials change leaves a token
   * behind afterwards if and only if it then stands before its refresh insert, and comes to it: a
   * code exchange, or a renewal past its delete. A renewal before its delete finds nothing to
   * delete, and an access token whose grant is gone is refused.
   */
  lemma InFlightLodgesIff(c: Config, w: World, op: Accounts.Op, es: seq<Event>, call: nat)
    requires Inv(w) && Hashed(w) && Changes(c, w.t, op) && Acts(w, call, op.k)
    requires Allowed(w, Write(Serve(OnAccounts(op)))) && NeverOpened(es, call)
    requires AllAllowed(c, Next(c, w, Write(Serve(OnAccounts(op)))), es)
    ensures
      var v := Next(c, w, Write(Serve(OnAccounts(op))));
      LodgesIn(c, v, es, call) <==> w.calls[call].Bearing? && Inserts(es, call)
  {
    var e := Write(Serve(OnAccounts(op)));
    var v := Next(c, w, e);
    NextKeeps(c, w, e);
    NextHashed(c, w, e);
    assert v == w.(t := Step(c, w.t, OnAccounts(op)).state);
    hide Inv, Hashed, Next, Step, Changes, AllAllowed, Doomed, LodgesIn, Inserts, NeverOpened;
    if w.calls[call].Bearing? {
      BearingLodgesIff(c, v, es, call);
    } else {
      ChangeDooms(c, w, op, call);
      DoomedNeverLodges(c, v, es, call);
    }
  }

  lemma StatementsLeaveAccounts(c: Config, t: State, s: Statement)
    requires !s.Serve?
    ensures Written(c, t, s).accounts == t.accounts
  {
  }

  lemma InsertsLeaveAccounts(t: State, id: Id, row: RefreshToken, under: AccessToken)
    ensures InsertRefresh(t, id, row).state.accounts == t.accounts
    ensures InsertAccess(t, id, under).state.accounts == t.accounts
  {
    hide RefreshWithHash;
  }

  /** Outside the other operations, no event writes an account. */
  lemma CallsLeaveAccounts(c: Config, w: World, e: Event)
    requires !(e.Write? && e.statement.Serve?)
    ensures Next(c, w, e).t.accounts == w.t.accounts
  {
    if e.Write? {
      StatementsLeaveAccounts(c, w.t, e.statement);
    } else if e.Spend? {
      if e.call in w.calls {
        assert DeleteRefresh(w.t, w.calls[e.call].tenant, w.calls[e.call].request.id).state.accounts == w.t.accounts;
      }
    } else if (e.Bear? || e.Issue?) && e.call in w.calls {
      var p := w.calls[e.call];
      var row := Oidc.RefreshRow(c, w.t.now, p.tenant, p.request, if e.Bear? then e.secret else 0);
      var parent := if p.Issuing? then Some(p.parent) else None;
      InsertsLeaveAccounts(w.t, e.id, row, Oidc.AccessRow(c, w.t.now, p.tenant, p.request, parent));
    }
    hide Written, DeleteRefresh, InsertRefresh, InsertAccess, ReadRefresh, Oidc.AccessRow, Oidc.RefreshRow;
    hide Oidc.GrantFor, IdentityOf;
  }

  lemma AccountsLast(c: Config, w: World, e: Event, k: AccountKey)
    requires k in w.t.accounts
    ensures k in Next(c, w, e).t.accounts && Next(c, w, e).t.accounts[k].id == w.t.accounts[k].id
  {
    if e.Write? && e.statement.Serve? {
      StepGrows(c, w.t, e.statement.op);
      hide Step, GrownRequests, GrownRefresh, GrownAccess, GrownBrowsers;
    } else {
      CallsLeaveAccounts(c, w, e);
      hide Next;
    }
  }

  lemma {:induction false} BearingWaitsOn(c: Config, w: World, es: seq<Event>, call: nat, k: AccountKey)
    requires Acts(w, call, k) && w.calls[call].Bearing? && NeverOpened(es, call) && !Inserts(es, call)
    ensures Acts(Play(c, w, es), call, k) && Play(c, w, es).calls[call].Bearing?
    decreases |es|
  {
    hide Next, Lodges, Opens;
    if es != [] {
      AccountsLast(c, w, es[0], k);
      BearingWaits(c, w, es[0], call);
      BearingWaitsOn(c, Next(c, w, es[0]), es[1..], call, k);
    }
  }

  lemma BornForTheAccount(c: Config, w: World, e: Event, k: AccountKey)
    requires Inv(w) && Hashed(w) && Allowed(w, e) && e.Bear? && c.issuance.refreshExpiry >= 0
    requires Acts(w, e.call, k) && w.calls[e.call].Bearing?
    ensures
      var v := Next(c, w, e);
      Accounts.OwnedRefresh(v.t, k, e.id) && ReadRefresh(v.t, k.tenant, e.secret) == Ok((e.id, v.t.refresh[e.id]))
  {
    var v, p := Next(c, w, e), w.calls[e.call];
    var row := Oidc.RefreshRow(c, w.t.now, p.tenant, p.request, e.secret);
    assert row.tenant == p.tenant && row.grant == Oidc.GrantFor(p.request) && row.hash == Sha256(e.secret);
    assert row.expires >= w.t.now;
    assert e.id in Mints(e) && e.secret in Mints(e);
    FreshInserts(w, e.id, row);
    assert v.t == w.t.(refresh := w.t.refresh[e.id := row]);
    NextKeeps(c, w, e);
    assert UniqueRefreshHashes(v.t.refresh);
    FindsRefresh(v.t, e.id);
    hide Next, InsertRefresh, RefreshWithHash, Inv, Oidc.RefreshRow, Oidc.GrantFor, Hashed, Allowed;
  }

  /**
   * ... and what it leaves is a live grant of the account, however long after the change the call
   * goes on: the row is the account's own, and its token resolves.
   */
  lemma LodgedGrantIsGood(c: Config, w: World, op: Accounts.Op, es: seq<Event>, e: Event)
    requires Inv(w) && Hashed(w) && Changes(c, w.t, op) && c.issuance.refreshExpiry >= 0
    requires e.Bear? && Acts(w, e.call, op.k) && w.calls[e.call].Bearing?
    requires Allowed(w, Write(Serve(OnAccounts(op)))) && NeverOpened(es, e.call) && !Inserts(es, e.call)
    requires AllAllowed(c, Next(c, w, Write(Serve(OnAccounts(op)))), es)
    requires Allowed(Play(c, Next(c, w, Write(Serve(OnAccounts(op)))), es), e)
    ensures
      var x := Next(c, Play(c, Next(c, w, Write(Serve(OnAccounts(op)))), es), e);
      && Accounts.OwnedRefresh(x.t, op.k, e.id)
      && ReadRefresh(x.t, op.k.tenant, e.secret) == Ok((e.id, x.t.refresh[e.id]))
  {
    var change := Write(Serve(OnAccounts(op)));
    var v := Next(c, w, change);
    NextKeeps(c, w, change);
    NextHashed(c, w, change);
    AccountsLast(c, w, change, op.k);
    assert v.calls == w.calls;
    hide Inv, Hashed, Next, Step, Changes, AllAllowed, Allowed, Inserts, NeverOpened, Play, ReadRefresh;
    PlayKeeps(c, v, es);
    PlayHashed(c, v, es);
    BearingWaitsOn(c, v, es, e.call, op.k);
    BornForTheAccount(c, Play(c, v, es), e, op.k);
  }
}
