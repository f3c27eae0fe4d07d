/** Api-key renewal as its separate steps, racing with everything else that touches the session. */
module Rotation {
  import opened Base
  import opened Schema
  import opened Sql
  import opened Tokens
  import opened Values
  import opened Service
  import opened Frames
  import opened SessionExpiry
  import Authn
  import Accounts

  // ---- the machine ----

  /** Where a call to Renew stands between its steps. */
  datatype Phase =
    | Validated(claims: Claims)
    | Living(claims: Claims)
    | Ready(claims: Claims, next: Session)

  /** One jti of one session. */
  type Seat = (SessionKey, Id)

  /** The database and the calls in flight; how often each jti was installed, and renewed away. */
  datatype World = World(t: State, calls: map<nat, Phase>, installs: multiset<Seat>, wins: multiset<Seat>)

  datatype Event =
    | Verify(call: nat, tenant: Tenant, refresh: Jwt)
    | ReadLive(call: nat)
    | Mint(call: nat, accessJti: Id, refreshJti: Id)
    | Rotate(call: nat)
    | Serve(op: Op)

  function SeatOf(claims: Claims): Seat {
    (Authn.SessionOf(claims), claims.jti)
  }

  ghost function Verifying(c: Config, w: World, call: nat, tenant: Tenant, refresh: Jwt): World {
    var r := Validate(w.t.ring, c.issuance, w.t.now, RefreshUse, refresh);
    if call in w.calls || r.Err? || r.value.tenant != tenant then w
    else w.(calls := w.calls[call := Validated(r.value)])
  }

  ghost function Reading(w: World, call: nat): World {
    if !(call in w.calls && w.calls[call].Validated?) then w
    else if Authn.LiveAccount(w.t, Authn.OwnerOf(w.calls[call].claims)).Err? then w.(calls := w.calls - {call})
    else w.(calls := w.calls[call := Living(w.calls[call].claims)])
  }

  ghost function Minting(c: Config, w: World, call: nat, accessJti: Id, refreshJti: Id): World {
    if !(call in w.calls && w.calls[call].Living?) then w
    else
      var claims := w.calls[call].claims;
      var pair := Authn.Issue(c, w.t, Authn.OwnerOf(claims), claims.client, accessJti, refreshJti);
      w.(calls := w.calls[call := Ready(claims, Session(refreshJti, pair.refresh.claims.expires))])
  }

  /** The compare-and-swap decides. */
  ghost function Rotating(w: World, call: nat): World {
    if !(call in w.calls && w.calls[call].Ready?) then w
    else
      var claims, next := w.calls[call].claims, w.calls[call].next;
      var (u, won) := RotateSession(w.t, Authn.SessionOf(claims), claims.jti, next);
      var v := w.(t := u, calls := w.calls - {call});
      if won
      then
        v.(wins := w.wins + multiset{SeatOf(claims)},
           installs := w.installs + multiset{(Authn.SessionOf(claims), next.jti)})
      else v
  }

  /** The seat an operation acknowledges, if it does. */
  ghost function Acknowledged(c: Config, t: State, op: Op): multiset<Seat> {
    if op.OnAuthn? && op.authn.Ack? && Step(c, t, op).result.Ok? then multiset{SeatOf(op.authn.refresh.claims)}
      else multiset{}
  }

  ghost function Serving(c: Config, w: World, op: Op): World {
    w.(t := Step(c, w.t, op).state, installs := w.installs + Acknowledged(c, w.t, op))
  }

  ghost function Next(c: Config, w: World, e: Event): World {
    match e
    case Verify(call, tenant, refresh) => Verifying(c, w, call, tenant, refresh)
    case ReadLive(call) => Reading(w, call)
    case Mint(call, accessJti, refreshJti) => Minting(c, w, call, accessJti, refreshJti)
    case Rotate(call) => Rotating(w, call)
    case Serve(op) => Serving(c, w, op)
  }

  ghost function Play(c: Config, w: World, es: seq<Event>): World
    decreases |es|
  {
    if es == [] then w else Play(c, Next(c, w, es[0]), es[1..])
  }

  /** Renewals run as the steps here; any other operation may come between them, whole. */
  predicate Allowed(e: Event) {
    e.Serve? ==> !(e.op.OnAuthn? && e.op.authn.Renewal?)
  }

  predicate AllAllowed(es: seq<Event>) {
    forall e :: e in es ==> Allowed(e)
  }

  // ---- accounting ----

  ghost function Seated(t: State, seat: Seat): nat {
    if Holds(t, seat.0, seat.1) then 1 else 0
  }

  ghost predicate Accounted(w: World) {
    forall seat :: Seated(w.t, seat) + w.wins[seat] <= w.installs[seat]
  }

  /** Apart from an acknowledgement, an operation only takes sessions away. */
  lemma ServingMoves(c: Config, t: State, op: Op)
    requires Allowed(Serve(op))
    ensures
      var u := Step(c, t, op).state;
      if op.OnAuthn? && op.authn.Ack? && Step(c, t, op).result.Ok?
      then
        var claims := op.authn.refresh.claims;
        u.sessions == t.sessions[Authn.SessionOf(claims) := Session(claims.jti, claims.expires)]
      else Subtable(u.sessions, t.sessions)
  {
    if op.OnAuthn? && op.authn.Ack? { AckPuts(c, t, op.authn); hide Authn.Step; }
    else if !TouchesSessions(op) { StepFrame(c, t, op); hide Step; }
    else if op.OnAccounts? { CredentialShrinksSessions(c, t, op.account); hide Accounts.Step; }
    else { RevocationShrinksSessions(c, t, op); hide Step; }
  }

  lemma AckPuts(c: Config, t: State, op: Authn.Op)
    requires op.Ack?
    ensures
      var r := Authn.Step(c, t, op);
      if r.result.Ok?
      then r.state.sessions ==
        t.sessions[Authn.SessionOf(op.refresh.claims) := Session(op.refresh.claims.jti, op.refresh.claims.expires)]
      else r.state == t
  {
    hide Verifies;
  }

  lemma ServingKeeps(c: Config, w: World, op: Op)
    requires Accounted(w) && Allowed(Serve(op))
    ensures Accounted(Serving(c, w, op))
  {
    ServingMoves(c, w.t, op);
    var v := Serving(c, w, op);
    hide Step;
    forall seat ensures Seated(v.t, seat) + v.wins[seat] <= v.installs[seat] {
      assert Seated(w.t, seat) + w.wins[seat] <= w.installs[seat];
    }
  }

  lemma RotatingKeeps(w: World, call: nat)
    requires Accounted(w)
    ensures Accounted(Rotating(w, call))
  {
    var v := Rotating(w, call);
    forall seat ensures Seated(v.t, seat) + v.wins[seat] <= v.installs[seat] {
      assert Seated(w.t, seat) + w.wins[seat] <= w.installs[seat];
    }
  }

  lemma NextKeeps(c: Config, w: World, e: Event)
    requires Accounted(w) && Allowed(e)
    ensures Accounted(Next(c, w, e))
  {
    NextIs(c, w, e);
    if e.Rotate? { RotatingKeeps(w, e.call); }
    else if e.Serve? { ServingKeeps(c, w, e.op); }
    else {
      QuietSteps(c, w, e);
      assert forall seat :: Seated(Next(c, w, e).t, seat) == Seated(w.t, seat);
    }
    hide Rotating, Serving, Next, Allowed;
  }

  lemma NextIs(c: Config, w: World, e: Event)
    ensures e.Rotate? ==> Next(c, w, e) == Rotating(w, e.call)
    ensures e.Serve? ==> Next(c, w, e) == Serving(c, w, e.op)
  {
    hide Rotating, Serving;
  }

  /** The other steps write nothing. */
  lemma QuietSteps(c: Config, w: World, e: Event)
    requires !e.Rotate? && !e.Serve?
    ensures var v := Next(c, w, e); v.t == w.t && v.installs == w.installs && v.wins == w.wins
  {
    hide Validate, Authn.LiveAccount, Authn.Issue;
  }

  /**
   * Rotation accounting. Under any interleaving of the steps of renewals with acknowledgements,
   * revocations, credential changes, sweeps and every other operation: of each jti, the renewals
   * that succeeded, plus one if it is current, never exceed the times it was acknowledged or
   * rotated in.
   */
  lemma {:induction false} RenewalsNeverExceedInstalls(c: Config, w: World, es: seq<Event>, seat: Seat)
    requires Accounted(w) && AllAllowed(es)
    ensures var v := Play(c, w, es); Seated(v.t, seat) + v.wins[seat] <= v.installs[seat]
    decreases |es|
  {
    hide Next, Allowed;
    if es == [] {
    } else {
      NextKeeps(c, w, es[0]);
      RenewalsNeverExceedInstalls(c, Next(c, w, es[0]), es[1..], seat);
    }
  }

  /** A database at rest: no call in flight, and each session's jti installed once. */
  ghost function AtRest(t: State): World {
    World(t, map[], multiset(set s | s in t.sessions :: (s, t.sessions[s].jti)), multiset{})
  }

  lemma RestIsAccounted(t: State)
    ensures Accounted(AtRest(t))
  {
    forall seat: Seat ensures Seated(t, seat) <= AtRest(t).installs[seat] {
      if Holds(t, seat.0, seat.1) {
        assert seat == (seat.0, t.sessions[seat.0].jti);
      }
    }
  }

  /** From any database at rest, with whatever sessions it holds. */
  lemma RenewalsFromRest(c: Config, t: State, es: seq<Event>, seat: Seat)
    requires AllAllowed(es)
    ensures var v := Play(c, AtRest(t), es); Seated(v.t, seat) + v.wins[seat] <= v.installs[seat]
  {
    RestIsAccounted(t);
    RenewalsNeverExceedInstalls(c, AtRest(t), es, seat);
  }

  // ---- races ----

  /** A call that tries to rotate the seat away. */
  ghost predicate Tries(w: World, e: Event, seat: Seat) {
    e.Rotate? && e.call in w.calls && w.calls[e.call].Ready? && SeatOf(w.calls[e.call].claims) == seat
  }

  ghost function TriesIn(c: Config, w: World, es: seq<Event>, seat: Seat): nat
    decreases |es|
  {
    if es == [] then 0 else (if Tries(w, es[0], seat) then 1 else 0) + TriesIn(c, Next(c, w, es[0]), es[1..], seat)
  }

  /** No pair in flight carries the seat's jti: it was minted once. */
  ghost predicate FreshNext(w: World, seat: Seat) {
    forall p :: p in w.calls && w.calls[p].Ready? ==> w.calls[p].next.jti != seat.1
  }

  /** Nothing but renewals touches the seat's session. */
  ghost predicate LeftAlone(c: Config, w: World, e: Event, seat: Seat) {
    && (e.Serve? ==> Seated(Step(c, w.t, e.op).state, seat) == Seated(w.t, seat))
    && (e.Mint? ==> e.refreshJti != seat.1)
  }

  ghost predicate AllLeaveAlone(c: Config, w: World, es: seq<Event>, seat: Seat)
    decreases |es|
  {
    es == [] || (LeftAlone(c, w, es[0], seat) && AllLeaveAlone(c, Next(c, w, es[0]), es[1..], seat))
  }

  lemma RaceStep(c: Config, w: World, e: Event, seat: Seat)
    requires FreshNext(w, seat) && LeftAlone(c, w, e, seat)
    ensures
      var v := Next(c, w, e);
      var won := if Tries(w, e, seat) then Seated(w.t, seat) else 0;
      && FreshNext(v, seat)
      && v.wins[seat] == w.wins[seat] + won
      && Seated(v.t, seat) == Seated(w.t, seat) - won
  {
    hide Validate, Authn.LiveAccount, Authn.Issue, Step;
  }

  /**
   * Racing renewals have exactly one winner. Whatever the interleaving, if the jti is current and
   * nothing else touches the session, the first call to reach the rotation wins and every other
   * one loses; if it is not current, all lose.
   */
  lemma {:induction false} RacesHaveOneWinner(c: Config, w: World, es: seq<Event>, seat: Seat)
    requires FreshNext(w, seat) && AllLeaveAlone(c, w, es, seat)
    ensures
      var v := Play(c, w, es);
      v.wins[seat] == w.wins[seat] + if Seated(w.t, seat) == 1 && TriesIn(c, w, es, seat) >= 1 then 1 else 0
    decreases |es|
  {
    hide Next, Tries, FreshNext, LeftAlone, Seated;
    if es != [] {
      RaceStep(c, w, es[0], seat);
      RacesHaveOneWinner(c, Next(c, w, es[0]), es[1..], seat);
      SeatedIsABit(w.t, seat);
    }
  }

  lemma SeatedIsABit(t: State, seat: Seat)
    ensures Seated(t, seat) <= 1
  {
  }

  // ---- a racer that runs to its end ----

  predicate Names(e: Event, call: nat) {
    !e.Serve? && e.call == call
  }

  /** The steps a run takes for one call. */
  function StepsOf(es: seq<Event>, call: nat): seq<Event> {
    if es == [] then []
    else if Names(es[0], call) then [es[0]] + StepsOf(es[1..], call)
    else StepsOf(es[1..], call)
  }

  /** The refresh token verifies and its account is live. */
  ghost predicate Presentable(c: Config, t: State, tenant: Tenant, refresh: Jwt) {
    && Validate(t.ring, c.issuance, t.now, RefreshUse, refresh) == Ok(refresh.claims)
    && refresh.claims.tenant == tenant
    && Authn.LiveAccount(t, Authn.OwnerOf(refresh.claims)).Ok?
  }

  ghost predicate Throughout(c: Config, w: World, es: seq<Event>, tenant: Tenant, refresh: Jwt)
    decreases |es|
  {
    es == [] || (Presentable(c, w.t, tenant, refresh) && Throughout(c, Next(c, w, es[0]), es[1..], tenant, refresh))
  }

  /** The four steps of a call, and where the world has it when this many are done. */
  function Script(call: nat, tenant: Tenant, refresh: Jwt, a: Id, r: Id): seq<Event> {
    [Verify(call, tenant, refresh), ReadLive(call), Mint(call, a, r), Rotate(call)]
  }

  predicate Stands(w: World, call: nat, claims: Claims, done: nat) {
    if done == 0 then call !in w.calls
    else
      && call in w.calls && w.calls[call].claims == claims
      && (done == 1 ==> w.calls[call].Validated?)
      && (done == 2 ==> w.calls[call].Living?)
      && (done > 2 ==> w.calls[call].Ready?)
  }

  lemma StepsStand(c: Config, w: World, call: nat, tenant: Tenant, refresh: Jwt, a: Id, r: Id, done: nat)
    requires done < 3 && Stands(w, call, refresh.claims, done) && Presentable(c, w.t, tenant, refresh)
    ensures Stands(Next(c, w, Script(call, tenant, refresh, a, r)[done]), call, refresh.claims, done + 1)
  {
    hide Validate, Authn.LiveAccount, Authn.Issue;
  }

  lemma OthersLeaveStanding(c: Config, w: World, e: Event, call: nat, claims: Claims, done: nat)
    requires Stands(w, call, claims, done) && !Names(e, call)
    ensures Stands(Next(c, w, e), call, claims, done)
  {
    hide Validate, Authn.LiveAccount, Authn.Issue, Step;
  }

  /** A call that takes all its steps, with its token and account good all along, reaches the rotation. */
  lemma {:induction false} RacerTries(
    c: Config, w: World, es: seq<Event>, call: nat, tenant: Tenant, refresh: Jwt, a: Id, r: Id, done: nat)
    requires done < 4 && StepsOf(es, call) == Script(call, tenant, refresh, a, r)[done..]
    requires Stands(w, call, refresh.claims, done) && Throughout(c, w, es, tenant, refresh)
    ensures TriesIn(c, w, es, SeatOf(refresh.claims)) >= 1
    decreases |es|
  {
    var steps := Script(call, tenant, refresh, a, r);
    hide Next, Presentable;
    if es == [] {
      assert false;
    } else if Names(es[0], call) {
      assert es[0] == steps[done] && StepsOf(es[1..], call) == steps[done + 1..];
      if done < 3 {
        StepsStand(c, w, call, tenant, refresh, a, r, done);
        RacerTries(c, Next(c, w, es[0]), es[1..], call, tenant, refresh, a, r, done + 1);
      }
    } else {
      OthersLeaveStanding(c, w, es[0], call, refresh.claims, done);
      RacerTries(c, Next(c, w, es[0]), es[1..], call, tenant, refresh, a, r, done);
    }
  }

  /**
   * So a race on a current jti is won exactly once, by whichever call: it is enough that one caller
   * runs to its end while its token verifies and its account is live. There is no race that all lose.
   */
  lemma FinishedRaceHasItsWinner(
    c: Config, w: World, es: seq<Event>, call: nat, tenant: Tenant, refresh: Jwt, a: Id, r: Id)
    requires call !in w.calls && StepsOf(es, call) == Script(call, tenant, refresh, a, r)
    requires Throughout(c, w, es, tenant, refresh)
    requires Holds(w.t, Authn.SessionOf(refresh.claims), refresh.claims.jti)
    requires FreshNext(w, SeatOf(refresh.claims)) && AllLeaveAlone(c, w, es, SeatOf(refresh.claims))
    ensures Play(c, w, es).wins[SeatOf(refresh.claims)] == w.wins[SeatOf(refresh.claims)] + 1
  {
    assert Script(call, tenant, refresh, a, r)[0..] == Script(call, tenant, refresh, a, r);
    RacerTries(c, w, es, call, tenant, refresh, a, r, 0);
    RacesHaveOneWinner(c, w, es, SeatOf(refresh.claims));
  }

  // ---- the steps are Renew ----

  lemma ValidClaims(t: State, c: Config, refresh: Jwt)
    ensures
      var r := Validate(t.ring, c.issuance, t.now, RefreshUse, refresh);
      r.Ok? ==> r.value == refresh.claims
  {
  }

  /** Two steps on, the call waits for its mint, or there is none. */
  lemma ReadsOrEnds(c: Config, w: World, call: nat, tenant: Tenant, refresh: Jwt)
    requires call !in w.calls
    ensures
      Reading(Verifying(c, w, call, tenant, refresh), call) ==
      if Presentable(c, w.t, tenant, refresh) then w.(calls := w.calls[call := Living(refresh.claims)]) else w
  {
    ValidClaims(w.t, c, refresh);
    var claims := refresh.claims;
    assert w.calls[call := Validated(claims)] - {call} == w.calls;
    assert w.calls[call := Validated(claims)][call := Living(claims)] == w.calls[call := Living(claims)];
    hide Validate, Authn.LiveAccount;
  }

  lemma RenewRotates(c: Config, t: State, tenant: Tenant, refresh: Jwt, a: Id, r: Id)
    ensures
      var atomic := Authn.Renew(c, t, tenant, refresh, a, r);
      var claims := refresh.claims;
      var pair := Authn.Issue(c, t, Authn.OwnerOf(claims), claims.client, a, r);
      var next := Session(r, pair.refresh.claims.expires);
      if Presentable(c, t, tenant, refresh)
      then (atomic.state, atomic.result.Ok?) == RotateSession(t, Authn.SessionOf(claims), claims.jti, next)
      else atomic.state == t && atomic.result.Err?
  {
    ValidClaims(t, c, refresh);
    hide Validate, Authn.LiveAccount, RotateSession;
  }

  /**
   * With nothing in between, the four steps are the atomic operation: same state, and a win exactly when
   * it succeeds.
   */
  lemma StepsRefineRenew(c: Config, w: World, call: nat, tenant: Tenant, refresh: Jwt, a: Id, r: Id)
    requires call !in w.calls
    ensures
      var v := Rotating(Minting(c, Reading(Verifying(c, w, call, tenant, refresh), call), call, a, r), call);
      var atomic := Authn.Renew(c, w.t, tenant, refresh, a, r);
      && v.t == atomic.state
      && call !in v.calls
      && v.wins == if atomic.result.Ok? then w.wins + multiset{SeatOf(refresh.claims)} else w.wins
  {
    ReadsOrEnds(c, w, call, tenant, refresh);
    RenewRotates(c, w.t, tenant, refresh, a, r);
    hide Presentable, Verifying, Reading, RotateSession, Authn.Renew;
  }
}
