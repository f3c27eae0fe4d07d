/** The whole service: every operation as one atomic step, and runs of them. */
module Service {
  import opened Base
  import opened Schema
  import opened Sql
  import opened Values
  import Accounts
  import Authn
  import LogonCodes
  import Oidc

  /** What the hourly janitor deletes, one statement group at a time. */
  datatype Sweep =
    | ExpiredSessions
    | ExpiredCodes
    | ExpiredResets
    | StaleAttempts(olderThan: Time)
    | ExpiredRequests
    | ExpiredTokens
    | ExpiredBrowsers

  ghost function Swept(t: State, sweep: Sweep): State {
    match sweep
    case ExpiredSessions => SweepSessions(t)
    case ExpiredCodes => SweepCodes(t)
    case ExpiredResets => SweepResets(t)
    case StaleAttempts(olderThan) => SweepAttempts(t, olderThan)
    case ExpiredRequests => SweepRequests(t)
    case ExpiredTokens => SweepTokens(t)
    case ExpiredBrowsers => SweepBrowsers(t)
  }

  datatype Op =
    | OnAccounts(account: Accounts.Op)
    | OnAuthn(authn: Authn.Op)
    | OnCodes(code: LogonCodes.Op)
    | OnOidc(oidc: Oidc.Op)
    | Janitor(sweep: Sweep)
    | Tick(delay: nat)
    | Reload(ring: Keyring)

  ghost function Step(c: Config, t: State, op: Op): Reply<Value> {
    match op
    case OnAccounts(o) => Accounts.Step(c, t, o)
    case OnAuthn(o) => Authn.Step(c, t, o)
    case OnCodes(o) => LogonCodes.Step(c, t, o)
    case OnOidc(o) => Oidc.Step(c, t, o)
    case Janitor(sweep) => Reply(Swept(t, sweep), Ok(Nothing))
    case Tick(delay) => Reply(t.(now := t.now + delay), Ok(Nothing))
    case Reload(ring) => Reply(t.(ring := ring), Ok(Nothing))
  }

  ghost function Run(c: Config, t: State, ops: seq<Op>): State
    decreases |ops|
  {
    if ops == [] then t else Run(c, Step(c, t, ops[0]).state, ops[1..])
  }

  lemma {:induction false} RunConcat(c: Config, t: State, ops: seq<Op>, more: seq<Op>)
    ensures Run(c, t, ops + more) == Run(c, Run(c, t, ops), more)
    decreases |ops|
  {
    if ops == [] {
      assert ops + more == more;
    } else {
      assert (ops + more)[1..] == ops[1..] + more;
      RunConcat(c, Step(c, t, ops[0]).state, ops[1..], more);
    }
  }

  // ---- minted values ----

  /** The uuids, secrets and codes an operation mints; nothing else of an operation is new. */
  function MintsOf(op: Op): seq<Id> {
    match op
    case OnAccounts(Registration(_, _, _, id, token)) => [id, token]
    case OnAccounts(Resending(_, token)) => [token]
    case OnAccounts(Forgetting(_, token)) => [token]
    case OnAuthn(Logon(_, _, _, access, refresh)) => [access, refresh]
    case OnAuthn(Renewal(_, _, access, refresh)) => [access, refresh]
    case OnCodes(CodeLogon(_, _, _, access, refresh)) => [access, refresh]
    case OnOidc(Authorize(_, id, _, _)) => [id]
    case OnOidc(StoreCode(_, _, code)) => [code]
    case OnOidc(Exchange(_, _, _, m)) => [m.refresh, m.secret, m.access]
    case OnOidc(Refresh(_, _, _, m)) => [m.refresh, m.secret, m.access]
    case OnOidc(Login(_, _, _, id, cookie)) => [id, cookie]
    case _ => []
  }

  predicate Distinct(ids: seq<Id>) {
    forall i, j :: 0 <= i < j < |ids| ==> ids[i] != ids[j]
  }

  predicate Fresh(used: set<Id>, op: Op) {
    Distinct(MintsOf(op)) && forall id :: id in MintsOf(op) ==> id !in used
  }

  function Using(used: set<Id>, op: Op): set<Id> {
    used + set id | id in MintsOf(op)
  }

  /** A run mints from one fresh supply: no value twice, none that is already known. */
  ghost predicate WellMinted(used: set<Id>, ops: seq<Op>)
    decreases |ops|
  {
    ops == [] || (Fresh(used, ops[0]) && WellMinted(Using(used, ops[0]), ops[1..]))
  }

  ghost function UsedBy(used: set<Id>, ops: seq<Op>): set<Id>
    decreases |ops|
  {
    if ops == [] then used else UsedBy(Using(used, ops[0]), ops[1..])
  }

  /** Every id and hashed secret the tables hold has been minted. */
  ghost predicate Known(used: set<Id>, t: State) {
    && (forall k :: k in t.accounts ==> t.accounts[k].id in used)
    && (forall i :: i in t.requests ==> i in used)
    && (forall i :: i in t.requests && t.requests[i].code.Some? ==> t.requests[i].code.value.of in used)
    && (forall i :: i in t.refresh ==> i in used && t.refresh[i].hash.of in used)
    && (forall i :: i in t.access ==> i in used)
    && (forall i :: i in t.browsers ==> i in used && t.browsers[i].hash.of in used)
  }
}
