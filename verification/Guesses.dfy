/** The lockout: what every attempt row looks like, what a sweep may take, and how fast anyone can guess. */
module Guesses {
  import opened Base
  import opened Schema
  import opened Sql
  import opened Values
  import opened Service
  import opened Integrity
  import opened Growth
  import opened Frames
  import Accounts
  import Authn
  import LogonCodes
  import Oidc

  // ---- one row ----

  function Cap(c: Config): int {
    if c.maxAttempts >= 1 then c.maxAttempts else 1
  }

  /**
   * The count stays within the limit, the row is locked exactly at it, and the lock ends lockFor after
   * the last attempt.
   */
  predicate RowHolds(c: Config, row: Attempt, now: Time) {
    && 1 <= row.count <= Cap(c)
    && (row.lockedUntil.Some? <==> row.count == Cap(c))
    && (row.lockedUntil.Some? ==> row.lockedUntil.value == row.modified + c.lockFor)
    && row.modified <= now
  }

  predicate Blocked(row: Option<Attempt>, now: Time) {
    row.Some? && row.value.lockedUntil.Some? && row.value.lockedUntil.value > now
  }

  /** What the gate leaves of a row it lets pass. */
  function Gated(row: Option<Attempt>, now: Time): Option<Attempt> {
    if row.Some? && row.value.lockedUntil.Some? && row.value.lockedUntil.value <= now then None else row
  }

  lemma CountingKeepsRow(c: Config, row: Option<Attempt>, now: Time)
    requires row.Some? ==> RowHolds(c, row.value, now)
    requires !Blocked(row, now)
    ensures RowHolds(c, Counted(Gated(row, now), now, c.maxAttempts, c.lockFor), now)
  {
  }

  lemma LaterKeepsRow(c: Config, row: Attempt, now: Time, later: Time)
    requires RowHolds(c, row, now) && now <= later
    ensures RowHolds(c, row, later)
  {
  }

  // ---- what an operation does to an account's row ----

  ghost predicate MissedPassword(t: State, k: AccountKey, password: string) {
    Authn.GateLogon(t, k).result.Ok? && !BcryptVerify(Authn.GateLogon(t, k).result.value.password, password)
  }

  ghost predicate MissedCode(t: State, k: AccountKey, code: string) {
    LogonCodes.Gate(t, k, code).result.Ok? && !BcryptVerify(LogonCodes.Gate(t, k, code).result.value.1, code)
  }

  /** A guess: a password or a code that was compared, and did not match. */
  ghost predicate Guessed(t: State, op: Op, k: AccountKey) {
    || (op.OnAuthn? && op.authn.Logon? && op.authn.k == k && MissedPassword(t, k, op.authn.password))
    || (op.OnCodes? && op.code.CodeLogon? && op.code.k == k && MissedCode(t, k, op.code.code))
    || (op.OnOidc? && op.oidc.Login? && op.oidc.tenant != "" && AccountKey(op.oidc.tenant, op.oidc.email) == k &&
        MissedPassword(t, k, op.oidc.password))
  }

  ghost predicate HitPassword(t: State, k: AccountKey, password: string) {
    Authn.GateLogon(t, k).result.Ok? && BcryptVerify(Authn.GateLogon(t, k).result.value.password, password)
  }

  ghost predicate HitCode(t: State, k: AccountKey, code: string) {
    LogonCodes.Gate(t, k, code).result.Ok? && BcryptVerify(LogonCodes.Gate(t, k, code).result.value.1, code)
  }

  /** A success or a committed reset, which clears the row. */
  ghost predicate Forgiven(c: Config, t: State, op: Op, k: AccountKey) {
    || (op.OnAuthn? && op.authn.Logon? && op.authn.k == k && HitPassword(t, k, op.authn.password))
    || (op.OnCodes? && op.code.CodeLogon? && op.code.k == k && HitCode(t, k, op.code.code))
    || (op.OnOidc? && op.oidc.Login? && op.oidc.tenant != "" && AccountKey(op.oidc.tenant, op.oidc.email) == k &&
        HitPassword(t, k, op.oidc.password))
    || (op.OnAccounts? && op.account.Resetting? && op.account.k == k && Step(c, t, op).result.Ok?)
  }

  /** A row that may go without a success: its lock has run out, or a sweep finds it stale. */
  predicate Lapsed(row: Attempt, now: Time, op: Op) {
    || (row.lockedUntil.Some? && row.lockedUntil.value <= now)
    || (op.Janitor? && op.sweep.StaleAttempts? && row.modified < now - op.sweep.olderThan)
  }

  /** The row as the operation found it and as it left it. */
  ghost predicate RowMoves(
    c: Config, now: Time, before: Option<Attempt>, after: Option<Attempt>, missed: bool, hit: bool)
  {
    if missed then !Blocked(before, now) && after == Some(Counted(Gated(before, now), now, c.maxAttempts, c.lockFor))
    else if hit then after == None
    else after == before || after == Gated(before, now)
  }

  lemma CheckLockoutRow(t: State, k: AccountKey, l: AccountKey)
    ensures Authn.CheckLockout(t, k).result.Ok? <==> !Blocked(GetAttempt(t, k), t.now)
    ensures GetAttempt(Authn.CheckLockout(t, k).state, l) ==
              if l == k then Gated(GetAttempt(t, k), t.now) else GetAttempt(t, l)
    ensures Authn.CheckLockout(t, k).result.Err? ==>
              Authn.CheckLockout(t, k) == Reply(t, Err(AccountLocked(GetAttempt(t, k).value.lockedUntil.value)))
  {
  }

  lemma CountRow(c: Config, t: State, k: AccountKey, l: AccountKey)
    ensures GetAttempt(Authn.CountFailure(c, t, k).0, l) ==
            if l == k then Some(Counted(GetAttempt(t, k), t.now, c.maxAttempts, c.lockFor)) else GetAttempt(t, l)
    ensures GetAttempt(ClearAttempts(t, k), l) == if l == k then None else GetAttempt(t, l)
  {
  }

  lemma PasswordRow(c: Config, t: State, k: AccountKey, password: string, l: AccountKey)
    ensures
      var after := GetAttempt(Authn.VerifyPassword(c, t, k, password).state, l);
      if l == k then RowMoves(c, t.now, GetAttempt(t, k), after, MissedPassword(t, k, password),
                              HitPassword(t, k, password))
      else after == GetAttempt(t, l)
  {
    var gate := Authn.GateLogon(t, k);
    GateLeavesSide(t, k);
    GateFrame(t, k);
    CheckLockoutRow(t, k, l);
    assert gate.result.Ok? ==> Authn.CheckLockout(t, k).result.Ok?;
    CountRow(c, gate.state, k, k);
    CountRow(c, gate.state, k, l);
    hide Authn.CheckLockout, Authn.GateLogon, Authn.CountFailure, ClearAttempts, GetAttempt, Counted, BcryptVerify;
  }

  lemma SpendRow(t: State, k: AccountKey, account: Account, l: AccountKey)
    ensures GetAttempt(LogonCodes.Spend(t, k, account), l) == if l == k then None else GetAttempt(t, l)
  {
  }

  lemma CodeRow(c: Config, t: State, k: AccountKey, client: ClientId, code: string, a: Id, r: Id, l: AccountKey)
    ensures
      var after := GetAttempt(LogonCodes.Authenticate(c, t, k, client, code, a, r).state, l);
      if l == k then RowMoves(c, t.now, GetAttempt(t, k), after, MissedCode(t, k, code), HitCode(t, k, code))
      else after == GetAttempt(t, l)
  {
    var gate := LogonCodes.Gate(t, k, code);
    GateFrame(t, k);
    CheckLockoutRow(t, k, l);
    assert gate.state == Authn.CheckLockout(t, k).state && (gate.result.Ok? ==> Authn.CheckLockout(t, k).result.Ok?);
    CountRow(c, gate.state, k, k);
    CountRow(c, gate.state, k, l);
    if gate.result.Ok? { SpendRow(gate.state, k, gate.result.value.0, l); }
    hide Authn.CheckLockout, LogonCodes.Gate, LogonCodes.Spend, Authn.CountFailure, ClearAttempts, GetAttempt, Counted,
         BcryptVerify,
         Authn.Issue;
  }

  lemma CoreDecidesRow(t: State, u: State, k: AccountKey)
    requires CoreOf(t) == CoreOf(u)
    ensures GetAttempt(t, k) == GetAttempt(u, k)
  {
  }

  /** A password change or a deletion does not touch the lockout. */
  lemma {:induction false} BodyLeavesAttempts(
    t: State, k: AccountKey, body: seq<Accounts.Change>, fault: Accounts.Fault, i: nat)
    requires i <= |body| && Accounts.ClearLockout !in body
    ensures Accounts.RunBody(t, k, body, fault, i).state.attempts == t.attempts
  {
    if i > 0 {
      BodyLeavesAttempts(t, k, body, fault, i - 1);
      var u := Accounts.RunBody(t, k, body, fault, i - 1).state;
      assert body[i - 1] in body;
      ExecLeavesAttempts(u, k, body[i - 1]);
      hide Accounts.Exec;
    }
  }

  lemma ExecLeavesAttempts(t: State, k: AccountKey, change: Accounts.Change)
    requires change != Accounts.ClearLockout
    ensures Accounts.Exec(t, k, change).state.attempts == t.attempts
  {
  }

  lemma {:induction false} RevocationsKeepLockout(revokers: seq<Revoker>)
    ensures Accounts.ClearLockout !in Accounts.Revocations(revokers)
  {
    if revokers != [] { RevocationsKeepLockout(revokers[..|revokers| - 1]); }
  }

  lemma CredentialRow(c: Config, t: State, op: Accounts.Op, l: AccountKey)
    requires Accounts.Credential(op)
    ensures
      var r := Accounts.Step(c, t, op);
      GetAttempt(r.state, l) == if op.Resetting? && r.result.Ok? && op.k == l then None else GetAttempt(t, l)
  {
    Accounts.CredentialChangeIsAllOrNothing(c, t, op);
    var u := Accounts.Step(c, t, op).state;
    if l != op.k {
      assert l in u.attempts <==> l in u.attempts - {op.k};
      assert l in t.attempts <==> l in t.attempts - {op.k};
    }
    if !op.Resetting? && Accounts.Step(c, t, op).result.Ok? {
      Accounts.CommittedRanItsBody(c, t, op);
      RevocationsKeepLockout(c.revokers);
      BodyLeavesAttempts(t, op.k, Accounts.BodyOf(c, op), op.fault, |Accounts.BodyOf(c, op)|);
    }
    hide Accounts.Step, Accounts.RunBody;
  }

  lemma SweepRow(t: State, olderThan: Time, l: AccountKey)
    ensures
      var after := GetAttempt(SweepAttempts(t, olderThan), l);
      after == if l in t.attempts && t.attempts[l].modified < t.now - olderThan then None else GetAttempt(t, l)
  {
  }

  lemma LoginRow(c: Config, t: State, op: Oidc.Op, l: AccountKey)
    requires op.Login?
    ensures
      var k, after := AccountKey(op.tenant, op.email), GetAttempt(Oidc.Step(c, t, op).state, l);
      if op.tenant != "" && l == k
      then RowMoves(c, t.now, GetAttempt(t, k), after, MissedPassword(t, k, op.password),
                    HitPassword(t, k, op.password))
      else after == GetAttempt(t, l)
  {
    var k := AccountKey(op.tenant, op.email);
    if op.tenant == "" { assert Oidc.Step(c, t, op).state == t; }
    hide Oidc.Step, RowMoves, MissedPassword, HitPassword;
    if op.tenant != "" {
      LoginFrame(c, t, op);
      CoreDecidesRow(Oidc.Step(c, t, op).state, Authn.VerifyPassword(c, t, k, op.password).state, l);
      PasswordRow(c, t, k, op.password, l);
    }
    hide Authn.VerifyPassword;
  }

  lemma LogonRow(c: Config, t: State, op: Authn.Op, l: AccountKey)
    requires op.Logon?
    ensures
      var after := GetAttempt(Authn.Step(c, t, op).state, l);
      if l == op.k
        then RowMoves(c, t.now, GetAttempt(t, l), after, MissedPassword(t, l, op.password),
                      HitPassword(t, l, op.password))
      else after == GetAttempt(t, l)
  {
    PasswordRow(c, t, op.k, op.password, l);
    assert Authn.Step(c, t, op).state == Authn.VerifyPassword(c, t, op.k, op.password).state by {
      hide Authn.VerifyPassword;
    }
    hide Authn.VerifyPassword, Authn.Step, RowMoves, MissedPassword, HitPassword;
  }

  /** Every operation, and what it does to the row of any account. */
  lemma StepRow(c: Config, t: State, op: Op, k: AccountKey)
    ensures
      var before, after := GetAttempt(t, k), GetAttempt(Step(c, t, op).state, k);
      if Guessed(t, op, k)
        then !Blocked(before, t.now) && after == Some(Counted(Gated(before, t.now), t.now, c.maxAttempts, c.lockFor))
      else if Forgiven(c, t, op, k) then after == None
      else after == before || (after == None && before.Some? && Lapsed(before.value, t.now, op))
  {
    hide MissedPassword, HitPassword, MissedCode, HitCode, GetAttempt, Counted;
    if !TouchesAttempts(op) { StepFrame(c, t, op); SameAttemptsSameRow(t, Step(c, t, op).state, k); }
    else if op.OnAuthn? { LogonRow(c, t, op.authn, k); }
    else if op.OnCodes? {
      CodeRow(c, t, op.code.k, op.code.client, op.code.code, op.code.accessJti, op.code.refreshJti, k);
    }
    else if op.OnOidc? { LoginRow(c, t, op.oidc, k); }
    else if op.OnAccounts? { CredentialRow(c, t, op.account, k); }
    else { SweepRow(t, op.sweep.olderThan, k); RowIsThere(t, k); }
    hide Accounts.Step, Authn.Step, Oidc.Step, SweepAttempts, LogonCodes.Authenticate;
  }

  lemma SameAttemptsSameRow(t: State, u: State, k: AccountKey)
    requires t.attempts == u.attempts
    ensures GetAttempt(t, k) == GetAttempt(u, k)
  {
  }

  lemma RowIsThere(t: State, k: AccountKey)
    ensures GetAttempt(t, k).Some? <==> k in t.attempts
    ensures k in t.attempts ==> GetAttempt(t, k) == Some(t.attempts[k])
  {
  }

  // ---- the lock invariant ----

  ghost predicate LockInv(c: Config, t: State) {
    forall k :: k in t.attempts ==> RowHolds(c, t.attempts[k], t.now)
  }

  lemma StepKeepsLockInv(c: Config, t: State, op: Op)
    requires LockInv(c, t)
    ensures LockInv(c, Step(c, t, op).state)
  {
    var u := Step(c, t, op).state;
    StepGrows(c, t, op);
    assert t.now <= u.now;
    hide Step, Grown, RowHolds, Guessed, Forgiven, Lapsed, Counted, Gated, Blocked;
    forall k | k in u.attempts ensures RowHolds(c, u.attempts[k], u.now) {
      StepRow(c, t, op, k);
      if k in t.attempts { LaterKeepsRow(c, t.attempts[k], t.now, u.now); }
      if Guessed(t, op, k) {
        CountingKeepsRow(c, GetAttempt(t, k), t.now);
        LaterKeepsRow(c, Counted(Gated(GetAttempt(t, k), t.now), t.now, c.maxAttempts, c.lockFor), t.now, u.now);
      }
    }
  }

  /**
   * In every state a run reaches, attempts one at a time: no count is above the limit, a row is
   * locked exactly when its count is at it, and the lock ends lockFor after the last attempt.
   */
  lemma {:induction false} RunKeepsLockInv(c: Config, t: State, ops: seq<Op>)
    requires LockInv(c, t)
    ensures LockInv(c, Run(c, t, ops))
    decreases |ops|
  {
    hide Step, LockInv;
    if ops != [] {
      StepKeepsLockInv(c, t, ops[0]);
      RunKeepsLockInv(c, Step(c, t, ops[0]).state, ops[1..]);
    }
  }

  /** A sweep takes an active lock exactly when it calls rows stale sooner than locks end. */
  lemma SweepTakesLockIff(c: Config, t: State, olderThan: Time, k: AccountKey)
    requires LockInv(c, t) && Blocked(GetAttempt(t, k), t.now)
    ensures GetAttempt(SweepAttempts(t, olderThan), k) != GetAttempt(t, k) <==>
              olderThan < t.now - t.attempts[k].modified
    ensures t.now - t.attempts[k].modified < c.lockFor
  {
    assert RowHolds(c, t.attempts[k], t.now);
  }

  /** ... so a stale age of at least lockFor never frees anyone early. */
  lemma PatientSweepKeepsLocks(c: Config, t: State, olderThan: Time, k: AccountKey)
    requires LockInv(c, t) && olderThan >= c.lockFor && Blocked(GetAttempt(t, k), t.now)
    ensures GetAttempt(SweepAttempts(t, olderThan), k) == GetAttempt(t, k)
  {
    SweepTakesLockIff(c, t, olderThan, k);
  }

  /** Logging on, by password or by code, on either surface. */
  predicate Attempts(op: Op, k: AccountKey) {
    || (op.OnAuthn? && op.authn.Logon? && op.authn.k == k)
    || (op.OnCodes? && op.code.CodeLogon? && op.code.k == k)
    || (op.OnOidc? && op.oidc.Login? && op.oidc.tenant != "" && AccountKey(op.oidc.tenant, op.oidc.email) == k)
  }

  /** While the lock runs, an attempt reports it and changes nothing, right or wrong. */
  lemma BlockedChangesNothing(c: Config, t: State, op: Op, k: AccountKey)
    requires Attempts(op, k) && Blocked(GetAttempt(t, k), t.now)
    ensures Step(c, t, op) == Reply(t, Err(AccountLocked(GetAttempt(t, k).value.lockedUntil.value)))
  {
    CheckLockoutRow(t, k, k);
    hide Authn.CheckLockout, GetAttempt, InsertBrowser, ReadAccount, ReadCode;
  }

  // ---- the guess rate ----

  /** How many guesses fit into a stretch of time: max at once, and max again each time a lock has run. */
  function Quota(max: int, lockFor: Time, d: int): int
    requires lockFor > 0
    decreases if d < 0 then 0 else d + 1
  {
    if d < 0 then 0 else max + Quota(max, lockFor, d - lockFor)
  }

  lemma {:induction false} QuotaGrows(max: int, lockFor: Time, d: int, e: int)
    requires lockFor > 0 && max >= 0 && d <= e
    ensures 0 <= Quota(max, lockFor, d) <= Quota(max, lockFor, e)
    decreases if e < 0 then 0 else e + 1
  {
    if e >= 0 { QuotaGrows(max, lockFor, d - lockFor, e - lockFor); }
  }

  lemma QuotientIs(n: int, d: int, q: int, r: int)
    requires d > 0 && n == q * d + r && 0 <= r < d
    ensures n / d == q
  {
    var e := q - n / d;
    assert e * d == n % d - r by {
      assert n == (n / d) * d + n % d;
      assert e * d == q * d - (n / d) * d;
    }
    MultiplesAreFar(e, d);
  }

  lemma MultiplesAreFar(e: int, d: int)
    requires d > 0
    ensures (e >= 1 ==> e * d >= d) && (e <= -1 ==> e * d <= -d)
  {
    if e >= 1 { assert (e - 1) * d >= 0; }
    if e <= -1 { assert (-1 - e) * d >= 0; }
  }

  lemma QuotientSteps(n: int, d: int)
    requires d > 0
    ensures (n - d) / d == n / d - 1
  {
    var q := n / d;
    assert (q - 1) * d == q * d - d;
    QuotientIs(n - d, d, q - 1, n % d);
  }

  lemma {:induction false} QuotaClosedForm(max: int, lockFor: Time, d: int)
    requires lockFor > 0 && d >= 0
    ensures Quota(max, lockFor, d) == max * (d / lockFor + 1)
    decreases d
  {
    if d < lockFor {
      QuotientIs(d, lockFor, 0, d);
      assert Quota(max, lockFor, d - lockFor) == 0;
    } else {
      QuotaClosedForm(max, lockFor, d - lockFor);
      QuotientSteps(d, lockFor);
      var q := d / lockFor;
      assert max + max * q == max * (q + 1);
    }
  }

  /** The most guesses that a row still allows between now and the end. */
  function Room(c: Config, row: Option<Attempt>, now: Time, end: Time): int
    requires c.lockFor > 0
  {
    match row
    case None => Quota(c.maxAttempts, c.lockFor, end - now)
    case Some(a) =>
      var using := c.maxAttempts - a.count + Quota(c.maxAttempts, c.lockFor, end - now - c.lockFor);
      var waiting :=
        Quota(c.maxAttempts, c.lockFor, end - (if a.modified + c.lockFor < now then now else a.modified + c.lockFor));
      if using >= waiting then using else waiting
  }

  predicate Limited(c: Config) {
    c.maxAttempts >= 1 && c.lockFor > 0
  }

  lemma RoomIsQuota(c: Config, row: Option<Attempt>, now: Time, end: Time)
    requires Limited(c) && now <= end && (row.Some? ==> RowHolds(c, row.value, now))
    ensures 0 <= Room(c, row, now, end) <= Quota(c.maxAttempts, c.lockFor, end - now)
  {
    QuotaGrows(c.maxAttempts, c.lockFor, end - now - c.lockFor, end - now);
    if row.Some? {
      var a := row.value;
      QuotaGrows(c.maxAttempts, c.lockFor, end - (if a.modified + c.lockFor < now then now else a.modified + c.lockFor),
                 end - now);
    }
  }

  lemma RoomShrinks(c: Config, row: Option<Attempt>, now: Time, later: Time, end: Time)
    requires Limited(c) && now <= later && (row.Some? ==> RowHolds(c, row.value, now))
    ensures Room(c, row, later, end) <= Room(c, row, now, end)
  {
    QuotaGrows(c.maxAttempts, c.lockFor, end - later, end - now);
    QuotaGrows(c.maxAttempts, c.lockFor, end - later - c.lockFor, end - now - c.lockFor);
    if row.Some? {
      var free := row.value.modified + c.lockFor;
      QuotaGrows(c.maxAttempts, c.lockFor, end - (if free < later then later else free),
                 end - (if free < now then now else free));
    }
  }

  /** A row whose lock time has passed can go without making room. */
  lemma LapsingMakesNoRoom(c: Config, row: Attempt, now: Time, end: Time)
    requires Limited(c) && row.modified + c.lockFor <= now
    ensures Room(c, None, now, end) <= Room(c, Some(row), now, end)
  {
  }

  /** Each guess uses up room for one. */
  lemma GuessUsesRoom(c: Config, row: Option<Attempt>, now: Time, end: Time)
    requires Limited(c) && now <= end && (row.Some? ==> RowHolds(c, row.value, now)) && !Blocked(row, now)
    ensures Room(c, Some(Counted(Gated(row, now), now, c.maxAttempts, c.lockFor)), now, end) <=
              Room(c, row, now, end) - 1
  {
    QuotaGrows(c.maxAttempts, c.lockFor, end - now - c.lockFor, end - now);
    if row.Some? {
      QuotaGrows(c.maxAttempts, c.lockFor, end - now - c.lockFor,
                 end - (if row.value.modified + c.lockFor < now then now else row.value.modified + c.lockFor));
    }
  }

  ghost function Mismatches(c: Config, t: State, ops: seq<Op>, k: AccountKey): nat
    decreases |ops|
  {
    if ops == [] then 0
    else (if Guessed(t, ops[0], k) then 1 else 0) + Mismatches(c, Step(c, t, ops[0]).state, ops[1..], k)
  }

  ghost predicate NeverForgiven(c: Config, t: State, ops: seq<Op>, k: AccountKey)
    decreases |ops|
  {
    ops == [] || (!Forgiven(c, t, ops[0], k) && NeverForgiven(c, Step(c, t, ops[0]).state, ops[1..], k))
  }

  /** The janitor calls no row stale before a lock would have ended. */
  predicate Patient(c: Config, op: Op) {
    op.Janitor? && op.sweep.StaleAttempts? ==> op.sweep.olderThan >= c.lockFor
  }

  lemma StepUsesRoom(c: Config, t: State, op: Op, k: AccountKey, end: Time)
    requires Limited(c) && LockInv(c, t) && Patient(c, op) && !Forgiven(c, t, op, k) && t.now <= end
    ensures
      Room(c, GetAttempt(Step(c, t, op).state, k), t.now, end) +
        (if Guessed(t, op, k) then 1 else 0) <= Room(c, GetAttempt(t, k), t.now, end)
  {
    var before, after := GetAttempt(t, k), GetAttempt(Step(c, t, op).state, k);
    RowIsThere(t, k);
    StepRow(c, t, op, k);
    if Guessed(t, op, k) {
      GuessUsesRoom(c, before, t.now, end);
    } else if after != before {
      assert RowHolds(c, before.value, t.now);
      LapsingMakesNoRoom(c, before.value, t.now, end);
    }
    hide Step, GetAttempt, Guessed, Forgiven, Room, Counted;
  }

  lemma {:induction false} GuessesFitTheRoom(c: Config, t: State, ops: seq<Op>, k: AccountKey, end: Time)
    requires Limited(c) && LockInv(c, t) && NeverForgiven(c, t, ops, k) && forall op :: op in ops ==> Patient(c, op)
    requires Run(c, t, ops).now == end
    ensures t.now <= end && Mismatches(c, t, ops, k) <= Room(c, GetAttempt(t, k), t.now, end)
    decreases |ops|
  {
    hide Step, LockInv, Guessed, Forgiven, Patient, Room;
    RowIsThere(t, k);
    RowAtHand(c, t, k);
    if ops == [] {
      RoomIsQuota(c, GetAttempt(t, k), t.now, end);
    } else {
      var u := Step(c, t, ops[0]).state;
      StepKeepsLockInv(c, t, ops[0]);
      GuessesFitTheRoom(c, u, ops[1..], k, end);
      StepGrows(c, t, ops[0]);
      RowAtHand(c, u, k);
      StepUsesRoom(c, t, ops[0], k, end);
      RowEarlier(c, t, ops[0], k);
      RoomShrinks(c, GetAttempt(u, k), t.now, u.now, end);
    }
    hide Grown, GetAttempt, Run;
  }

  lemma RowAtHand(c: Config, t: State, k: AccountKey)
    requires LockInv(c, t)
    ensures GetAttempt(t, k).Some? ==> RowHolds(c, GetAttempt(t, k).value, t.now)
  {
  }

  /** What a step leaves of a row was last modified no later than the step began. */
  lemma RowEarlier(c: Config, t: State, op: Op, k: AccountKey)
    requires LockInv(c, t)
    ensures var row := GetAttempt(Step(c, t, op).state, k); row.Some? ==> RowHolds(c, row.value, t.now)
  {
    RowAtHand(c, t, k);
    StepRow(c, t, op, k);
    if Guessed(t, op, k) { CountingKeepsRow(c, GetAttempt(t, k), t.now); }
    hide Step, GetAttempt, Guessed, Forgiven, Counted, Gated, LockInv;
  }

  /**
   * The guess rate. In any window without a success or a reset, with a stale age of at least the
   * lock length, at most max * (floor(window / lockFor) + 1) password or code guesses against one
   * account are compared, sweeps and every other operation included.
   */
  lemma {:induction false} GuessRateIsBounded(c: Config, t: State, ops: seq<Op>, k: AccountKey)
    requires Limited(c) && LockInv(c, t) && NeverForgiven(c, t, ops, k) && forall op :: op in ops ==> Patient(c, op)
    ensures
      var window := Run(c, t, ops).now - t.now;
      window >= 0 && Mismatches(c, t, ops, k) <= c.maxAttempts * (window / c.lockFor + 1)
  {
    var end := Run(c, t, ops).now;
    GuessesFitTheRoom(c, t, ops, k, end);
    RowAtHand(c, t, k);
    RoomIsQuota(c, GetAttempt(t, k), t.now, end);
    QuotaClosedForm(c.maxAttempts, c.lockFor, end - t.now);
    hide Run, Mismatches, NeverForgiven, LockInv, Room, Quota, GetAttempt, Patient;
  }
}
