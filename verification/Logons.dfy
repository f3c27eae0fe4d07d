/** Who may log on, with what, and what it leaves: passwords and one-time codes, read off the tables. */
module Logons {
  import opened Base
  import opened Schema
  import opened Sql
  import opened Tokens
  import opened Values
  import opened Service
  import opened OneTime
  import opened Frames
  import opened Growth
  import Accounts
  import Authn
  import LogonCodes
  import Oidc

  // ---- the guards ----

  ghost predicate LockRuns(t: State, k: AccountKey) {
    k in t.attempts && t.attempts[k].lockedUntil.Some? && t.attempts[k].lockedUntil.value > t.now
  }

  /** The failures on record, the one at hand included; a lapsed lock starts the count anew. */
  ghost function Attempts(t: State, k: AccountKey): int {
    if k in t.attempts && t.attempts[k].lockedUntil.None? then t.attempts[k].count + 1 else 1
  }

  /** A wrong guess is told of the lock that it starts. */
  ghost function Missed(c: Config, t: State, k: AccountKey): Error {
    if Attempts(t, k) >= c.maxAttempts && c.lockFor > 0 then AccountLocked(t.now + c.lockFor) else AuthenticationFailed
  }

  /** The first guard of a password logon, before the comparison, that fails. */
  ghost function PasswordGuard(t: State, k: AccountKey): Option<Error> {
    if LockRuns(t, k) then Some(AccountLocked(t.attempts[k].lockedUntil.value))
    else if k !in t.accounts || t.accounts[k].deleted then Some(AuthenticationFailed)
    else if !t.accounts[k].enabled then Some(AccountDisabled)
    else if !t.accounts[k].verified then Some(AccountNotVerified)
    else None
  }

  ghost function PasswordRefusal(c: Config, t: State, k: AccountKey, password: string): Option<Error> {
    if PasswordGuard(t, k).Some? then PasswordGuard(t, k)
    else if t.accounts[k].password.of != password then Some(Missed(c, t, k))
    else None
  }

  predicate SixDigits(code: string) {
    |code| == 6 && forall i :: 0 <= i < 6 ==> code[i] in "0123456789"
  }

  /** The first guard before the comparison that fails; a code logon asks for no verified account. */
  ghost function CodeGuard(t: State, k: AccountKey, code: string): Option<Error> {
    if LockRuns(t, k) then Some(AccountLocked(t.attempts[k].lockedUntil.value))
    else if !SixDigits(code) then Some(LogonCodeInvalid)
    else if k !in t.accounts || t.accounts[k].deleted then Some(AuthenticationFailed)
    else if !t.accounts[k].enabled then Some(AccountDisabled)
    else if k !in t.codes then Some(LogonCodeInvalid)
    else if t.codes[k].expires < t.now then Some(LogonCodeExpired)
    else None
  }

  ghost function CodeRefusal(c: Config, t: State, k: AccountKey, code: string): Option<Error> {
    if CodeGuard(t, k, code).Some? then CodeGuard(t, k, code)
    else if t.codes[k].hash.of != code then Some(Missed(c, t, k))
    else None
  }

  /** The guess was compared, and was wrong. */
  ghost predicate WrongPassword(t: State, k: AccountKey, password: string) {
    PasswordGuard(t, k).None? && t.accounts[k].password.of != password
  }

  ghost predicate WrongCode(t: State, k: AccountKey, code: string) {
    CodeGuard(t, k, code).None? && t.codes[k].hash.of != code
  }

  /** The account's attempt row after a logon that failed: counted, forgotten if its lock has lapsed, or as it was. */
  ghost function AttemptAfter(c: Config, t: State, k: AccountKey, compared: bool): Option<Attempt> {
    if compared then
      var tries := Attempts(t, k);
      Some(Attempt(tries, if tries >= c.maxAttempts then Some(t.now + c.lockFor) else None, t.now))
    else if k in t.attempts && t.attempts[k].lockedUntil.Some? && t.attempts[k].lockedUntil.value <= t.now then None
    else if k in t.attempts then Some(t.attempts[k])
    else None
  }

  ghost predicate OnlyAttemptIs(t: State, u: State, k: AccountKey, row: Option<Attempt>) {
    && u == t.(attempts := u.attempts)
    && u.attempts - {k} == t.attempts - {k}
    && (if row.Some? then k in u.attempts && u.attempts[k] == row.value else k !in u.attempts)
  }

  lemma GateIs(t: State, k: AccountKey)
    ensures
      var row := if k in t.attempts then t.attempts[k].lockedUntil else None;
      Authn.CheckLockout(t, k) ==
      if row.None? then Reply(t, Ok(()))
      else if row.value > t.now then Reply(t, Err(AccountLocked(row.value)))
      else Reply(t.(attempts := t.attempts - {k}), Ok(()))
  {
  }

  lemma WithoutTwice(m: map<AccountKey, Attempt>, k: AccountKey)
    ensures m - {k} - {k} == m - {k}
  {
  }

  lemma LockChecked(t: State, k: AccountKey)
    ensures
      var gate := Authn.CheckLockout(t, k);
      && gate.result == (if LockRuns(t, k) then Err(AccountLocked(t.attempts[k].lockedUntil.value)) else Ok(()))
      && (forall c :: OnlyAttemptIs(t, gate.state, k, AttemptAfter(c, t, k, false)))
      && gate.state.accounts == t.accounts && gate.state.codes == t.codes && gate.state.now == t.now
      && (!LockRuns(t, k) ==> OnlyAttemptIs(t, ClearAttempts(gate.state, k), k, None))
  {
    GateIs(t, k);
    WithoutTwice(t.attempts, k);
    hide Authn.CheckLockout;
  }

  /** What a gate that lets through leaves of the row: a count without a lock, or nothing. */
  lemma OpenGateLeaves(t: State, k: AccountKey)
    requires !LockRuns(t, k)
    ensures
      var u := Authn.CheckLockout(t, k).state;
      && u == t.(attempts := u.attempts) && u.attempts - {k} == t.attempts - {k}
      && (k in u.attempts <==> k in t.attempts && t.attempts[k].lockedUntil.None?)
      && (k in u.attempts ==> u.attempts[k] == t.attempts[k])
  {
    GateIs(t, k);
    WithoutTwice(t.attempts, k);
    hide Authn.CheckLockout;
  }

  lemma PutIsOnly(t: State, u: State, k: AccountKey, row: Attempt)
    requires u == t.(attempts := u.attempts) && u.attempts - {k} == t.attempts - {k}
    ensures OnlyAttemptIs(t, u.(attempts := u.attempts[k := row]), k, Some(row))
  {
    assert u.attempts[k := row] - {k} == u.attempts - {k};
  }

  lemma RowCounted(c: Config, t: State, u: State, k: AccountKey)
    requires u.now == t.now && (k in u.attempts <==> k in t.attempts && t.attempts[k].lockedUntil.None?)
    requires k in u.attempts ==> u.attempts[k] == t.attempts[k]
    ensures Some(Counted(GetAttempt(u, k), u.now, c.maxAttempts, c.lockFor)) == AttemptAfter(c, t, k, true)
  {
  }

  lemma CountPuts(c: Config, u: State, k: AccountKey, row: Attempt)
    requires row == Counted(GetAttempt(u, k), u.now, c.maxAttempts, c.lockFor)
    ensures
      Authn.CountFailure(c, u, k) ==
      (u.(attempts := u.attempts[k := row]),
       if row.lockedUntil.Some? && row.lockedUntil.value > u.now then AccountLocked(row.lockedUntil.value)
       else AuthenticationFailed)
  {
    hide Counted, GetAttempt;
  }

  lemma MissedIsTold(c: Config, t: State, k: AccountKey)
    ensures
      var lock := AttemptAfter(c, t, k, true).value.lockedUntil;
      Missed(c, t, k) == if lock.Some? && lock.value > t.now then AccountLocked(lock.value) else AuthenticationFailed
  {
  }

  lemma FailureCounted(c: Config, t: State, k: AccountKey)
    requires !LockRuns(t, k)
    ensures
      var counted := Authn.CountFailure(c, Authn.CheckLockout(t, k).state, k);
      counted.1 == Missed(c, t, k) && OnlyAttemptIs(t, counted.0, k, AttemptAfter(c, t, k, true))
  {
    var u, row := Authn.CheckLockout(t, k).state, AttemptAfter(c, t, k, true).value;
    OpenGateLeaves(t, k);
    RowCounted(c, t, u, k);
    CountPuts(c, u, k, row);
    PutIsOnly(t, u, k, row);
    MissedIsTold(c, t, k);
    hide *;
  }

  lemma CountLeavesTheRest(c: Config, t: State, k: AccountKey)
    ensures
      var counted := Authn.CountFailure(c, t, k);
      counted.0.accounts == t.accounts && counted.0.codes == t.codes
  {
  }

  lemma GuardedFirst(c: Config, t: State, k: AccountKey, code: string)
    ensures CodeGuard(t, k, code).None? ==> !LockRuns(t, k) && k in t.accounts
    ensures LockRuns(t, k) ==> AttemptAfter(c, t, k, false) == Some(t.attempts[k])
  {
  }

  // ---- password logon ----

  lemma PasswordGated(t: State, k: AccountKey)
    ensures
      var gate := Authn.GateLogon(t, k);
      && gate.state == Authn.CheckLockout(t, k).state
      && gate.result ==
         if PasswordGuard(t, k).Some? then Err(PasswordGuard(t, k).value) else Ok(t.accounts[k])
  {
    LockChecked(t, k);
    hide Authn.CheckLockout, OnlyAttemptIs, AttemptAfter, LockRuns;
  }

  /** The check that a logon and the login form share: what it answers, and the row it leaves. */
  lemma PasswordChecked(c: Config, t: State, k: AccountKey, password: string)
    ensures
      var r := Authn.VerifyPassword(c, t, k, password);
      var refusal := PasswordRefusal(c, t, k, password);
      && r.result == (if refusal.Some? then Err(refusal.value) else Ok(t.accounts[k]))
      && OnlyAttemptIs(t, r.state, k,
                       if refusal.None? then None else AttemptAfter(c, t, k, WrongPassword(t, k, password)))
  {
    PasswordGated(t, k);
    LockChecked(t, k);
    if !LockRuns(t, k) { FailureCounted(c, t, k); }
    assert LockRuns(t, k) ==> PasswordGuard(t, k).Some?;
    hide Authn.GateLogon, PasswordGuard, Authn.CheckLockout, Authn.CountFailure, ClearAttempts, OnlyAttemptIs;
    hide AttemptAfter, LockRuns, Missed;
  }

  /**
   * A password logon succeeds exactly when no lock runs and the account is there, not deleted,
   * enabled and verified, and stores this password; otherwise the first guard that fails says why.
   * A wrong password is counted, and a success forgets the failures; nothing else changes.
   */
  lemma PasswordLogonIff(c: Config, t: State, k: AccountKey, client: ClientId, password: string, a: Id, r: Id)
    ensures
      var x := Step(c, t, OnAuthn(Authn.Logon(k, client, password, a, r)));
      var refusal := PasswordRefusal(c, t, k, password);
      && (if refusal.Some? then x.result == Err(refusal.value) else x.result.Ok?)
      && OnlyAttemptIs(t, x.state, k,
                       if refusal.None? then None else AttemptAfter(c, t, k, WrongPassword(t, k, password)))
  {
    PasswordChecked(c, t, k, password);
    hide Authn.VerifyPassword, PasswordRefusal, AttemptAfter, WrongPassword, OnlyAttemptIs, Authn.Issue;
  }

  ghost predicate FreshCookie(t: State, id: Id, cookie: Secret) {
    id !in t.browsers && forall i :: i in t.browsers ==> t.browsers[i].hash != Sha256(cookie)
  }

  /** The login form asks the same, and opens a session of the account under the cookie it mints. */
  lemma LoginIff(c: Config, t: State, k: AccountKey, password: string, id: Id, cookie: Secret)
    requires k.tenant != "" && FreshCookie(t, id, cookie)
    ensures
      var x := Step(c, t, OnOidc(Oidc.Login(k.tenant, k.email, password, id, cookie)));
      var refusal := PasswordRefusal(c, t, k, password);
      && x.result == (if refusal.Some? then Err(refusal.value) else Ok(CookieOf(cookie, t.accounts[k].id)))
      && x.state.browsers ==
         (if refusal.Some? then t.browsers
          else t.browsers[id :=
                          BrowserSession(k.tenant, Sha256(cookie), t.accounts[k].id, t.now, t.now + c.cookieExpiry)])
      && OnlyAttemptIs(t, x.state.(browsers := t.browsers), k,
                       if refusal.None? then None else AttemptAfter(c, t, k, WrongPassword(t, k, password)))
  {
    PasswordChecked(c, t, k, password);
    var logon := Authn.VerifyPassword(c, t, k, password);
    assert AccountKey(k.tenant, k.email) == k;
    assert logon.state == t.(attempts := logon.state.attempts);
    PassedIsThere(c, t, k, password);
    if logon.result.Ok? { FreshCookieOpens(c, logon.state, k, id, cookie); }
    SignInIs(c, t, k, password, id, cookie);
    hide Authn.VerifyPassword, PasswordRefusal, AttemptAfter, WrongPassword, InsertBrowser, Oidc.SignIn;
  }

  lemma PassedIsThere(c: Config, t: State, k: AccountKey, password: string)
    ensures PasswordRefusal(c, t, k, password).None? ==> k in t.accounts
  {
  }

  lemma SignInIs(c: Config, t: State, k: AccountKey, password: string, id: Id, cookie: Secret)
    requires Authn.VerifyPassword(c, t, k, password).state.now == t.now
    ensures
      var logon, signed := Authn.VerifyPassword(c, t, k, password), Oidc.SignIn(c, t, k, password, id, cookie);
      if logon.result.Err? then signed == Reply(logon.state, Err(logon.result.error))
      else
        var owner := logon.result.value.id;
        var row := BrowserSession(k.tenant, Sha256(cookie), owner, t.now, t.now + c.cookieExpiry);
        var created := InsertBrowser(logon.state, id, row);
        signed == Reply(created.state, if created.result.Ok? then Ok(CookieOf(cookie, owner))
                        else Err(created.result.error))
  {
    hide Authn.VerifyPassword, InsertBrowser;
  }

  lemma FreshCookieOpens(c: Config, t: State, k: AccountKey, id: Id, cookie: Secret)
    requires k in t.accounts && FreshCookie(t, id, cookie)
    ensures
      var row := BrowserSession(k.tenant, Sha256(cookie), t.accounts[k].id, t.now, t.now + c.cookieExpiry);
      InsertBrowser(t, id, row) == Reply(t.(browsers := t.browsers[id := row]), Ok(()))
  {
    assert BrowserWithHash(t, Sha256(cookie)).None?;
    assert AccountWithId(t, t.accounts[k].id).Some?;
    hide BrowserWithHash, AccountWithId;
  }

  // ---- code logon ----

  /** The account a code logon leaves: verified, and with no verification left to do. */
  ghost function Proven(a: Account): Account {
    Account(a.id, a.password, true, if a.verified then a.verification else None, a.enabled, a.deleted)
  }

  lemma CodeGated(t: State, k: AccountKey, code: string)
    ensures
      var gate := LogonCodes.Gate(t, k, code);
      && gate.state == Authn.CheckLockout(t, k).state
      && gate.result ==
         if CodeGuard(t, k, code).Some? then Err(CodeGuard(t, k, code).value)
         else Ok((t.accounts[k], t.codes[k].hash))
  {
    LockChecked(t, k);
    assert ValidCode(code) <==> SixDigits(code);
    hide Authn.CheckLockout, ClearAttempts, OnlyAttemptIs, AttemptAfter, LockRuns, ValidCode, SixDigits;
  }

  lemma SpendWrites(u: State, k: AccountKey)
    requires k in u.accounts
    ensures
      LogonCodes.Spend(u, k, u.accounts[k]) ==
      u.(accounts := u.accounts[k := Proven(u.accounts[k])], codes := u.codes - {k}, attempts := u.attempts - {k})
  {
    if u.accounts[k].verified { assert u.accounts[k := Proven(u.accounts[k])] == u.accounts; }
  }

  lemma CodeSpent(t: State, k: AccountKey)
    requires !LockRuns(t, k) && k in t.accounts
    ensures
      var v := LogonCodes.Spend(Authn.CheckLockout(t, k).state, k, t.accounts[k]);
      && v.accounts == t.accounts[k := Proven(t.accounts[k])]
      && v.codes == t.codes - {k}
      && OnlyAttemptIs(t, v.(accounts := t.accounts, codes := t.codes), k, None)
  {
    var u := Authn.CheckLockout(t, k).state;
    OpenGateLeaves(t, k);
    SpendWrites(u, k);
    assert u.attempts - {k} - {k} == u.attempts - {k};
    hide Authn.CheckLockout, LogonCodes.Spend, Proven, LockRuns;
  }

  /**
   * A code logon succeeds exactly when no lock runs and the account, verified or not, is there, not
   * deleted and enabled, and its slot holds this code, in time. It then burns the code, forgets the
   * failures and verifies the account; a wrong code is counted; nothing else changes.
   */
  lemma CodeLogonIff(c: Config, t: State, k: AccountKey, client: ClientId, code: string, a: Id, r: Id)
    ensures
      var x := Step(c, t, OnCodes(LogonCodes.CodeLogon(k, client, code, a, r)));
      var refusal := CodeRefusal(c, t, k, code);
      && (if refusal.Some? then x.result == Err(refusal.value) else x.result.Ok?)
      && x.state.accounts == (if refusal.Some? then t.accounts else t.accounts[k := Proven(t.accounts[k])])
      && x.state.codes == (if refusal.Some? then t.codes else t.codes - {k})
      && OnlyAttemptIs(t, x.state.(accounts := t.accounts, codes := t.codes), k,
                       if refusal.None? then None else AttemptAfter(c, t, k, WrongCode(t, k, code)))
  {
    CodeGated(t, k, code);
    LockChecked(t, k);
    if !LockRuns(t, k) {
      FailureCounted(c, t, k);
      if k in t.accounts { CodeSpent(t, k); }
    }
    CountLeavesTheRest(c, Authn.CheckLockout(t, k).state, k);
    GuardedFirst(c, t, k, code);
    hide LogonCodes.Gate, LogonCodes.Spend, CodeGuard, AttemptAfter, Authn.Issue, Missed, Proven, LockRuns;
    hide Authn.CheckLockout, Authn.CountFailure;
  }

  /** Requesting stores the code for an account that is there, not deleted and enabled, verified or not. */
  lemma RequestIff(c: Config, t: State, k: AccountKey, code: string, salt: nat)
    ensures
      var x := Step(c, t, OnCodes(LogonCodes.RequestCode(k, code, salt)));
      var until := t.now + c.codeExpiry;
      x ==
      if k !in t.accounts || t.accounts[k].deleted then Reply(t, Err(AccountNotFound))
      else if !t.accounts[k].enabled then Reply(t, Err(AccountDisabled))
      else Reply(t.(codes := t.codes[k := LogonCode(Bcrypt(salt, code), until)]), Ok(CodeOf(code, until)))
  {
  }
}
